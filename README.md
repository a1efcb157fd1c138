# Renderer setup and asset paths, modelled in Dafny

This project models the set-up part of a small Vulkan renderer. It covers what
the `Renderer` constructor and destructor do:

- create the instance with GLFW's extensions and the Khronos validation layer;
- create the window surface;
- pick the first suitable physical device;
- create the logical device with its graphics and present queues;
- configure and create the swapchain;
- create one image view per swapchain image;
- in the destructor, release the kinds of object in the reverse of their
  creation order, with the image views released in their creation order.

It also models the rule that maps an asset identifier and kind to a file path.

The Vulkan implementation and GLFW are not modelled as code. Their answers are
inputs:

- the available layers;
- GLFW's required instance extensions;
- each physical device's extensions, queue families, surface capabilities,
  formats and present modes.

These live in the `Driver` object of `renderer.dfy`. Creating a Vulkan object
gives back a new non-null handle. A ghost event log in `Renderer` records every
creation and destruction, and ghost fields hold the create-info structures the
renderer passes.

Modules:

- `Wrappers`: `Option` and `Result`.
- `Vulkan`: the API records and enumerants the renderer reads or fills in.
  Enumerant values follow the Vulkan headers: `VK_FORMAT_B8G8R8A8_SRGB` = 50,
  `VK_COLOR_SPACE_SRGB_NONLINEAR_KHR` = 0, `MAILBOX` = 1, `FIFO` = 2.
- `Requirements`: `QueueFamilyIndices`, `SwapChainSupportDetails` and the two
  constant name lists from `renderer.hpp`.
- `SwapchainConfig`: the choice of format, present mode, extent, image count
  and image sharing.
- `DeviceSelection`: the layer check, the queue-family scan, the extension
  check, the first-suitable-device rule and the de-duplicated queue requests.
- `Lifetime`: the creation/destruction event log and why the teardown order is
  safe.
- `RendererState`: the `Driver` and `Renderer` classes. Each set-up step is a
  method that changes the renderer's fields.
- `AssetFiles`: `getFilePath`, with paths as sequences of components, plus an
  inverse parser.

Two behaviours of the code worth knowing:

- **Which queue family is used.** `findQueueFamilies` overwrites each index at
  every matching family. It stops only when both are set. So the graphics index
  is the last graphics family within the shortest prefix that has both roles,
  which is not always the first graphics family.
- **Image count.** The count is not always at least `minImageCount`. The code
  computes `minImageCount + 1` in 32-bit unsigned arithmetic, so with
  `minImageCount` = 0xFFFFFFFF the count wraps to 0 (`ImageCountWraps`). When
  there is a non-zero maximum no larger than the minimum, and the increment
  does not wrap, the count is that maximum.

## Model

| member | source | states |
|---|---|---|
| Requirements.DefaultIndicesIncomplete | src/rendering/renderer.hpp:10-16 | a default `QueueFamilyIndices` has neither index and is not complete |
| Requirements.CompleteIffBothSet | src/rendering/renderer.hpp:14-16 | complete exactly when both optionals hold a value; one family holding both roles is complete |
| Requirements.AdequacyIgnoresCapabilities | src/rendering/renderer.hpp:24-26 | adequate exactly when the format and present-mode lists are non-empty, whatever the capabilities |
| SwapchainConfig.FirstPreferred | src/rendering/renderer.cpp:156-160 | the scan finds the first B8G8R8A8-sRGB/sRGB-nonlinear entry, with no earlier match, and finds none exactly when the pair is absent |
| SwapchainConfig.ChooseSwapSurfaceFormat | src/rendering/renderer.cpp:155-163 | the result is one of the offered formats: the preferred pair when offered, otherwise the first entry |
| SwapchainConfig.ChooseSwapPresentMode | src/rendering/renderer.cpp:165-173 | the result is MAILBOX or FIFO, and MAILBOX exactly when MAILBOX is offered |
| SwapchainConfig.ChooseSwapExtent | src/rendering/renderer.cpp:175-187 | a defined current extent (width not 0xFFFFFFFF) is returned as is; otherwise each of width and height is kept when it lies within its min/max bounds, becomes the minimum when below it and the maximum when above it, so the result lies within the bounds |
| SwapchainConfig.ChooseSwapExtentStable | src/rendering/renderer.cpp:182-183 | clamping an already clamped extent changes nothing |
| SwapchainConfig.SwapchainImageCount | src/rendering/renderer.cpp:198-201 | never above a non-zero maximum; min + 1 (mod 2^32) without a maximum; exactly min + 1 when that fits; the maximum when a non-zero maximum is at most the minimum and min + 1 does not wrap; at least min when min <= max and min + 1 does not wrap |
| SwapchainConfig.ImageCountWraps | src/rendering/renderer.cpp:198 | at minImageCount 0xFFFFFFFF the count wraps to 0, below the minimum |
| SwapchainConfig.SharingFor | src/rendering/renderer.cpp:204-216 | concurrent sharing over [graphics, present] exactly when the families differ; otherwise exclusive with count 0 and no index array |
| SwapchainConfig.SharingForIsValid | src/rendering/renderer.cpp:204-216 | the sharing block meets the Vulkan rules (concurrent: array present, length equals count, count > 1, unique indices), and both families can use the images |
| DeviceSelection.AllAvailableIff | src/rendering/renderer.cpp:31-44 | a name list is available exactly when each of its names is among the available names |
| DeviceSelection.CheckLayers | src/rendering/renderer.cpp:28-47 | true exactly when every requested layer is among the available layers; when false, a missing layer exists |
| DeviceSelection.LastServing | src/rendering/renderer.cpp:109-117 | the last family before position n with the capability, none of the later ones has it, and none is found exactly when no family before n has it |
| DeviceSelection.StopFrom | src/rendering/renderer.cpp:118 | the scan stops at the first position where both roles have been seen, or runs off the end |
| DeviceSelection.FindQueueFamilies | src/rendering/renderer.cpp:104-124 | the loop returns the indices of the scan specification `QueueFamiliesOf` |
| DeviceSelection.QueueFamiliesValid | src/rendering/renderer.cpp:110-116 | each index that is set names an existing family with the matching capability |
| DeviceSelection.QueueFamiliesCompleteIff | src/rendering/renderer.cpp:104-124 | the result is complete exactly when some family draws graphics and some family presents |
| DeviceSelection.QueueFamiliesStopEarly | src/rendering/renderer.cpp:109-121 | a complete result stops at the first prefix holding both roles, and neither index is overwritten before that point |
| DeviceSelection.FirstFamilyServesBoth | src/rendering/renderer.cpp:109-118 | a first family with both capabilities gives index 0 to both roles |
| DeviceSelection.MissingExtensions | src/rendering/renderer.cpp:83-89 | the remaining set is required minus available, and it is empty exactly when every required extension is available |
| DeviceSelection.FirstSuitableFrom | src/rendering/renderer.cpp:80-97 | a device found from position i on lies at or after i, within the list |
| DeviceSelection.FirstSuitable | src/rendering/renderer.cpp:80-97 | a chosen position lies within the device list |
| DeviceSelection.FirstSuitableFromIsFirst | src/rendering/renderer.cpp:80-97 | the search from i finds a suitable device with no suitable device before it, and finds none exactly when none from i on is suitable |
| DeviceSelection.FirstSuitableIsFirst | src/rendering/renderer.cpp:76-102 | first match in enumeration order wins, and there is none exactly when no device is suitable |
| DeviceSelection.SuitableIff | src/rendering/renderer.cpp:83-90 | suitable exactly when VK_KHR_swapchain is offered, some family draws graphics, some family presents, and there is a format and a present mode |
| DeviceSelection.QueueCreateInfos | src/rendering/renderer.cpp:130-137 | one request of one queue per distinct family, in ascending family order: a single request when graphics and present share a family, two otherwise |
| Lifetime.DependsOnLowersRank | src/rendering/renderer.cpp:8-15 | construction order creates every parent object before its children |
| Lifetime.RankedTeardownIsSafe | src/rendering/renderer.cpp:17-26 | a teardown that destroys everything created, in non-increasing construction rank, destroys each object after it was created and only after its children |
| Lifetime.TeardownReversesConstruction | src/rendering/renderer.cpp:8-26 | the destructor releases kinds in exactly the reverse of the creation order, destroys every created object, and never destroys a parent before its children |
| RendererState.ViewInfos | src/rendering/renderer.cpp:242-243 | one view create-info per image, in image order, each with that image and the swapchain format |
| RendererState.Driver.GetSwapchainImages | src/rendering/renderer.cpp:237 | at least the requested number of images, each with a new handle |
| RendererState.Renderer.Init | src/rendering/renderer.hpp:39-82 | before set-up every handle is null, no device is chosen, all lists are empty and the frame counter is 0 |
| RendererState.Renderer.CreateInstance | src/rendering/renderer.cpp:49-74 | GLFW's extensions are prepended; the instance is created with the validation layer and those extensions exactly when the layer is available; otherwise nothing is created |
| RendererState.Renderer.CreateSurface | src/rendering/renderer.cpp:10 | one new surface is created and logged |
| RendererState.Renderer.PickPhysicalDevice | src/rendering/renderer.cpp:76-102 | succeeds exactly when some device is suitable, and then holds the first suitable device; on failure the device is unchanged |
| RendererState.Renderer.CreateDevice | src/rendering/renderer.cpp:126-143 | the device is created with the de-duplicated queue requests and the swapchain extension; the queues are queue 0 of the graphics and of the present family |
| RendererState.Renderer.CreateSwapChain | src/rendering/renderer.cpp:189-238 | the swapchain create info holds the chosen format, colour space, extent, image count, sharing block, current transform and present mode, with one layer and clipping; format and extent are stored; at least that many images come back |
| RendererState.Renderer.CreateImageViews | src/rendering/renderer.cpp:240-258 | one view per swapchain image, created in image order with the swapchain format; every view handle is non-null, new from the driver, and distinct from the others |
| RendererState.Renderer.CreateDeviceAndSwapChain | src/rendering/renderer.cpp:12-14 | the device, swapchain and views are created in that order, one view per image |
| RendererState.Renderer.Create | src/rendering/renderer.cpp:8-15 | construction fails exactly when the validation layer is missing or no device is suitable, with that cause; otherwise everything is created in order, the first suitable device is used and the frame counter is 0 |
| RendererState.Renderer.Destroy | src/rendering/renderer.cpp:17-26 | appends the destruction of each view in order, then of the swapchain, device, surface and instance |
| AssetFiles.GetFilePath | src/assets/file.cpp:4-20 | the path is cwd / .. / mods / space / assets / directory / name+extension |
| AssetFiles.DirectoryType | src/assets/file.cpp:8-17 | a directory name maps back to the kind that uses it, and only "shaders" and "textures" map to a kind |
| AssetFiles.ParseGetFilePath | src/assets/file.cpp:4-20 | every built path parses back to its identifier and kind, so distinct assets never share a path |
| AssetFiles.GetFilePathOfParse | src/assets/file.cpp:19 | any path that parses is the path built from what it parses to |
| AssetFiles.ShaderAndTexturePathsDiffer | src/assets/file.cpp:8-17 | a shader and a texture with the same identifier resolve to different paths |
| AssetFiles.KindChangesOnlyDirectoryAndExtension | src/assets/file.cpp:8-19 | two kinds give the same leading components and the same file-name stem |

## Left out

- The Vulkan and GLFW calls themselves. Their results are inputs held by the `Driver`, and object creation always succeeds in the model. In the source, a failing `createInstance`, `createSwapchainKHR` or `createImageView` prints the error and calls `exit(-1)`. `createDevice` and `getQueue` failures propagate as exceptions.
- Printing: the chosen device name and the error messages.
- The device properties query (`getProperties`), which is used only for printing.
- `queuePriority` (1.0f) in the queue requests, because it is floating point.
- The remaining create-info fields that are fixed constants: image usage, composite alpha, old swapchain, view type, component mapping and subresource range.
- Present support is a property of each queue family. The surface it is asked about is not modelled.
- The members `renderer.hpp` declares but `renderer.cpp` does not define in the modelled part are left out. These are the pipeline, render pass, framebuffers, buffers, descriptors, command pool and buffers, sync objects, `tick`, `end`, `recreateSwapChain`, `cleanupSwapChain` and `findMemoryType`. So are the fields they use, and `MAX_FRAMES_IN_FLIGHT`.
- `readFile` (file I/O) and the working-directory query. The working directory is a parameter of `GetFilePath`.
- `GetFilePath`: a path is a sequence of components joined by `/`. Normalisation of `..`, absolute components and separators inside an identifier are not modelled.
- SwapchainConfig.ChooseSwapExtent: the bounds are stated only when min <= max. For min > max, `std::clamp` has undefined behaviour.
- SwapchainConfig.ChooseSwapSurfaceFormat: requires a non-empty list. The source reads element 0 unguarded, and its only caller runs after the adequacy check.
- RendererState.Driver.GetSwapchainImages: promises only at least as many images as requested. The implementation may return more.
- RendererState.Renderer.CreateDeviceAndSwapChain: groups the last three constructor steps to keep the proof of `Create` small. Its contract is weaker than the three steps' contracts, and `Create` states only what construction as a whole guarantees.
