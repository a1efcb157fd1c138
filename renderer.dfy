/** The renderer object: the Vulkan instance, surface, physical and logical
    device, queues, swapchain and its image views, created in that order by
    construction and released in reverse by the destructor. */
module RendererState {

  import opened Wrappers
  import opened Vulkan
  import opened Requirements
  import opened SwapchainConfig
  import opened DeviceSelection
  import opened Lifetime

  /** What the renderer reads from the window: its framebuffer size in pixels. */
  datatype Window = Window(framebufferSize: Extent2D)

  /** The setup failures the renderer reports by throwing. */
  datatype InitError = ValidationLayersUnavailable | NoSuitablePhysicalDevice

  /** The Vulkan implementation and GLFW, as far as the renderer can observe
      them: the answers to its queries are fixed inputs, and every object it
      creates comes back as a new non-null handle. */
  class Driver {
    /** `enumerateInstanceLayerProperties`, by layer name. */
    const availableLayers: seq<string>
    /** `glfwGetRequiredInstanceExtensions`. */
    const requiredInstanceExtensions: seq<string>
    /** `enumeratePhysicalDevices`, with each device's query results. */
    const physicalDevices: seq<PhysicalDevice>
    /** The next handle the implementation hands out. */
    var nextHandle: Handle

    ghost predicate Valid()
      reads this
    {
      nextHandle != NULL_HANDLE
    }

    constructor(availableLayers: seq<string>, requiredInstanceExtensions: seq<string>, physicalDevices: seq<PhysicalDevice>)
      ensures Valid()
      ensures this.availableLayers == availableLayers
      ensures this.requiredInstanceExtensions == requiredInstanceExtensions
      ensures this.physicalDevices == physicalDevices
    {
      this.availableLayers := availableLayers;
      this.requiredInstanceExtensions := requiredInstanceExtensions;
      this.physicalDevices := physicalDevices;
      nextHandle := 1;
    }

    /** Creates one object and returns its handle, never handed out before. */
    method NewHandle() returns (h: Handle)
      requires Valid()
      modifies this`nextHandle
      ensures Valid()
      ensures h == old(nextHandle) && h != NULL_HANDLE && nextHandle > h
    {
      h := nextHandle;
      nextHandle := nextHandle + 1;
    }

    /** `getSwapchainImagesKHR` on a swapchain created for `requested` images:
        at least that many images, each with a new handle. */
    method GetSwapchainImages(requested: nat) returns (images: seq<Handle>)
      requires Valid()
      modifies this`nextHandle
      ensures Valid()
      ensures |images| >= requested
      ensures forall k :: 0 <= k < |images| ==> old(nextHandle) <= images[k] < nextHandle
    {
      var first := nextHandle;
      images := seq(requested, k requires 0 <= k < requested => first + k);
      nextHandle := nextHandle + requested;
    }
  }

  /** The create info of each image's view, in image order. */
  function ViewInfos(images: seq<Handle>, format: U32): (infos: seq<ImageViewCreateInfo>)
    ensures |infos| == |images|
    ensures forall k :: 0 <= k < |images| ==> infos[k].image == images[k] && infos[k].format == format
  {
    seq(|images|, k requires 0 <= k < |images| => ImageViewCreateInfo(images[k], format))
  }

  class Renderer {
    const driver: Driver

    var instance: Handle
    var physicalDevice: Option<PhysicalDevice>
    var device: Handle
    var graphicsQueue: Queue
    var presentQueue: Queue
    var surface: Handle
    var swapChain: Handle
    var swapChainImageFormat: U32
    var swapChainExtent: Extent2D
    var swapChainImages: seq<Handle>
    var swapChainImageViews: seq<Handle>
    var extensions: seq<string>
    var currentFrame: U32

    /** Every object the renderer created or destroyed, in order. */
    ghost var log: seq<Event>
    /** The arguments of the creation calls. */
    ghost var instanceInfo: InstanceCreateInfo
    ghost var deviceInfo: DeviceCreateInfo
    ghost var swapchainInfo: SwapchainCreateInfo
    ghost var imageViewInfos: seq<ImageViewCreateInfo>

    /** A chosen physical device is always a suitable one. */
    ghost predicate Valid()
      reads this, driver
    {
      && driver.Valid()
      && (physicalDevice.Some? ==> Suitable(physicalDevice.value))
    }

    /** The state the constructor leaves behind: every object it creates
        exists, one view per swapchain image, and the log holds exactly the
        construction events. */
    ghost predicate Constructed()
      reads this
    {
      && physicalDevice.Some?
      && |swapChainImageViews| == |swapChainImages|
      && log == ConstructionLog(instance, surface, device, swapChain, swapChainImageViews)
    }

    /** The member initialisers: every handle null, nothing created yet. */
    constructor Init(driver: Driver)
      requires driver.Valid()
      ensures this.driver == driver && Valid()
      ensures instance == NULL_HANDLE && surface == NULL_HANDLE && device == NULL_HANDLE && swapChain == NULL_HANDLE
      ensures physicalDevice == None && graphicsQueue == NoQueue && presentQueue == NoQueue
      ensures swapChainImages == [] && swapChainImageViews == [] && extensions == [] && currentFrame == 0
      ensures log == [] && imageViewInfos == []
    {
      this.driver := driver;
      instance, device, surface, swapChain := NULL_HANDLE, NULL_HANDLE, NULL_HANDLE, NULL_HANDLE;
      physicalDevice := None;
      graphicsQueue, presentQueue := NoQueue, NoQueue;
      swapChainImageFormat := 0;
      swapChainExtent := Extent2D(0, 0);
      swapChainImages, swapChainImageViews := [], [];
      extensions := [];
      currentFrame := 0;
      log := [];
      instanceInfo := InstanceCreateInfo([], []);
      deviceInfo := DeviceCreateInfo([], []);
      swapchainInfo := SwapchainCreateInfo(NULL_HANDLE, 0, 0, 0, Extent2D(0, 0), 0, Exclusive, 0, None, 0, 0, false);
      imageViewInfos := [];
    }

    /** `createInstance`: prepend GLFW's required extensions, check the
        validation layers, then create the instance with those layers and
        extensions. Missing layers are a setup failure. */
    method CreateInstance() returns (ok: bool)
      requires Valid()
      modifies this`extensions, this`instance, this`log, this`instanceInfo, driver`nextHandle
      ensures Valid()
      ensures extensions == driver.requiredInstanceExtensions + old(extensions)
      ensures ok <==> AllAvailable(ValidationLayers, driver.availableLayers)
      ensures ok ==> instance == old(driver.nextHandle) && instance != NULL_HANDLE
      ensures ok ==> log == old(log) + [Created(Instance, instance)]
      ensures ok ==> instanceInfo == InstanceCreateInfo(ValidationLayers, extensions)
      ensures !ok ==> log == old(log) && instance == old(instance) && driver.nextHandle == old(driver.nextHandle)
    {
      extensions := driver.requiredInstanceExtensions + extensions;
      ok := CheckLayers(ValidationLayers, driver.availableLayers);
      if !ok {
        return;
      }
      instanceInfo := InstanceCreateInfo(ValidationLayers, extensions);
      instance := driver.NewHandle();
      log := log + [Created(Instance, instance)];
    }

    /** `window.createSurface(instance)`: the window's drawable surface. */
    method CreateSurface()
      requires Valid()
      modifies this`surface, this`log, driver`nextHandle
      ensures Valid()
      ensures surface == old(driver.nextHandle) && surface != NULL_HANDLE
      ensures log == old(log) + [Created(Surface, surface)]
    {
      surface := driver.NewHandle();
      log := log + [Created(Surface, surface)];
    }

    /** `pickPhysicalDevice`: the first device, in enumeration order, that
        offers the required extensions, complete queue families and adequate
        swapchain support. Finding none is a setup failure. */
    method PickPhysicalDevice() returns (ok: bool)
      requires Valid()
      modifies this`physicalDevice
      ensures Valid()
      ensures ok <==> FirstSuitable(driver.physicalDevices).Some?
      ensures ok ==> physicalDevice == Some(driver.physicalDevices[FirstSuitable(driver.physicalDevices).value])
      ensures !ok ==> physicalDevice == old(physicalDevice)
    {
      var devices := driver.physicalDevices;
      var i := 0;
      while i < |devices|
        invariant 0 <= i <= |devices|
        invariant forall j :: 0 <= j < i ==> !Suitable(devices[j])
        invariant physicalDevice == old(physicalDevice)
      {
        var device := devices[i];
        var requiredExtensions := MissingExtensions(DeviceExtensions, device.extensions);
        if requiredExtensions == {} {
          var indices := FindQueueFamilies(device.queueFamilies);
          if indices.IsComplete() && QuerySwapChainSupport(device).IsAdequate() {
            physicalDevice := Some(device);
            FirstSuitableIsFirst(devices);
            return true;
          }
        }
        i := i + 1;
      }
      FirstSuitableIsFirst(devices);
      return false;
    }

    /** `createDevice`: one queue request per distinct family among the
        graphics and present families, the required device extensions, then
        queue 0 of each family. */
    method CreateDevice()
      requires Valid() && physicalDevice.Some?
      modifies this`device, this`graphicsQueue, this`presentQueue, this`log, this`deviceInfo, driver`nextHandle
      ensures Valid()
      ensures var indices := QueueFamiliesOf(physicalDevice.value.queueFamilies);
        && indices.IsComplete()
        && deviceInfo == DeviceCreateInfo(QueueCreateInfos(indices.graphicsFamily.value, indices.presentFamily.value), DeviceExtensions)
        && graphicsQueue == Queue(device, indices.graphicsFamily.value, 0)
        && presentQueue == Queue(device, indices.presentFamily.value, 0)
      ensures device == old(driver.nextHandle) && device != NULL_HANDLE && driver.nextHandle > device
      ensures log == old(log) + [Created(Device, device)]
    {
      var indices := FindQueueFamilies(physicalDevice.value.queueFamilies);
      var createInfos := QueueCreateInfos(indices.graphicsFamily.value, indices.presentFamily.value);
      deviceInfo := DeviceCreateInfo(createInfos, DeviceExtensions);
      device := driver.NewHandle();
      log := log + [Created(Device, device)];
      graphicsQueue := Queue(device, indices.graphicsFamily.value, 0);
      presentQueue := Queue(device, indices.presentFamily.value, 0);
    }

    /** `createSwapChain`: query the chosen device's surface support again,
        choose format, present mode and extent, record format and extent, ask
        for one image more than the minimum (bounded by the maximum), share the
        images between the two families when they differ, create the swapchain
        and fetch its images. */
    method CreateSwapChain(window: Window)
      requires Valid() && physicalDevice.Some?
      modifies this`swapChainImageFormat, this`swapChainExtent, this`swapChain, this`swapChainImages,
               this`log, this`swapchainInfo, driver`nextHandle
      ensures Valid()
      ensures var support := QuerySwapChainSupport(physicalDevice.value);
        var surfaceFormat := ChooseSwapSurfaceFormat(support.formats);
        var indices := QueueFamiliesOf(physicalDevice.value.queueFamilies);
        var sharing := SharingFor(indices.graphicsFamily.value, indices.presentFamily.value);
        && swapChainImageFormat == surfaceFormat.format
        && swapChainExtent == ChooseSwapExtent(support.capabilities, window.framebufferSize)
        && swapchainInfo == SwapchainCreateInfo(
             surface, SwapchainImageCount(support.capabilities), surfaceFormat.format, surfaceFormat.colorSpace,
             swapChainExtent, 1, sharing.mode, sharing.queueFamilyIndexCount, sharing.queueFamilyIndices,
             support.capabilities.currentTransform, ChooseSwapPresentMode(support.presentModes), true)
        && |swapChainImages| >= SwapchainImageCount(support.capabilities)
      ensures swapChain == old(driver.nextHandle) && swapChain != NULL_HANDLE
      ensures log == old(log) + [Created(Swapchain, swapChain)]
    {
      var swapChainSupport := QuerySwapChainSupport(physicalDevice.value);
      var surfaceFormat := ChooseSwapSurfaceFormat(swapChainSupport.formats);
      var presentMode := ChooseSwapPresentMode(swapChainSupport.presentModes);
      var extent := ChooseSwapExtent(swapChainSupport.capabilities, window.framebufferSize);
      swapChainImageFormat := surfaceFormat.format;
      swapChainExtent := extent;

      var imageCount := SwapchainImageCount(swapChainSupport.capabilities);

      var indices := FindQueueFamilies(physicalDevice.value.queueFamilies);
      var sharing := SharingFor(indices.graphicsFamily.value, indices.presentFamily.value);

      swapchainInfo := SwapchainCreateInfo(
        surface, imageCount, surfaceFormat.format, surfaceFormat.colorSpace, extent, 1,
        sharing.mode, sharing.queueFamilyIndexCount, sharing.queueFamilyIndices,
        swapChainSupport.capabilities.currentTransform, presentMode, true);

      swapChain := driver.NewHandle();
      log := log + [Created(Swapchain, swapChain)];
      swapChainImages := driver.GetSwapchainImages(imageCount);
    }

    /** `createImageViews`: resize the view list to the image count and create
        one 2D colour view of each image, in image order, with the swapchain's
        format. */
    method CreateImageViews()
      requires Valid()
      modifies this`swapChainImageViews, this`log, this`imageViewInfos, driver`nextHandle
      ensures Valid()
      ensures |swapChainImageViews| == |swapChainImages|
      ensures forall k :: 0 <= k < |swapChainImageViews| ==> swapChainImageViews[k] != NULL_HANDLE
      ensures forall k :: 0 <= k < |swapChainImageViews| ==>
        old(driver.nextHandle) <= swapChainImageViews[k] < driver.nextHandle
      ensures forall j, k :: 0 <= j < k < |swapChainImageViews| ==> swapChainImageViews[j] != swapChainImageViews[k]
      ensures imageViewInfos == ViewInfos(swapChainImages, swapChainImageFormat)
      ensures log == old(log) + CreatedViews(swapChainImageViews)
    {
      var n := |swapChainImages|;
      swapChainImageViews := seq(n, _ => NULL_HANDLE);
      imageViewInfos := [];
      var i := 0;
      while i < n
        invariant 0 <= i <= n && |swapChainImageViews| == n
        invariant driver.Valid()
        invariant forall k :: 0 <= k < i ==> swapChainImageViews[k] != NULL_HANDLE
        invariant old(driver.nextHandle) <= driver.nextHandle
        invariant forall k :: 0 <= k < i ==> old(driver.nextHandle) <= swapChainImageViews[k] < driver.nextHandle
        invariant forall j, k :: 0 <= j < k < i ==> swapChainImageViews[j] < swapChainImageViews[k]
        invariant imageViewInfos == ViewInfos(swapChainImages[..i], swapChainImageFormat)
        invariant log == old(log) + CreatedViews(swapChainImageViews[..i])
      {
        imageViewInfos := imageViewInfos + [ImageViewCreateInfo(swapChainImages[i], swapChainImageFormat)];
        var view := driver.NewHandle();
        swapChainImageViews := swapChainImageViews[i := view];
        log := log + [Created(ImageView, view)];
        assert swapChainImages[..i + 1] == swapChainImages[..i] + [swapChainImages[i]];
        assert swapChainImageViews[..i + 1] == swapChainImageViews[..i] + [view];
        i := i + 1;
      }
      assert swapChainImages[..i] == swapChainImages;
      assert swapChainImageViews[..i] == swapChainImageViews;
    }

    /** The part of the constructor after a device has been picked: the
        logical device, the swapchain and one view per swapchain image. */
    method CreateDeviceAndSwapChain(window: Window)
      requires Valid() && physicalDevice.Some?
      modifies this`device, this`graphicsQueue, this`presentQueue, this`deviceInfo,
               this`swapChainImageFormat, this`swapChainExtent, this`swapChain, this`swapChainImages,
               this`swapchainInfo, this`swapChainImageViews, this`imageViewInfos, this`log, driver`nextHandle
      ensures Valid()
      ensures |swapChainImageViews| == |swapChainImages|
      ensures log == old(log) + [Created(Device, device)] + [Created(Swapchain, swapChain)] + CreatedViews(swapChainImageViews)
    {
      CreateDevice();
      CreateSwapChain(window);
      CreateImageViews();
    }

    /** `Renderer(window)`: instance, surface, physical device, logical device,
        swapchain, image views, in that order. A setup step that throws makes
        the whole construction fail with its cause. */
    static method Create(driver: Driver, window: Window) returns (res: Result<Renderer, InitError>)
      requires driver.Valid()
      modifies driver
      ensures res.Failure? <==>
        !AllAvailable(ValidationLayers, driver.availableLayers) || FirstSuitable(driver.physicalDevices).None?
      ensures res.Failure? ==> (res.error ==
        if !AllAvailable(ValidationLayers, driver.availableLayers) then ValidationLayersUnavailable
        else NoSuitablePhysicalDevice)
      ensures res.Success? ==> var r := res.value;
        && fresh(r) && r.driver == driver && r.Valid() && r.Constructed()
        && r.physicalDevice == Some(driver.physicalDevices[FirstSuitable(driver.physicalDevices).value])
        && r.currentFrame == 0
    {
      var r := new Renderer.Init(driver);
      var ok := r.CreateInstance();
      if !ok {
        return Failure(ValidationLayersUnavailable);
      }
      r.CreateSurface();
      ok := r.PickPhysicalDevice();
      if !ok {
        return Failure(NoSuitablePhysicalDevice);
      }
      r.CreateDeviceAndSwapChain(window);
      ConstructionLogSteps(r.instance, r.surface, r.device, r.swapChain, r.swapChainImageViews);
      return Success(r);
    }

    /** `~Renderer`: destroy the image views in order, then the swapchain, the
        device, the surface and the instance. */
    method Destroy()
      requires Valid() && Constructed()
      modifies this`log
      ensures log == old(log) + TeardownLog(instance, surface, device, swapChain, swapChainImageViews)
    {
      var i := 0;
      while i < |swapChainImageViews|
        invariant 0 <= i <= |swapChainImageViews|
        invariant log == old(log) + DestroyedViews(swapChainImageViews[..i])
      {
        log := log + [Destroyed(ImageView, swapChainImageViews[i])];
        assert swapChainImageViews[..i + 1] == swapChainImageViews[..i] + [swapChainImageViews[i]];
        i := i + 1;
      }
      assert swapChainImageViews[..i] == swapChainImageViews;
      log := log + [Destroyed(Swapchain, swapChain), Destroyed(Device, device)];
      log := log + [Destroyed(Surface, surface), Destroyed(Instance, instance)];
    }
  }
}
