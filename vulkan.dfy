/** The Vulkan data the renderer consumes, as plain values.

    Every query the renderer makes (layer and extension enumeration, queue-family
    properties, surface support, surface capabilities, formats and present modes)
    is modelled by the record it returns. Enumerants keep their numeric values
    from the Vulkan headers. */
module Vulkan {

  import opened Wrappers

  /** `uint32_t`. */
  const U32_MAX: int := 0xFFFF_FFFF
  type U32 = x: int | 0 <= x <= U32_MAX

  /** An opaque dispatchable or non-dispatchable handle; 0 is VK_NULL_HANDLE. */
  type Handle = nat
  const NULL_HANDLE: Handle := 0

  /** `VkExtent2D`. */
  datatype Extent2D = Extent2D(width: U32, height: U32)

  /** `VK_FORMAT_B8G8R8A8_SRGB`. */
  const FORMAT_B8G8R8A8_SRGB: U32 := 50
  /** `VK_COLOR_SPACE_SRGB_NONLINEAR_KHR`. */
  const COLOR_SPACE_SRGB_NONLINEAR: U32 := 0

  /** `VkSurfaceFormatKHR`: a format and a colour space, both enumerant values. */
  datatype SurfaceFormat = SurfaceFormat(format: U32, colorSpace: U32)

  /** `VkPresentModeKHR` enumerant values. */
  type PresentMode = U32
  const PRESENT_MODE_MAILBOX: PresentMode := 1
  const PRESENT_MODE_FIFO: PresentMode := 2

  /** The fields of `VkSurfaceCapabilitiesKHR` the renderer reads. A
      `currentExtent` whose width is 0xFFFFFFFF means the swapchain decides the
      extent; a `maxImageCount` of 0 means there is no upper limit. */
  datatype SurfaceCapabilities = SurfaceCapabilities(
    minImageCount: U32,
    maxImageCount: U32,
    currentExtent: Extent2D,
    minImageExtent: Extent2D,
    maxImageExtent: Extent2D,
    currentTransform: U32)

  /** One queue family of a physical device: whether its flags contain
      `VK_QUEUE_GRAPHICS_BIT`, and what `getSurfaceSupportKHR` answers for the
      window's surface. */
  datatype QueueFamily = QueueFamily(graphics: bool, presentSupport: bool)

  /** A physical device together with the answers of every query made on it. */
  datatype PhysicalDevice = PhysicalDevice(
    handle: Handle,
    extensions: seq<string>,
    queueFamilies: seq<QueueFamily>,
    capabilities: SurfaceCapabilities,
    formats: seq<SurfaceFormat>,
    presentModes: seq<PresentMode>)

  /** What `getQueue(family, index)` returns: the queue of `device` named by
      its family and its index in that family. */
  datatype Queue = NoQueue | Queue(device: Handle, familyIndex: nat, queueIndex: nat)

  /** `VkSharingMode`. */
  datatype SharingMode = Exclusive | Concurrent

  /** `VkInstanceCreateInfo`: enabled layers and extensions. */
  datatype InstanceCreateInfo = InstanceCreateInfo(enabledLayers: seq<string>, enabledExtensions: seq<string>)

  /** `VkDeviceQueueCreateInfo` without its priority array. */
  datatype DeviceQueueCreateInfo = DeviceQueueCreateInfo(queueFamilyIndex: nat, queueCount: nat)

  /** `VkDeviceCreateInfo`: the queues to create and the enabled extensions. */
  datatype DeviceCreateInfo = DeviceCreateInfo(queueCreateInfos: seq<DeviceQueueCreateInfo>, enabledExtensions: seq<string>)

  /** `VkSwapchainCreateInfoKHR`, minus the fields the renderer sets to fixed
      values (colour-attachment usage, opaque composite alpha, no old swapchain).
      `queueFamilyIndices` is `None` for a null `pQueueFamilyIndices`. */
  datatype SwapchainCreateInfo = SwapchainCreateInfo(
    surface: Handle,
    minImageCount: U32,
    imageFormat: U32,
    imageColorSpace: U32,
    imageExtent: Extent2D,
    imageArrayLayers: nat,
    imageSharingMode: SharingMode,
    queueFamilyIndexCount: nat,
    queueFamilyIndices: Option<seq<nat>>,
    preTransform: U32,
    presentMode: PresentMode,
    clipped: bool)

  /** `VkImageViewCreateInfo` for a 2D colour view with identity swizzle,
      one mip level and one array layer. */
  datatype ImageViewCreateInfo = ImageViewCreateInfo(image: Handle, format: U32)
}
