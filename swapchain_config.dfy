/** The swapchain configuration rules: which surface format, present mode and
    extent the renderer asks for, how many images, and how the images are
    shared between the graphics and present queue families. */
module SwapchainConfig {

  import opened Wrappers
  import opened Vulkan

  /** The format/colour-space pair the renderer prefers. */
  const PreferredFormat: SurfaceFormat := SurfaceFormat(FORMAT_B8G8R8A8_SRGB, COLOR_SPACE_SRGB_NONLINEAR)

  /** The first entry of `formats` equal to the preferred pair, scanning in order. */
  function FirstPreferred(formats: seq<SurfaceFormat>): (r: Option<nat>)
    ensures r.Some? ==> r.value < |formats| && formats[r.value] == PreferredFormat
    ensures r.Some? ==> forall j :: 0 <= j < r.value ==> formats[j] != PreferredFormat
    ensures r.None? <==> PreferredFormat !in formats
  {
    if |formats| == 0 then None
    else if formats[0] == PreferredFormat then Some(0)
    else match FirstPreferred(formats[1..])
      case None => None
      case Some(k) => Some(k + 1)
  }

  /** `chooseSwapSurfaceFormat`: the preferred pair when the list offers it,
      otherwise the first entry (which is why the list must not be empty). */
  function ChooseSwapSurfaceFormat(formats: seq<SurfaceFormat>): (r: SurfaceFormat)
    requires |formats| > 0
    ensures r in formats
    ensures PreferredFormat in formats ==> r == PreferredFormat
    ensures PreferredFormat !in formats ==> r == formats[0]
  {
    match FirstPreferred(formats)
    case Some(k) => formats[k]
    case None => formats[0]
  }

  /** `chooseSwapPresentMode`: scans for `MAILBOX` and falls back to `FIFO`. */
  function ChooseSwapPresentMode(modes: seq<PresentMode>): (r: PresentMode)
    ensures r == PRESENT_MODE_MAILBOX || r == PRESENT_MODE_FIFO
    ensures r == PRESENT_MODE_MAILBOX <==> PRESENT_MODE_MAILBOX in modes
  {
    if |modes| == 0 then PRESENT_MODE_FIFO
    else if modes[0] == PRESENT_MODE_MAILBOX then modes[0]
    else ChooseSwapPresentMode(modes[1..])
  }

  /** `std::clamp(v, lo, hi)` as the standard library writes it. */
  function Clamp(v: U32, lo: U32, hi: U32): U32
  {
    if v < lo then lo else if hi < v then hi else v
  }

  /** `chooseSwapExtent`. A `currentExtent` whose width is not 0xFFFFFFFF is
      used as it is (its height is not inspected, and the framebuffer size is
      ignored); otherwise each component of the framebuffer size is clamped
      into the surface's extent bounds. */
  function ChooseSwapExtent(caps: SurfaceCapabilities, framebufferSize: Extent2D): (r: Extent2D)
    ensures caps.currentExtent.width != U32_MAX ==> r == caps.currentExtent
    ensures caps.currentExtent.width == U32_MAX
              && caps.minImageExtent.width <= caps.maxImageExtent.width
              && caps.minImageExtent.height <= caps.maxImageExtent.height
            ==> caps.minImageExtent.width <= r.width <= caps.maxImageExtent.width
                && caps.minImageExtent.height <= r.height <= caps.maxImageExtent.height
    ensures caps.currentExtent.width == U32_MAX
              && caps.minImageExtent.width <= framebufferSize.width <= caps.maxImageExtent.width
              && caps.minImageExtent.height <= framebufferSize.height <= caps.maxImageExtent.height
            ==> r == framebufferSize
    ensures caps.currentExtent.width == U32_MAX && framebufferSize.width < caps.minImageExtent.width
            ==> r.width == caps.minImageExtent.width
    ensures caps.currentExtent.width == U32_MAX && caps.maxImageExtent.width < framebufferSize.width
              && caps.minImageExtent.width <= caps.maxImageExtent.width
            ==> r.width == caps.maxImageExtent.width
    ensures caps.currentExtent.width == U32_MAX
              && caps.minImageExtent.width <= framebufferSize.width <= caps.maxImageExtent.width
            ==> r.width == framebufferSize.width
    ensures caps.currentExtent.width == U32_MAX
              && caps.minImageExtent.height <= framebufferSize.height <= caps.maxImageExtent.height
            ==> r.height == framebufferSize.height
    ensures caps.currentExtent.width == U32_MAX && framebufferSize.height < caps.minImageExtent.height
            ==> r.height == caps.minImageExtent.height
    ensures caps.currentExtent.width == U32_MAX && caps.maxImageExtent.height < framebufferSize.height
              && caps.minImageExtent.height <= caps.maxImageExtent.height
            ==> r.height == caps.maxImageExtent.height
  {
    if caps.currentExtent.width != U32_MAX then
      caps.currentExtent
    else
      Extent2D(
        Clamp(framebufferSize.width, caps.minImageExtent.width, caps.maxImageExtent.width),
        Clamp(framebufferSize.height, caps.minImageExtent.height, caps.maxImageExtent.height))
  }

  /** When the extent is chosen by clamping, choosing again from the chosen
      extent changes nothing. */
  lemma ChooseSwapExtentStable(caps: SurfaceCapabilities, framebufferSize: Extent2D)
    requires caps.currentExtent.width == U32_MAX
    requires caps.minImageExtent.width <= caps.maxImageExtent.width
    requires caps.minImageExtent.height <= caps.maxImageExtent.height
    ensures ChooseSwapExtent(caps, ChooseSwapExtent(caps, framebufferSize)) == ChooseSwapExtent(caps, framebufferSize)
  {
  }

  /** The swapchain image count: one more than the minimum, computed in 32-bit
      unsigned arithmetic, and lowered to the maximum when there is one and it
      is exceeded. */
  function SwapchainImageCount(caps: SurfaceCapabilities): (count: U32)
    ensures caps.maxImageCount > 0 ==> count <= caps.maxImageCount
    ensures caps.maxImageCount == 0 ==> count == (caps.minImageCount + 1) % 0x1_0000_0000
    ensures caps.minImageCount < U32_MAX && (caps.maxImageCount == 0 || caps.minImageCount < caps.maxImageCount)
            ==> count == caps.minImageCount + 1
    ensures caps.minImageCount < U32_MAX && caps.minImageCount <= caps.maxImageCount
            ==> caps.minImageCount <= count
    ensures 0 < caps.maxImageCount <= caps.minImageCount < U32_MAX ==> count == caps.maxImageCount
  {
    var imageCount: U32 := (caps.minImageCount + 1) % 0x1_0000_0000;
    if caps.maxImageCount > 0 && imageCount > caps.maxImageCount then caps.maxImageCount else imageCount
  }

  /** With `minImageCount` at 0xFFFFFFFF the increment wraps to 0, so the count
      falls below the minimum whatever the maximum is. */
  lemma ImageCountWraps(caps: SurfaceCapabilities)
    requires caps.minImageCount == U32_MAX
    ensures SwapchainImageCount(caps) == 0
    ensures SwapchainImageCount(caps) < caps.minImageCount
  {
  }

  /** How the swapchain images are shared: the sharing mode, the queue-family
      index count and the index array (`None` when no array is passed). */
  datatype Sharing = Sharing(mode: SharingMode, queueFamilyIndexCount: nat, queueFamilyIndices: Option<seq<nat>>)

  /** The sharing block of the swapchain create info, given the graphics and
      present family indices. */
  function SharingFor(graphicsFamily: nat, presentFamily: nat): (s: Sharing)
    ensures s.mode == Concurrent <==> graphicsFamily != presentFamily
    ensures s.mode == Concurrent ==> s.queueFamilyIndices == Some([graphicsFamily, presentFamily])
    ensures s.mode == Exclusive ==> s.queueFamilyIndexCount == 0 && s.queueFamilyIndices == None
  {
    if graphicsFamily != presentFamily then
      Sharing(Concurrent, 2, Some([graphicsFamily, presentFamily]))
    else
      Sharing(Exclusive, 0, None)
  }

  /** The sharing block obeys the swapchain rules of the Vulkan specification:
      with concurrent sharing the index array is present, its length is the
      count, the count is greater than one and the indices are unique; with
      exclusive sharing the array is ignored. Both families can use the images
      in either case: they are listed, or they are one family. */
  ghost predicate ValidSharing(s: Sharing, graphicsFamily: nat, presentFamily: nat)
  {
    && (s.mode == Concurrent ==>
          && s.queueFamilyIndices.Some?
          && |s.queueFamilyIndices.value| == s.queueFamilyIndexCount
          && s.queueFamilyIndexCount > 1
          && (forall i, j :: 0 <= i < j < |s.queueFamilyIndices.value| ==>
                s.queueFamilyIndices.value[i] != s.queueFamilyIndices.value[j])
          && graphicsFamily in s.queueFamilyIndices.value
          && presentFamily in s.queueFamilyIndices.value)
    && (s.mode == Exclusive ==> graphicsFamily == presentFamily)
  }

  lemma SharingForIsValid(graphicsFamily: nat, presentFamily: nat)
    ensures ValidSharing(SharingFor(graphicsFamily, presentFamily), graphicsFamily, presentFamily)
  {
  }
}
