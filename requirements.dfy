/** The value types and constant lists declared beside the renderer:
    `QueueFamilyIndices`, `SwapChainSupportDetails`, and the device extensions
    and validation layers the renderer requests. */
module Requirements {

  import opened Wrappers
  import opened Vulkan

  /** The device extensions every candidate physical device must offer. */
  const DeviceExtensions: seq<string> := ["VK_KHR_swapchain"]

  /** The instance layers the renderer enables. */
  const ValidationLayers: seq<string> := ["VK_LAYER_KHRONOS_validation"]

  /** Optional queue-family indices for graphics and for presentation. */
  datatype QueueFamilyIndices = QueueFamilyIndices(graphicsFamily: Option<nat>, presentFamily: Option<nat>)
  {
    /** Both roles have a family; the two may be the same family. */
    predicate IsComplete() {
      graphicsFamily.Some? && presentFamily.Some?
    }
  }

  /** A default-constructed `QueueFamilyIndices`: neither optional holds a value. */
  const NoQueueFamilies: QueueFamilyIndices := QueueFamilyIndices(None, None)

  /** What a physical device reports about presenting to the window's surface. */
  datatype SwapChainSupportDetails = SwapChainSupportDetails(
    capabilities: SurfaceCapabilities,
    formats: seq<SurfaceFormat>,
    presentModes: seq<PresentMode>)
  {
    /** At least one surface format and one present mode. */
    predicate IsAdequate() {
      |formats| > 0 && |presentModes| > 0
    }
  }

  /** `querySwapChainSupport`: the three surface queries of a device, gathered. */
  function QuerySwapChainSupport(device: PhysicalDevice): SwapChainSupportDetails
  {
    SwapChainSupportDetails(device.capabilities, device.formats, device.presentModes)
  }

  /** A freshly declared `QueueFamilyIndices` is not complete. */
  lemma DefaultIndicesIncomplete()
    ensures !NoQueueFamilies.IsComplete()
    ensures NoQueueFamilies.graphicsFamily.None? && NoQueueFamilies.presentFamily.None?
  {
  }

  /** Completeness is exactly "both set"; it does not ask the two families to
      differ, so one family serving both roles is complete. */
  lemma CompleteIffBothSet(indices: QueueFamilyIndices)
    ensures indices.IsComplete() <==> indices.graphicsFamily != None && indices.presentFamily != None
    ensures forall i: nat :: QueueFamilyIndices(Some(i), Some(i)).IsComplete()
  {
  }

  /** Adequacy looks only at the format and present-mode lists: swapping the
      capabilities never changes it. */
  lemma AdequacyIgnoresCapabilities(details: SwapChainSupportDetails, other: SurfaceCapabilities)
    ensures details.IsAdequate() <==> details.formats != [] && details.presentModes != []
    ensures details.(capabilities := other).IsAdequate() == details.IsAdequate()
  {
  }
}
