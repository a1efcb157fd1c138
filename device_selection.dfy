/** Device selection: the validation-layer check, the queue-family scan, the
    device-extension check, the choice of the first suitable physical device,
    and the de-duplicated queue requests of device creation. */
module DeviceSelection {

  import opened Wrappers
  import opened Vulkan
  import opened Requirements

  // ---------------------------------------------------------------------------
  // Requested names: validation layers and device extensions

  /** Every name of `names` occurs among the `available` names. */
  predicate AllAvailable(names: seq<string>, available: seq<string>)
  {
    |names| == 0 || (names[0] in available && AllAvailable(names[1..], available))
  }

  /** `AllAvailable` asks, name by name, for membership in the available list. */
  lemma {:induction false} AllAvailableIff(names: seq<string>, available: seq<string>)
    ensures AllAvailable(names, available) <==> forall k :: 0 <= k < |names| ==> names[k] in available
  {
    if |names| > 0 {
      AllAvailableIff(names[1..], available);
      assert forall k :: 1 <= k < |names| ==> names[k] == names[1..][k - 1];
    }
  }

  // ---------------------------------------------------------------------------
  // Validation layers

  /** `checkLayers`: for each requested layer, scan the available layers for an
      equal name; give up at the first requested layer that is missing. */
  method CheckLayers(requested: seq<string>, available: seq<string>) returns (ok: bool)
    ensures ok <==> AllAvailable(requested, available)
    ensures !ok ==> exists k :: 0 <= k < |requested| && requested[k] !in available
  {
    AllAvailableIff(requested, available);
    var n := 0;
    while n < |requested|
      invariant 0 <= n <= |requested|
      invariant forall k :: 0 <= k < n ==> requested[k] in available
    {
      var found := false;
      var m := 0;
      while m < |available|
        invariant 0 <= m <= |available|
        invariant found <==> requested[n] in available[..m]
      {
        if requested[n] == available[m] {
          found := true;
          break;
        }
        m := m + 1;
      }
      if !found {
        assert available[..|available|] == available;
        return false;
      }
      n := n + 1;
    }
    return true;
  }

  // ---------------------------------------------------------------------------
  // Queue families

  datatype Role = Graphics | Present

  predicate Serves(family: QueueFamily, role: Role)
  {
    match role
    case Graphics => family.graphics
    case Present => family.presentSupport
  }

  /** Some family among the first `n` of `families` serves `role`. */
  ghost predicate HasRole(families: seq<QueueFamily>, n: nat, role: Role)
    requires n <= |families|
  {
    exists i :: 0 <= i < n && Serves(families[i], role)
  }

  /** The index of the last family among the first `n` that serves `role`. */
  function LastServing(families: seq<QueueFamily>, n: nat, role: Role): (r: Option<nat>)
    requires n <= |families|
    ensures r.Some? ==> r.value < n && Serves(families[r.value], role)
    ensures r.Some? ==> forall j :: r.value < j < n ==> !Serves(families[j], role)
    ensures r.None? <==> !HasRole(families, n, role)
  {
    if n == 0 then None
    else if Serves(families[n - 1], role) then Some(n - 1)
    else LastServing(families, n - 1, role)
  }

  /** The indices held after visiting the first `n` families without stopping:
      each role keeps the last family that served it. */
  function Seen(families: seq<QueueFamily>, n: nat): QueueFamilyIndices
    requires n <= |families|
  {
    QueueFamilyIndices(LastServing(families, n, Graphics), LastServing(families, n, Present))
  }

  /** The length of the shortest prefix, at least `n` long, in which both roles
      have been seen, or the whole list when there is none. */
  function StopFrom(families: seq<QueueFamily>, n: nat): (stop: nat)
    requires n <= |families|
    ensures n <= stop <= |families|
    ensures stop < |families| ==> Seen(families, stop).IsComplete()
    ensures forall m :: n <= m < stop ==> !Seen(families, m).IsComplete()
    decreases |families| - n
  {
    if n == |families| || Seen(families, n).IsComplete() then n else StopFrom(families, n + 1)
  }

  /** What `findQueueFamilies` returns: the indices seen in the shortest prefix
      that has both a graphics and a present family, or in the whole list. */
  function QueueFamiliesOf(families: seq<QueueFamily>): QueueFamilyIndices
  {
    Seen(families, StopFrom(families, 0))
  }

  /** `findQueueFamilies`: visit the families in order, overwriting the graphics
      index at every graphics-capable family and the present index at every
      family that can present, and stop as soon as both are set. */
  method FindQueueFamilies(families: seq<QueueFamily>) returns (indices: QueueFamilyIndices)
    ensures indices == QueueFamiliesOf(families)
  {
    indices := NoQueueFamilies;
    var i := 0;
    while i < |families|
      invariant 0 <= i <= |families|
      invariant indices == Seen(families, i)
      invariant !indices.IsComplete()
      invariant StopFrom(families, 0) == StopFrom(families, i)
    {
      if families[i].graphics {
        indices := indices.(graphicsFamily := Some(i));
      }
      if families[i].presentSupport {
        indices := indices.(presentFamily := Some(i));
      }
      if indices.IsComplete() {
        assert StopFrom(families, i + 1) == i + 1;
        return;
      }
      i := i + 1;
    }
  }

  /** Every index `findQueueFamilies` sets names a family of the list that has
      the corresponding capability. */
  lemma QueueFamiliesValid(families: seq<QueueFamily>)
    ensures var r := QueueFamiliesOf(families);
      && (r.graphicsFamily.Some? ==> r.graphicsFamily.value < |families| && families[r.graphicsFamily.value].graphics)
      && (r.presentFamily.Some? ==> r.presentFamily.value < |families| && families[r.presentFamily.value].presentSupport)
  {
  }

  /** The scan ends complete exactly when the list has a graphics-capable
      family and a family that can present (possibly the same one). */
  lemma {:induction false} QueueFamiliesCompleteIff(families: seq<QueueFamily>)
    ensures QueueFamiliesOf(families).IsComplete() <==>
      HasRole(families, |families|, Graphics) && HasRole(families, |families|, Present)
  {
    var stop := StopFrom(families, 0);
    if stop < |families| {
      var g := LastServing(families, stop, Graphics).value;
      var p := LastServing(families, stop, Present).value;
      assert Serves(families[g], Graphics) && Serves(families[p], Present);
    }
  }

  /** When the scan ends complete it stopped at the first position where both
      roles had been seen: the later of the two indices is that position, no
      shorter prefix had both roles, and neither index was overwritten by a
      family between it and that position. */
  lemma {:induction false} QueueFamiliesStopEarly(families: seq<QueueFamily>)
    requires QueueFamiliesOf(families).IsComplete()
    ensures var r := QueueFamiliesOf(families);
      var last := if r.graphicsFamily.value < r.presentFamily.value then r.presentFamily.value else r.graphicsFamily.value;
      && last < |families|
      && !(HasRole(families, last, Graphics) && HasRole(families, last, Present))
      && (forall j :: r.graphicsFamily.value < j <= last ==> !families[j].graphics)
      && (forall j :: r.presentFamily.value < j <= last ==> !families[j].presentSupport)
  {
    var r := QueueFamiliesOf(families);
    var stop := StopFrom(families, 0);
    var g, p := r.graphicsFamily.value, r.presentFamily.value;
    var last := if g < p then p else g;
    // The prefix one shorter than the stopping point was still incomplete, so
    // the family just before that point gave one of the two roles.
    assert !Seen(families, stop - 1).IsComplete();
    assert Serves(families[stop - 1], Graphics) || Serves(families[stop - 1], Present);
    assert last == stop - 1;
    assert !Seen(families, last).IsComplete();
  }

  /** A first family that can do both gives both roles to index 0. */
  lemma FirstFamilyServesBoth(families: seq<QueueFamily>)
    requires |families| > 0 && families[0].graphics && families[0].presentSupport
    ensures QueueFamiliesOf(families) == QueueFamilyIndices(Some(0), Some(0))
  {
    assert StopFrom(families, 0) == StopFrom(families, 1);
  }

  // ---------------------------------------------------------------------------
  // Device extensions

  /** The extension check of `pickPhysicalDevice`: start from the set of
      required names and erase every available name from it. */
  method MissingExtensions(required: seq<string>, available: seq<string>) returns (remaining: set<string>)
    ensures remaining == (set k | 0 <= k < |required| :: required[k]) - (set k | 0 <= k < |available| :: available[k])
    ensures remaining == {} <==> AllAvailable(required, available)
  {
    AllAvailableIff(required, available);
    remaining := set k | 0 <= k < |required| :: required[k];
    var m := 0;
    while m < |available|
      invariant 0 <= m <= |available|
      invariant remaining == (set k | 0 <= k < |required| :: required[k]) - (set k | 0 <= k < m :: available[k])
    {
      remaining := remaining - {available[m]};
      m := m + 1;
    }
    if remaining == {} {
      forall k | 0 <= k < |required| ensures required[k] in available {
        assert required[k] !in remaining;
      }
    } else {
      var e :| e in remaining;
    }
  }

  // ---------------------------------------------------------------------------
  // Physical device choice

  /** `pickPhysicalDevice`'s test: the device offers every required extension,
      its queue families are complete, and its swapchain support is adequate. */
  ghost predicate Suitable(device: PhysicalDevice)
  {
    && AllAvailable(DeviceExtensions, device.extensions)
    && QueueFamiliesOf(device.queueFamilies).IsComplete()
    && QuerySwapChainSupport(device).IsAdequate()
  }

  /** The position of the first suitable device at or after position `i`. */
  ghost function FirstSuitableFrom(devices: seq<PhysicalDevice>, i: nat): (r: Option<nat>)
    requires i <= |devices|
    ensures r.Some? ==> i <= r.value < |devices|
    decreases |devices| - i
  {
    if i == |devices| then None
    else if Suitable(devices[i]) then Some(i)
    else FirstSuitableFrom(devices, i + 1)
  }

  /** The position of the first suitable device in enumeration order. */
  ghost function FirstSuitable(devices: seq<PhysicalDevice>): (r: Option<nat>)
    ensures r.Some? ==> r.value < |devices|
  {
    FirstSuitableFrom(devices, 0)
  }

  /** The search from `i` finds a suitable device with no suitable device
      between `i` and it, and finds none exactly when no device from `i` on is
      suitable. */
  lemma {:induction false} FirstSuitableFromIsFirst(devices: seq<PhysicalDevice>, i: nat)
    requires i <= |devices|
    ensures var r := FirstSuitableFrom(devices, i);
      && (r.Some? ==> i <= r.value < |devices| && Suitable(devices[r.value]))
      && (r.Some? ==> forall j :: i <= j < r.value ==> !Suitable(devices[j]))
      && (r.None? <==> forall j :: i <= j < |devices| ==> !Suitable(devices[j]))
    decreases |devices| - i
  {
    if i < |devices| && !Suitable(devices[i]) {
      FirstSuitableFromIsFirst(devices, i + 1);
    }
  }

  /** `FirstSuitable` picks the first suitable device, and picks none exactly
      when no device is suitable. */
  lemma FirstSuitableIsFirst(devices: seq<PhysicalDevice>)
    ensures var r := FirstSuitable(devices);
      && (r.Some? ==> r.value < |devices| && Suitable(devices[r.value]))
      && (r.Some? ==> forall j :: 0 <= j < r.value ==> !Suitable(devices[j]))
      && (r.None? <==> forall j :: 0 <= j < |devices| ==> !Suitable(devices[j]))
  {
    FirstSuitableFromIsFirst(devices, 0);
  }

  /** Suitability in terms of the raw query results: the required extension is
      listed, some family draws graphics, some family presents, and the surface
      reports a format and a present mode. */
  lemma SuitableIff(device: PhysicalDevice)
    ensures Suitable(device) <==>
      && "VK_KHR_swapchain" in device.extensions
      && HasRole(device.queueFamilies, |device.queueFamilies|, Graphics)
      && HasRole(device.queueFamilies, |device.queueFamilies|, Present)
      && device.formats != []
      && device.presentModes != []
  {
    QueueFamiliesCompleteIff(device.queueFamilies);
    assert AllAvailable(DeviceExtensions, device.extensions) <==> DeviceExtensions[0] in device.extensions;
  }

  // ---------------------------------------------------------------------------
  // Queue requests at device creation

  /** The queue requests of `createDevice`: one queue from each family of the
      set {graphics, present}, visited in ascending order as a `std::set` is. */
  function QueueCreateInfos(graphicsFamily: nat, presentFamily: nat): (infos: seq<DeviceQueueCreateInfo>)
    ensures forall i :: 0 <= i < |infos| ==> infos[i].queueCount == 1
    ensures forall i, j :: 0 <= i < j < |infos| ==> infos[i].queueFamilyIndex < infos[j].queueFamilyIndex
    ensures forall i :: 0 <= i < |infos| ==>
      infos[i].queueFamilyIndex == graphicsFamily || infos[i].queueFamilyIndex == presentFamily
    ensures 1 <= |infos| <= 2
    ensures infos[0].queueFamilyIndex == if graphicsFamily < presentFamily then graphicsFamily else presentFamily
    ensures infos[|infos| - 1].queueFamilyIndex == if graphicsFamily < presentFamily then presentFamily else graphicsFamily
    ensures |infos| == 1 <==> graphicsFamily == presentFamily
  {
    if graphicsFamily == presentFamily then
      [DeviceQueueCreateInfo(graphicsFamily, 1)]
    else if graphicsFamily < presentFamily then
      [DeviceQueueCreateInfo(graphicsFamily, 1), DeviceQueueCreateInfo(presentFamily, 1)]
    else
      [DeviceQueueCreateInfo(presentFamily, 1), DeviceQueueCreateInfo(graphicsFamily, 1)]
  }
}
