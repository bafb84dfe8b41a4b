/**
 * Physical-device selection in src/VulkanRenderer.cpp: the queue-family scan, the extension
 * and layer checks, the suitability test, first-suitable selection and the de-duplicated
 * queue-create list of the logical device.
 */
module DeviceSelection {
  import opened Vulkan
  import opened Wrappers
  import opened Utils

  /** Validation layers requested in debug builds. */
  const VALIDATION_LAYERS: seq<string> := ["VK_LAYER_KHRONOS_validation"]

  datatype QueueKind = Graphics | Presentation

  /** The family has at least one queue and the graphics bit, respectively presentation support. */
  predicate Supports(family: QueueFamily, kind: QueueKind) {
    family.queueCount > 0 &&
    match kind
    case Graphics => (family.queueFlags & QUEUE_GRAPHICS_BIT) != 0
    case Presentation => family.surfaceSupport
  }

  /** The last family below `n` that supports `kind`, or -1. */
  function LastSupporting(families: seq<QueueFamily>, kind: QueueKind, n: nat): (r: int)
    requires n <= |families|
    ensures -1 <= r < n
    ensures r >= 0 ==> Supports(families[r], kind)
    ensures forall i :: r < i < n ==> !Supports(families[i], kind)
  {
    if n == 0 then -1
    else if Supports(families[n - 1], kind) then n - 1
    else LastSupporting(families, kind, n - 1)
  }

  /** Among the first `n` families there is a graphics family and a presentation family. */
  predicate FoundBoth(families: seq<QueueFamily>, n: nat)
    requires n <= |families|
  {
    LastSupporting(families, Graphics, n) >= 0 && LastSupporting(families, Presentation, n) >= 0
  }

  /** How many families the scan examines when it reaches index `from`. */
  function ScanEnd(families: seq<QueueFamily>, from: nat): (end: nat)
    requires from <= |families|
    ensures from <= end <= |families|
    ensures end == |families| || FoundBoth(families, end)
    ensures forall n :: from < n < end ==> !FoundBoth(families, n)
    decreases |families| - from
  {
    if from == |families| then from
    else if FoundBoth(families, from + 1) then from + 1
    else ScanEnd(families, from + 1)
  }

  /** The indices GetQueueFamilies returns for a device with these families. */
  function QueueFamiliesOf(families: seq<QueueFamily>): QueueFamilyIndices {
    var end := ScanEnd(families, 0);
    QueueFamilyIndices(LastSupporting(families, Graphics, end), LastSupporting(families, Presentation, end))
  }

  /**
   * Scans the families in index order, recording each graphics-capable and each
   * presentation-capable family, and stops after the first index at which both are known.
   */
  method GetQueueFamilies(device: PhysicalDevice) returns (indices: QueueFamilyIndices)
    ensures indices == QueueFamiliesOf(device.queueFamilies)
    ensures indices.graphicsFamily == -1
            || (0 <= indices.graphicsFamily < |device.queueFamilies|
                && Supports(device.queueFamilies[indices.graphicsFamily], Graphics))
    ensures indices.presentationFamily == -1
            || (0 <= indices.presentationFamily < |device.queueFamilies|
                && Supports(device.queueFamilies[indices.presentationFamily], Presentation))
  {
    var families := device.queueFamilies;
    indices := NewQueueFamilyIndices();
    var index := 0;
    while index < |families|
      invariant index <= |families|
      invariant indices == QueueFamilyIndices(LastSupporting(families, Graphics, index), LastSupporting(families, Presentation, index))
      invariant ScanEnd(families, 0) == ScanEnd(families, index)
    {
      var queueFamily := families[index];
      if queueFamily.queueCount > 0 && (queueFamily.queueFlags & QUEUE_GRAPHICS_BIT) != 0 {
        indices := indices.(graphicsFamily := index);
      }
      if queueFamily.queueCount > 0 && queueFamily.surfaceSupport {
        indices := indices.(presentationFamily := index);
      }
      if indices.IsValid() {
        break;
      }
      index := index + 1;
    }
  }

  /** The scan's result is valid exactly when the device has a graphics family and a presentation family. */
  lemma {:induction false} QueueFamiliesValidIff(families: seq<QueueFamily>)
    ensures QueueFamiliesOf(families).IsValid()
            <==> (exists i :: 0 <= i < |families| && Supports(families[i], Graphics))
                 && (exists j :: 0 <= j < |families| && Supports(families[j], Presentation))
  {
    var end := ScanEnd(families, 0);
    if (exists i :: 0 <= i < |families| && Supports(families[i], Graphics))
       && (exists j :: 0 <= j < |families| && Supports(families[j], Presentation))
    {
      var i :| 0 <= i < |families| && Supports(families[i], Graphics);
      var j :| 0 <= j < |families| && Supports(families[j], Presentation);
      assert LastSupporting(families, Graphics, |families|) >= i;
      assert LastSupporting(families, Presentation, |families|) >= j;
      assert FoundBoth(families, end);
    }
  }

  /**
   * The graphics index is the LAST graphics family seen before the scan stops: with two
   * graphics-only families ahead of a presentation-only one the scan reports family 1.
   */
  lemma LastGraphicsFamilyWins()
    ensures var g := QueueFamily(QUEUE_GRAPHICS_BIT, 1, false);
            var p := QueueFamily(0, 1, true);
            QueueFamiliesOf([g, g, p]) == QueueFamilyIndices(1, 2)
  {
    var g := QueueFamily(QUEUE_GRAPHICS_BIT, 1, false);
    var p := QueueFamily(0, 1, true);
    var fs := [g, g, p];
    assert !FoundBoth(fs, 1) && !FoundBoth(fs, 2) && FoundBoth(fs, 3);
    assert ScanEnd(fs, 0) == 3;
  }

  /** Every name of `required` occurs in `available` (the strcmp(...) == 0 search). */
  method ContainsAll(required: seq<string>, available: seq<string>) returns (ok: bool)
    ensures ok <==> forall r :: r in required ==> r in available
  {
    for i := 0 to |required|
      invariant forall r :: r in required[..i] ==> r in available
    {
      var hasExtension := false;
      for j := 0 to |available|
        invariant !hasExtension ==> required[i] !in available[..j]
        invariant hasExtension ==> required[i] in available
      {
        if required[i] == available[j] {
          hasExtension := true;
          break;
        }
      }
      assert available[..|available|] == available;
      if !hasExtension {
        return false;
      }
    }
    return true;
  }

  /**
   * What the instance-extension check computes: its strcmp test is true when the names
   * DIFFER, so a required name passes as soon as some available name is different from it.
   */
  predicate InstanceExtensionsPass(checkExtensions: seq<string>, available: seq<string>) {
    forall c :: c in checkExtensions ==> exists a :: a in available && a != c
  }

  /** The instance-extension check as written (inverted comparison). */
  method CheckInstanceExtensionSupport(checkExtensions: seq<string>, available: seq<string>) returns (ok: bool)
    ensures ok == InstanceExtensionsPass(checkExtensions, available)
  {
    for i := 0 to |checkExtensions|
      invariant forall k :: 0 <= k < i ==> exists a :: a in available && a != checkExtensions[k]
    {
      var hasExtension := false;
      for j := 0 to |available|
        invariant !hasExtension ==> forall k :: 0 <= k < j ==> available[k] == checkExtensions[i]
        invariant hasExtension ==> exists a :: a in available && a != checkExtensions[i]
      {
        if checkExtensions[i] != available[j] {
          assert available[j] in available;
          hasExtension := true;
          break;
        }
      }
      if !hasExtension {
        assert checkExtensions[i] in checkExtensions;
        return false;
      }
    }
    return true;
  }

  /**
   * The inverted check rejects an instance offering exactly the required extension and
   * accepts one that lacks it, the opposite of containment.
   */
  lemma InstanceExtensionCheckInverted()
    ensures !InstanceExtensionsPass(["VK_KHR_surface"], ["VK_KHR_surface"])
    ensures InstanceExtensionsPass(["VK_KHR_surface"], ["VK_EXT_debug_utils"])
    ensures !("VK_KHR_surface" in ["VK_EXT_debug_utils"])
  {
    var surface, debug := "VK_KHR_surface", "VK_EXT_debug_utils";
    assert forall a :: a in [surface] ==> a == surface;
    assert surface in [surface];
    assert debug in [debug] && surface != debug;
  }

  /** The device's extension list passes the device-extension check. */
  predicate ExtensionsSupported(extensions: seq<string>) {
    |extensions| > 0 && forall r :: r in DEVICE_EXTENSIONS ==> r in extensions
  }

  /** False for a device reporting no extensions; otherwise every required extension must be listed. */
  method CheckDeviceExtensionSupport(device: PhysicalDevice) returns (ok: bool)
    ensures ok == ExtensionsSupported(device.extensions)
    ensures ok <==> KHR_SWAPCHAIN_EXTENSION_NAME in device.extensions
  {
    if |device.extensions| == 0 {
      return false;
    }
    ok := ContainsAll(DEVICE_EXTENSIONS, device.extensions);
  }

  /** Every requested validation layer is among the available layers. */
  method CheckValidationLayerSupport(availableLayers: seq<string>) returns (ok: bool)
    ensures ok <==> "VK_LAYER_KHRONOS_validation" in availableLayers
  {
    ok := ContainsAll(VALIDATION_LAYERS, availableLayers);
  }

  /** The conjunction CheckDeviceSuitable evaluates. */
  predicate Suitable(device: PhysicalDevice) {
    && QueueFamiliesOf(device.queueFamilies).IsValid()
    && ExtensionsSupported(device.extensions)
    && |device.swapChainDetails.presentationModes| > 0
    && |device.swapChainDetails.formats| > 0
  }

  /**
   * A device is suitable iff it has a graphics family and a presentation family, offers the
   * swapchain extension, and reports at least one surface format and one present mode.
   */
  method CheckDeviceSuitable(device: PhysicalDevice) returns (ok: bool)
    ensures ok == Suitable(device)
    ensures ok <==> && (exists i :: 0 <= i < |device.queueFamilies| && Supports(device.queueFamilies[i], Graphics))
                    && (exists j :: 0 <= j < |device.queueFamilies| && Supports(device.queueFamilies[j], Presentation))
                    && KHR_SWAPCHAIN_EXTENSION_NAME in device.extensions
                    && |device.swapChainDetails.formats| > 0
                    && |device.swapChainDetails.presentationModes| > 0
  {
    var indices := GetQueueFamilies(device);
    var hasExtensionsSupported := CheckDeviceExtensionSupport(device);
    var swapChainValid := false;
    if hasExtensionsSupported {
      var swapChainDetails := device.swapChainDetails;
      swapChainValid := |swapChainDetails.presentationModes| > 0 && |swapChainDetails.formats| > 0;
    }
    ok := indices.IsValid() && hasExtensionsSupported && swapChainValid;
    QueueFamiliesValidIff(device.queueFamilies);
  }

  /**
   * Throws when there is no device at all; otherwise picks the first suitable device in
   * enumeration order, and picks none (Ok(None)) when no device is suitable.
   */
  method GetPhysicalDevice(physicalDeviceList: seq<PhysicalDevice>) returns (r: Result<Option<nat>>)
    ensures r.Err? <==> |physicalDeviceList| == 0
    ensures r.Err? ==> r.error == "No physical device! GPU with no Vulkan support!"
    ensures r.Ok? && r.value.Some? ==>
              && r.value.value < |physicalDeviceList|
              && Suitable(physicalDeviceList[r.value.value])
              && forall j :: 0 <= j < r.value.value ==> !Suitable(physicalDeviceList[j])
    ensures r == Ok(None) ==> forall j :: 0 <= j < |physicalDeviceList| ==> !Suitable(physicalDeviceList[j])
  {
    if |physicalDeviceList| == 0 {
      return Err("No physical device! GPU with no Vulkan support!");
    }
    for i := 0 to |physicalDeviceList|
      invariant forall j :: 0 <= j < i ==> !Suitable(physicalDeviceList[j])
    {
      var suitable := CheckDeviceSuitable(physicalDeviceList[i]);
      if suitable {
        return Ok(Some(i));
      }
    }
    return Ok(None);
  }

  /** One VkDeviceQueueCreateInfo: the family and the number of queues (always 1). */
  datatype QueueCreateInfo = QueueCreateInfo(queueFamilyIndex: int, queueCount: nat)

  /** The family indices of a queue-create list. */
  function Families(infos: seq<QueueCreateInfo>): set<int> {
    set i | 0 <= i < |infos| :: infos[i].queueFamilyIndex
  }

  /**
   * One queue-create entry per element of the std::set {graphics, presentation}, in the
   * set's ascending order: one entry when the families coincide, two otherwise.
   */
  function QueueCreateInfos(indices: QueueFamilyIndices): (infos: seq<QueueCreateInfo>)
    ensures Families(infos) == {indices.graphicsFamily, indices.presentationFamily}
    ensures |infos| == |{indices.graphicsFamily, indices.presentationFamily}|
    ensures |infos| == if indices.graphicsFamily == indices.presentationFamily then 1 else 2
    ensures forall i, j :: 0 <= i < j < |infos| ==> infos[i].queueFamilyIndex < infos[j].queueFamilyIndex
    ensures forall i :: 0 <= i < |infos| ==> infos[i].queueCount == 1
  {
    var g, p := indices.graphicsFamily, indices.presentationFamily;
    if g == p then
      var infos := [QueueCreateInfo(g, 1)];
      assert Families(infos) == {g} by { assert infos[0].queueFamilyIndex == g; }
      assert {g, p} == {g};
      infos
    else
      var (lo, hi) := if g < p then (g, p) else (p, g);
      var infos := [QueueCreateInfo(lo, 1), QueueCreateInfo(hi, 1)];
      assert Families(infos) == {lo, hi} by {
        assert infos[0].queueFamilyIndex == lo && infos[1].queueFamilyIndex == hi;
      }
      assert {lo, hi} == {g, p};
      assert |{g, p}| == 2;
      infos
  }

  /** What vkCreateDevice is given: the queues, the device extensions and the layers. */
  datatype DeviceCreateInfo = DeviceCreateInfo(
    queueCreateInfos: seq<QueueCreateInfo>,
    enabledExtensions: seq<string>,
    enabledLayers: seq<string>)

  /**
   * Fails when validation layers are requested but missing; otherwise one queue per distinct
   * family, the swapchain extension, and the validation layer in debug builds.
   */
  method CreateLogicalDevice(indices: QueueFamilyIndices, enableValidationLayers: bool, availableLayers: seq<string>)
    returns (r: Result<DeviceCreateInfo>)
    ensures r.Err? <==> enableValidationLayers && "VK_LAYER_KHRONOS_validation" !in availableLayers
    ensures r.Err? ==> r.error == "Validation layers requested, but not available!"
    ensures r.Ok? ==> && r.value.queueCreateInfos == QueueCreateInfos(indices)
                      && r.value.enabledExtensions == [KHR_SWAPCHAIN_EXTENSION_NAME]
                      && r.value.enabledLayers == (if enableValidationLayers then VALIDATION_LAYERS else [])
  {
    if enableValidationLayers {
      var supported := CheckValidationLayerSupport(availableLayers);
      if !supported {
        return Err("Validation layers requested, but not available!");
      }
    }
    var queueCreateInfos := QueueCreateInfos(indices);
    var layers := if enableValidationLayers then VALIDATION_LAYERS else [];
    return Ok(DeviceCreateInfo(queueCreateInfos, DEVICE_EXTENSIONS, layers));
  }
}
