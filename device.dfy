/**
 * Physical-device selection: the three-part suitability check and the first-fit walk over
 * the enumerated devices.
 */
module Selection {
  import opened Wrappers
  import opened Vk
  import opened Data

  /** Why a physical device was skipped. */
  datatype CheckError =
    | QueueFamiliesNotFound
    | ExtensionQueryFailed
    | MissingExtensions
    | SwapchainSupportQueryFailed
    | InsufficientSwapchainSupport

  /** A line of the selection log: a skipped device with its reason, or the selected one. */
  datatype Diagnostic = Skipped(name: string, reason: CheckError) | Selected(name: string)

  /** The reference notion of a usable device: all three requirements hold. */
  ghost predicate Suitable(d: PhysicalDevice, required: seq<ExtensionName>) {
    && d.queueFamilies.Some?
    && d.extensions.Some?
    && (forall i :: 0 <= i < |required| ==> required[i] in d.extensions.value)
    && d.swapchainSupport.Some?
    && |d.swapchainSupport.value.formats| > 0
    && |d.swapchainSupport.value.presentModes| > 0
  }

  /** The extension properties collected into a set of names. */
  function ExtensionSet(properties: seq<ExtensionName>): set<ExtensionName> {
    set e | e in properties
  }

  /** `required.iter().all(|e| extensions.contains(e))`, evaluated left to right. */
  function All(required: seq<ExtensionName>, extensions: set<ExtensionName>): (r: bool)
    ensures r <==> forall i :: 0 <= i < |required| ==> required[i] in extensions
  {
    if required == [] then true
    else if required[0] !in extensions then false
    else
      assert forall i :: 1 <= i < |required| ==> required[i] == required[1..][i - 1];
      All(required[1..], extensions)
  }

  /** `check_physical_device_extensions`. */
  function CheckPhysicalDeviceExtensions(d: PhysicalDevice, required: seq<ExtensionName>): (r: Outcome<CheckError>)
    ensures r.Pass? <==> d.extensions.Some? && forall i :: 0 <= i < |required| ==> required[i] in d.extensions.value
    ensures d.extensions.None? ==> r == Fail(ExtensionQueryFailed)
    ensures d.extensions.Some? && r.Fail? ==> r.error == MissingExtensions
  {
    match d.extensions
    case None => Fail(ExtensionQueryFailed)
    case Some(properties) =>
      if All(required, ExtensionSet(properties)) then Pass else Fail(MissingExtensions)
  }

  /**
   * `check_physical_device`: queue families, then extensions, then swapchain support; the
   * first requirement that fails gives the error.
   */
  function CheckPhysicalDevice(d: PhysicalDevice, required: seq<ExtensionName>): (r: Outcome<CheckError>)
    ensures r.Pass? <==> Suitable(d, required)
    ensures d.queueFamilies.None? ==> r == Fail(QueueFamiliesNotFound)
    ensures d.queueFamilies.Some? && CheckPhysicalDeviceExtensions(d, required).Fail? ==>
              r == CheckPhysicalDeviceExtensions(d, required)
    ensures d.queueFamilies.Some? && CheckPhysicalDeviceExtensions(d, required).Pass? ==>
              (d.swapchainSupport.None? ==> r == Fail(SwapchainSupportQueryFailed))
    ensures d.queueFamilies.Some? && CheckPhysicalDeviceExtensions(d, required).Pass? && d.swapchainSupport.Some? ==>
              (r.Fail? <==> r == Fail(InsufficientSwapchainSupport))
  {
    if d.queueFamilies.None? then Fail(QueueFamiliesNotFound)
    else
      var extensions := CheckPhysicalDeviceExtensions(d, required);
      if extensions.Fail? then extensions
      else match d.swapchainSupport
        case None => Fail(SwapchainSupportQueryFailed)
        case Some(support) =>
          if support.presentModes == [] || support.formats == [] then Fail(InsufficientSwapchainSupport)
          else Pass
  }

  /** The index of the first suitable device in enumeration order, if any. */
  function FirstSuitable(devices: seq<PhysicalDevice>, required: seq<ExtensionName>): (r: Option<nat>)
    ensures r.Some? ==> r.value < |devices| && Suitable(devices[r.value], required)
    ensures r.Some? ==> forall j :: 0 <= j < r.value ==> !Suitable(devices[j], required)
    ensures r.None? ==> forall j :: 0 <= j < |devices| ==> !Suitable(devices[j], required)
  {
    if devices == [] then None
    else if CheckPhysicalDevice(devices[0], required).Pass? then Some(0)
    else
      match FirstSuitable(devices[1..], required)
      case None => None
      case Some(k) => Some(k + 1)
  }

  /** The log line for one examined device. */
  function Diagnose(d: PhysicalDevice, required: seq<ExtensionName>): Diagnostic {
    match CheckPhysicalDevice(d, required)
    case Pass => Selected(d.name)
    case Fail(e) => Skipped(d.name, e)
  }

  /** The log lines for a run of examined devices, in order. */
  function Diagnoses(devices: seq<PhysicalDevice>, required: seq<ExtensionName>): (log: seq<Diagnostic>)
    ensures |log| == |devices|
    ensures forall i :: 0 <= i < |devices| ==> log[i] == Diagnose(devices[i], required)
  {
    seq(|devices|, i requires 0 <= i < |devices| => Diagnose(devices[i], required))
  }

  /**
   * `pick_physical_device`: examines the enumerated devices in order, logs and skips every
   * unsuitable one, and assigns the first suitable one to `data.physicalDevice`.
   */
  method PickPhysicalDevice(driver: Driver, data: AppData, required: seq<ExtensionName>)
    returns (r: Outcome<Error>, diagnostics: seq<Diagnostic>)
    modifies data`physicalDevice
    ensures EnumeratePhysicalDevices in driver.faults ==>
              r == Fail(CallFailed(EnumeratePhysicalDevices)) && diagnostics == []
              && data.physicalDevice == old(data.physicalDevice)
    ensures EnumeratePhysicalDevices !in driver.faults ==>
              var devices := driver.physicalDevices;
              match FirstSuitable(devices, required)
              case Some(k) =>
                && r == Pass
                && data.physicalDevice == devices[k].handle
                && diagnostics == Diagnoses(devices[..k + 1], required)
              case None =>
                && r == Fail(NoSuitableDevice)
                && data.physicalDevice == old(data.physicalDevice)
                && diagnostics == Diagnoses(devices, required)
  {
    diagnostics := [];
    if EnumeratePhysicalDevices in driver.faults {
      return Fail(CallFailed(EnumeratePhysicalDevices)), diagnostics;
    }
    var devices := driver.physicalDevices;
    var i := 0;
    while i < |devices|
      invariant 0 <= i <= |devices|
      invariant forall j :: 0 <= j < i ==> !Suitable(devices[j], required)
      invariant diagnostics == Diagnoses(devices[..i], required)
      invariant data.physicalDevice == old(data.physicalDevice)
    {
      var check := CheckPhysicalDevice(devices[i], required);
      diagnostics := diagnostics + [Diagnose(devices[i], required)];
      assert devices[..i + 1] == devices[..i] + [devices[i]];
      if check.Pass? {
        data.physicalDevice := devices[i].handle;
        return Pass, diagnostics;
      }
      i := i + 1;
    }
    assert devices[..i] == devices;
    r := Fail(NoSuitableDevice);
  }

  /** The check only asks which names a device offers: order and repetitions do not matter. */
  lemma ExtensionCheckIsSetBased(d: PhysicalDevice, e: PhysicalDevice, required: seq<ExtensionName>)
    requires d.extensions.Some? && e.extensions.Some?
    requires forall x :: x in d.extensions.value <==> x in e.extensions.value
    ensures CheckPhysicalDeviceExtensions(d, required) == CheckPhysicalDeviceExtensions(e, required)
  {
  }

  /** With no required extensions the extension check passes whenever the query succeeds. */
  lemma NoRequiredExtensionsPass(d: PhysicalDevice)
    requires d.extensions.Some?
    ensures CheckPhysicalDeviceExtensions(d, []) == Pass
  {
  }

  /**
   * First fit is stable under appending devices: once a device is selected, later ones are
   * never consulted.
   */
  lemma {:induction false} FirstSuitableIgnoresLaterDevices(
    devices: seq<PhysicalDevice>, later: seq<PhysicalDevice>, required: seq<ExtensionName>)
    requires FirstSuitable(devices, required).Some?
    ensures FirstSuitable(devices + later, required) == FirstSuitable(devices, required)
  {
    if CheckPhysicalDevice(devices[0], required).Fail? {
      assert (devices + later)[1..] == devices[1..] + later;
      FirstSuitableIgnoresLaterDevices(devices[1..], later, required);
    }
  }
}
