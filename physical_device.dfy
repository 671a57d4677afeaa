/** Choosing the physical device (src/vulkan/get_physical_device.rs): a chain
    of capability guards per device, and the first device that passes them all. */
module PhysicalDevices {
  import opened Common
  import opened Bytes
  import opened QueueFamilies
  import opened MemoryTypes

  const EnumerateExtensionsMessage := "failed to enumerate instance extension properies"
  const VersionMessage := "the device does not support API version 1.2.0"
  const FragmentStoresMessage := "the device does not support fragment stores and atomics"
  const VertexStoresMessage := "the device does not support vertex pipeline stores and atomics"
  const TimestampComputeMessage := "the device does not support timestamp compute and graphics"
  const TimestampPeriodMessage := "the device does not support timestamp queries"
  const EnumerateDevicesMessage := "failed to enumerate physical devices"
  const NoSuitableDeviceMessage := "failed to find suitable device"

  /** `format!("device extension {:?} is not supported", name)`; the Debug form
      of a C string puts it in quotes. */
  function MissingExtensionMessage(name: string): string {
    "device extension \"" + name + "\" is not supported"
  }

  /** `maxComputeWorkGroupCount` of the device limits. */
  datatype WorkGroupCount = WorkGroupCount(x: nat, y: nat, z: nat)

  /** What the driver reports about one physical device. `extensions` is None
      when enumerating its extensions fails; VkBool32 fields are kept as
      numbers; `timestampPeriod` is an `f32`, as its bit pattern. */
  datatype DeviceInfo = DeviceInfo(
    apiVersion: bv32,
    fragmentStoresAndAtomics: bv32,
    vertexPipelineStoresAndAtomics: bv32,
    timestampComputeAndGraphics: bv32,
    timestampPeriod: F32,
    maxComputeWorkGroupCount: WorkGroupCount,
    extensions: Option<seq<string>>,
    queueFamilies: seq<QueueFamilyProperties>,
    memoryTypes: seq<bv32>)

  /** What every driver guarantees: at most VK_MAX_MEMORY_TYPES memory types. */
  predicate WellFormed(d: DeviceInfo) {
    |d.memoryTypes| <= MaxMemoryTypes
  }

  // Packed version numbers, as laid out in the "Version Numbers" section of
  // the Fundamentals chapter of the Vulkan specification.

  function ApiVersionVariant(v: bv32): bv32 { v >> 29 }
  function ApiVersionMajor(v: bv32): bv32 { (v >> 22) & 0x7F }
  function ApiVersionMinor(v: bv32): bv32 { (v >> 12) & 0x3FF }
  function ApiVersionPatch(v: bv32): bv32 { v & 0xFFF }

  /** VK_MAKE_API_VERSION. */
  function MakeApiVersion(variant: bv32, major: bv32, minor: bv32, patch: bv32): (v: bv32)
    requires variant < 8 && major < 128 && minor < 1024 && patch < 4096
    ensures ApiVersionVariant(v) == variant && ApiVersionMajor(v) == major
    ensures ApiVersionMinor(v) == minor && ApiVersionPatch(v) == patch
  {
    (variant << 29) | (major << 22) | (minor << 12) | patch
  }

  /** The version guard as the source writes it: `major < 1 && minor < 2`. */
  predicate VersionRejectedAsWritten(v: bv32) {
    ApiVersionMajor(v) < 1 && ApiVersionMinor(v) < 2
  }

  /** The guard its message promises: reject every version below 1.2. */
  predicate VersionRejected(v: bv32) {
    ApiVersionMajor(v) < 1 || (ApiVersionMajor(v) == 1 && ApiVersionMinor(v) < 2)
  }

  /** As written, the guard rejects only versions 0.0.x and 0.1.x: Vulkan 1.0
      and 1.1 devices pass it. */
  lemma AsWrittenRejectsOnlyBelow0_2(v: bv32)
    ensures VersionRejectedAsWritten(v) <==> ApiVersionMajor(v) == 0 && ApiVersionMinor(v) < 2
    ensures !VersionRejectedAsWritten(MakeApiVersion(0, 1, 0, 0)) && VersionRejected(MakeApiVersion(0, 1, 0, 0))
    ensures !VersionRejectedAsWritten(MakeApiVersion(0, 1, 1, 0)) && VersionRejected(MakeApiVersion(0, 1, 1, 0))
  {
  }

  /** The intended guard is the numeric comparison of packed versions (of the
      ordinary variant 0) against VK_API_VERSION_1_2. */
  lemma VersionRejectedIsBelow1_2(v: bv32)
    requires ApiVersionVariant(v) == 0
    ensures VersionRejected(v) <==> v < MakeApiVersion(0, 1, 2, 0)
  {
  }

  /** `timestamp_period == 0.0f32`: true of both +0.0 and -0.0. */
  predicate IsZeroF32(x: F32) {
    x & 0x7FFF_FFFF == 0
  }

  /** The index of the first required extension that `supported` lacks, looking from `from` on. */
  function FirstMissing(required: seq<string>, supported: set<string>, from: nat): (r: Option<nat>)
    requires from <= |required|
    ensures r.None? <==> forall j :: from <= j < |required| ==> required[j] in supported
    ensures r.Some? ==> from <= r.value < |required| && required[r.value] !in supported
    ensures r.Some? ==> forall j :: from <= j < r.value ==> required[j] in supported
    decreases |required| - from
  {
    if from == |required| then None
    else if required[from] !in supported then Some(from)
    else FirstMissing(required, supported, from + 1)
  }

  /** The outcome of check_required_device_extensions. */
  function ExtensionsCheck(extensions: Option<seq<string>>, required: seq<string>): Result<()> {
    match extensions
    case None => Err(EnumerateExtensionsMessage)
    case Some(exts) =>
      match FirstMissing(required, set e | e in exts, 0)
      case None => Ok(())
      case Some(k) => Err(MissingExtensionMessage(required[k]))
  }

  /** Once enumeration succeeds the check passes exactly when every required
      name is supported (so always for an empty list), and otherwise names the
      first missing one in list order. */
  lemma ExtensionsCheckMeaning(exts: seq<string>, required: seq<string>)
    ensures ExtensionsCheck(Some(exts), required).Ok? <==> forall j :: 0 <= j < |required| ==> required[j] in exts
    ensures ExtensionsCheck(Some(exts), required).Err? ==>
      exists k :: 0 <= k < |required| && required[k] !in exts && (forall j :: 0 <= j < k ==> required[j] in exts)
        && ExtensionsCheck(Some(exts), required) == Err(MissingExtensionMessage(required[k]))
  {
    var r := FirstMissing(required, set e | e in exts, 0);
    if r.Some? {
      var k := r.value;
      assert required[k] !in exts;
    }
  }

  /** check_required_device_extensions: collect the supported names into a set,
      then look each required name up in it. */
  method CheckRequiredDeviceExtensions(extensions: Option<seq<string>>, required: seq<string>) returns (r: Result<()>)
    ensures r == ExtensionsCheck(extensions, required)
  {
    if extensions.None? {
      return Err(EnumerateExtensionsMessage);
    }
    var exts := extensions.value;
    var supportedSet: set<string> := {};
    for i := 0 to |exts|
      invariant supportedSet == set e | e in exts[..i]
    {
      supportedSet := supportedSet + {exts[i]};
      assert exts[..i + 1] == exts[..i] + [exts[i]];
    }
    assert exts[..|exts|] == exts;
    for k := 0 to |required|
      invariant FirstMissing(required, supportedSet, 0) == FirstMissing(required, supportedSet, k)
    {
      if required[k] !in supportedSet {
        return Err(MissingExtensionMessage(required[k]));
      }
    }
    return Ok(());
  }

  /** check_device_suitability: the guards in their fixed order (version,
      fragment stores, vertex stores, timestamp support, timestamp period,
      extensions); the first that fails gives the message. The version guard
      is the one the source writes, so Vulkan 1.0 and 1.1 devices pass it
      (see OldDeviceAccepted). */
  function CheckDeviceSuitability(d: DeviceInfo, required: seq<string>): (r: Result<()>)
    ensures r.Ok? || r.Err?
    ensures r.Ok? ==> !VersionRejectedAsWritten(d.apiVersion)
    ensures r.Ok? ==> d.fragmentStoresAndAtomics != 0 && d.vertexPipelineStoresAndAtomics != 0
    ensures r.Ok? ==> d.timestampComputeAndGraphics != 0 && !IsZeroF32(d.timestampPeriod)
    ensures r.Ok? ==> d.extensions.Some? && forall e :: e in required ==> e in d.extensions.value
  {
    if VersionRejectedAsWritten(d.apiVersion) then Err(VersionMessage)
    else if d.fragmentStoresAndAtomics == 0 then Err(FragmentStoresMessage)
    else if d.vertexPipelineStoresAndAtomics == 0 then Err(VertexStoresMessage)
    else if d.timestampComputeAndGraphics == 0 then Err(TimestampComputeMessage)
    else if IsZeroF32(d.timestampPeriod) then Err(TimestampPeriodMessage)
    else ExtensionsCheck(d.extensions, required)
  }

  /** The chain with the version guard its message promises: everything
      below 1.2.0 fails with the version message, and every other device is
      judged by the chain as written. */
  function CheckDeviceSuitabilityCorrected(d: DeviceInfo, required: seq<string>): (r: Result<()>)
    ensures r.Ok? || r.Err?
    ensures VersionRejected(d.apiVersion) ==> r == Err(VersionMessage)
    ensures r.Ok? ==> !VersionRejected(d.apiVersion) && CheckDeviceSuitability(d, required).Ok?
    ensures r.Ok? ==> d.fragmentStoresAndAtomics != 0 && d.vertexPipelineStoresAndAtomics != 0
    ensures r.Ok? ==> d.timestampComputeAndGraphics != 0 && !IsZeroF32(d.timestampPeriod)
    ensures r.Ok? ==> d.extensions.Some? && forall e :: e in required ==> e in d.extensions.value
  {
    if VersionRejected(d.apiVersion) then Err(VersionMessage)
    else CheckDeviceSuitability(d, required)
  }

  /** A Vulkan 1.0 or 1.1 device that has every feature and extension passes
      the chain as written, so get_physical_device may pick it; the corrected
      chain turns it away with the version message. */
  lemma OldDeviceAccepted(d: DeviceInfo, required: seq<string>)
    requires ApiVersionMajor(d.apiVersion) == 1 && ApiVersionMinor(d.apiVersion) < 2
    requires d.fragmentStoresAndAtomics != 0 && d.vertexPipelineStoresAndAtomics != 0
    requires d.timestampComputeAndGraphics != 0 && !IsZeroF32(d.timestampPeriod)
    requires d.extensions.Some? && forall e :: e in required ==> e in d.extensions.value
    ensures CheckDeviceSuitability(d, required) == Ok(())
    ensures CheckDeviceSuitabilityCorrected(d, required) == Err(VersionMessage)
  {
    ExtensionsCheckMeaning(d.extensions.value, required);
  }

  /** A guard: whether it passes, and the message it fails with. */
  datatype Guard = Guard(passes: bool, message: string)

  /** The guards of check_device_suitability that precede the extension check, in order. */
  function FeatureGuards(d: DeviceInfo): seq<Guard> {
    [ Guard(!VersionRejectedAsWritten(d.apiVersion), VersionMessage),
      Guard(d.fragmentStoresAndAtomics != 0, FragmentStoresMessage),
      Guard(d.vertexPipelineStoresAndAtomics != 0, VertexStoresMessage),
      Guard(d.timestampComputeAndGraphics != 0, TimestampComputeMessage),
      Guard(!IsZeroF32(d.timestampPeriod), TimestampPeriodMessage) ]
  }

  /** The message of the first failing guard of a list. */
  function FirstFailure(guards: seq<Guard>): Option<string> {
    if guards == [] then None
    else if !guards[0].passes then Some(guards[0].message)
    else FirstFailure(guards[1..])
  }

  /** The chain reports the first failing guard of the ordered list, and runs
      the extension check only when all of them pass. */
  lemma SuitabilityIsFirstFailingGuard(d: DeviceInfo, required: seq<string>)
    ensures CheckDeviceSuitability(d, required) ==
      match FirstFailure(FeatureGuards(d))
      case Some(m) => Err(m)
      case None => ExtensionsCheck(d.extensions, required)
  {
    var g := FeatureGuards(d);
    var g1, g2, g3, g4 := g[1..], g[2..], g[3..], g[4..];
    assert g1[1..] == g2 && g2[1..] == g3 && g3[1..] == g4 && g4[1..] == [];
    assert FirstFailure(g) == if !g[0].passes then Some(g[0].message) else FirstFailure(g1);
    assert FirstFailure(g1) == if !g[1].passes then Some(g[1].message) else FirstFailure(g2);
    assert FirstFailure(g2) == if !g[2].passes then Some(g[2].message) else FirstFailure(g3);
    assert FirstFailure(g3) == if !g[3].passes then Some(g[3].message) else FirstFailure(g4);
    assert FirstFailure(g4) == if !g[4].passes then Some(g[4].message) else None;
  }

  /** get_physical_device: the first device, in enumeration order, that passes
      every guard. Rejected devices are skipped; nothing is ranked. */
  method GetPhysicalDevice(devices: Option<seq<DeviceInfo>>, required: seq<string>) returns (r: Result<nat>)
    ensures devices.None? ==> r == Err(EnumerateDevicesMessage)
    ensures devices.Some? ==> r.Ok? || r == Err(NoSuitableDeviceMessage)
    ensures devices.Some? && r.Ok? ==>
      && r.value < |devices.value|
      && CheckDeviceSuitability(devices.value[r.value], required).Ok?
      && forall j :: 0 <= j < r.value ==> !CheckDeviceSuitability(devices.value[j], required).Ok?
    ensures devices.Some? ==>
      (r.Err? <==> forall j :: 0 <= j < |devices.value| ==> !CheckDeviceSuitability(devices.value[j], required).Ok?)
  {
    if devices.None? {
      return Err(EnumerateDevicesMessage);
    }
    var ds := devices.value;
    for i := 0 to |ds|
      invariant forall j :: 0 <= j < i ==> !CheckDeviceSuitability(ds[j], required).Ok?
    {
      var check := CheckDeviceSuitability(ds[i], required);
      if check.Err? {
        continue;
      }
      return Ok(i);
    }
    return Err(NoSuitableDeviceMessage);
  }
}
