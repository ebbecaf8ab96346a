// Decision rules inside the Vulkan device hooks: graphics-queue selection and
// extension negotiation in vkCreateDevice, the device and command-buffer
// registries, swapchain create-info patching, the barrier range used around
// image clears, cleared-attachment recording in vkCreateRenderPass and the
// render-pass state each command buffer tracks.
//
// Driver entry points are oracles: their results are parameters. The
// format helpers make_format_srgb / make_format_normal are not part of this
// model; their results are parameters too.

module VulkanHooks {
  import opened Api

  // ---------------------------------------------------------------------------
  // Vulkan constants (values from the Vulkan 1.2 specification headers)
  // ---------------------------------------------------------------------------

  const VkSuccess: int := 0
  const VkErrorInitializationFailed: int := -3

  const QueueGraphics: FlagWord := {0}               // VK_QUEUE_GRAPHICS_BIT 0x1
  const ImageUsageTransferSrc: FlagWord := {0}       // VK_IMAGE_USAGE_TRANSFER_SRC_BIT 0x1
  const SwapchainMutableFormat: FlagWord := {2}      // VK_SWAPCHAIN_CREATE_MUTABLE_FORMAT_BIT_KHR 0x4
  const SharingConcurrent: u32 := 1                  // VK_SHARING_MODE_CONCURRENT
  const AspectDepth: FlagWord := {1}                 // VK_IMAGE_ASPECT_DEPTH_BIT 0x2
  const AspectStencil: FlagWord := {2}               // VK_IMAGE_ASPECT_STENCIL_BIT 0x4
  const AttachmentUnused: u32 := 0xFFFF_FFFF         // VK_ATTACHMENT_UNUSED
  const LayoutUndefined: u32 := 0                    // VK_IMAGE_LAYOUT_UNDEFINED
  const LoadOpClear: u32 := 1                        // VK_ATTACHMENT_LOAD_OP_CLEAR
  const RemainingCount: u32 := 0xFFFF_FFFF           // VK_REMAINING_MIP_LEVELS / VK_REMAINING_ARRAY_LAYERS
  const NullHandle64: u64 := 0                       // VK_NULL_HANDLE

  type ExtensionName = string

  const SwapchainExtension: ExtensionName := "VK_KHR_swapchain"
  const PushDescriptorExtension: ExtensionName := "VK_KHR_push_descriptor"
  const ImageFormatListExtension: ExtensionName := "VK_KHR_image_format_list"
  const MutableFormatExtension: ExtensionName := "VK_KHR_swapchain_mutable_format"
  const DebugMarkerExtension: ExtensionName := "VK_EXT_debug_marker"

  // ---------------------------------------------------------------------------
  // Graphics queue family
  // ---------------------------------------------------------------------------

  datatype QueueCreateInfo = QueueCreateInfo(familyIndex: u32, queueCount: u32)

  /** A queue create-info that asks for at least one queue of a graphics-capable family. */
  predicate UsableForGraphics(info: QueueCreateInfo, families: seq<FlagWord>)
    requires info.familyIndex < |families|
  {
    info.queueCount > 0 && Overlaps(families[info.familyIndex], QueueGraphics)
  }

  /**
   * The family of the first queue create-info usable for graphics, or
   * UINT32_MAX when there is none. `families` are the queue flags the
   * driver reports for each family.
   */
  function FirstGraphicsFamily(infos: seq<QueueCreateInfo>, families: seq<FlagWord>): (index: u32)
    requires |families| <= U32_MAX
    requires forall i :: 0 <= i < |infos| ==> infos[i].familyIndex < |families|
    ensures index == U32_MAX <==> forall i :: 0 <= i < |infos| ==> !UsableForGraphics(infos[i], families)
    ensures index != U32_MAX ==>
              exists f :: 0 <= f < |infos| && UsableForGraphics(infos[f], families) && index == infos[f].familyIndex
                          && forall i :: 0 <= i < f ==> !UsableForGraphics(infos[i], families)
  {
    if infos == [] then U32_MAX
    else if UsableForGraphics(infos[0], families) then infos[0].familyIndex
    else
      var rest := FirstGraphicsFamily(infos[1..], families);
      assert forall i :: 1 <= i < |infos| ==> infos[i] == infos[1..][i - 1];
      if rest != U32_MAX then
        var f :| 0 <= f < |infos[1..]| && UsableForGraphics(infos[1..][f], families) && rest == infos[1..][f].familyIndex
                 && forall i :: 0 <= i < f ==> !UsableForGraphics(infos[1..][i], families);
        assert UsableForGraphics(infos[f + 1], families) && rest == infos[f + 1].familyIndex;
        rest
      else
        rest
  }

  /** The queue create-info loop of vkCreateDevice. */
  method SelectGraphicsQueueFamily(infos: seq<QueueCreateInfo>, families: seq<FlagWord>) returns (index: u32)
    requires |families| <= U32_MAX
    requires forall i :: 0 <= i < |infos| ==> infos[i].familyIndex < |families|
    ensures index == FirstGraphicsFamily(infos, families)
    ensures index == U32_MAX <==> forall i :: 0 <= i < |infos| ==> !UsableForGraphics(infos[i], families)
    ensures index != U32_MAX ==>
              exists f :: 0 <= f < |infos| && UsableForGraphics(infos[f], families) && index == infos[f].familyIndex
                          && forall i :: 0 <= i < f ==> !UsableForGraphics(infos[i], families)
  {
    index := U32_MAX;
    var i := 0;
    while i < |infos|
      invariant 0 <= i <= |infos|
      invariant forall j :: 0 <= j < i ==> !UsableForGraphics(infos[j], families)
      invariant FirstGraphicsFamily(infos, families) == FirstGraphicsFamily(infos[i..], families)
    {
      assert infos[i..][1..] == infos[i + 1..];
      if infos[i].queueCount > 0 && Overlaps(families[infos[i].familyIndex], QueueGraphics) {
        index := infos[i].familyIndex;
        return;
      }
      i := i + 1;
    }
  }

  // ---------------------------------------------------------------------------
  // Extension and feature negotiation
  // ---------------------------------------------------------------------------

  /** The two device features the runtime needs; `others` are the indices of every other enabled feature. */
  datatype Features = Features(shaderImageGatherExtended: bool, shaderStorageImageWriteWithoutFormat: bool, others: set<nat>)

  const NoFeatures: Features := Features(false, false, {})

  /**
   * The features the application enabled: a VkPhysicalDeviceFeatures2 in the
   * pNext chain takes precedence over pEnabledFeatures; neither gives none.
   */
  function ApplicationFeatures(chained: Option<Features>, plain: Option<Features>): (f: Features)
    ensures chained.Some? ==> f == chained.value
    ensures chained.None? && plain.Some? ==> f == plain.value
    ensures chained.None? && plain.None? ==> f == NoFeatures
  {
    if chained.Some? then chained.value else if plain.Some? then plain.value else NoFeatures
  }

  /** The extensions the runtime asks for, in order, each with whether it is required. */
  function RequestedExtensions(debugBuild: bool): (r: seq<(ExtensionName, bool)>)
    ensures forall i :: 0 <= i < |r| ==> (r[i].1 <==> r[i].0 == ImageFormatListExtension || r[i].0 == MutableFormatExtension)
  {
    [(PushDescriptorExtension, false), (ImageFormatListExtension, true), (MutableFormatExtension, true)]
    + (if debugBuild then [(DebugMarkerExtension, false)] else [])
  }

  /** The names in a request list. */
  function Names(requested: seq<(ExtensionName, bool)>): (r: seq<ExtensionName>)
    ensures |r| == |requested| && forall i :: 0 <= i < |r| ==> r[i] == requested[i].0
  {
    if requested == [] then [] else [requested[0].0] + Names(requested[1..])
  }

  /** The requested extensions the driver lists, in request order. */
  function Supported(requested: seq<(ExtensionName, bool)>, available: seq<ExtensionName>): (r: seq<ExtensionName>)
    ensures |r| <= |requested|
    ensures forall e :: e in r <==> e in available && e in Names(requested)
  {
    if requested == [] then []
    else if requested[0].0 in available then [requested[0].0] + Supported(requested[1..], available)
    else Supported(requested[1..], available)
  }

  /** Whether a required extension of the request list is missing from the driver's list. */
  predicate RequiredMissing(requested: seq<(ExtensionName, bool)>, available: seq<ExtensionName>)
  {
    exists i :: 0 <= i < |requested| && requested[i].1 && requested[i].0 !in available
  }

  /**
   * add_extension: appends `name` when the driver lists it; otherwise a
   * required extension resets the graphics family to UINT32_MAX and an
   * optional one changes nothing.
   */
  method AddExtension(name: ExtensionName, required: bool, available: seq<ExtensionName>,
                      enabled: seq<ExtensionName>, graphics: u32)
    returns (added: bool, enabled': seq<ExtensionName>, graphics': u32)
    ensures added <==> name in available
    ensures enabled' == if added then enabled + [name] else enabled
    ensures graphics' == if !added && required then U32_MAX else graphics
  {
    var j := 0;
    while j < |available|
      invariant 0 <= j <= |available|
      invariant name !in available[..j]
    {
      if available[j] == name {
        return true, enabled + [name], graphics;
      }
      j := j + 1;
    }
    assert available[..j] == available;
    added, enabled' := false, enabled;
    graphics' := if required then U32_MAX else graphics;
  }

  /** What vkCreateDevice passes down the chain and keeps for the runtime. */
  datatype Negotiation = Negotiation(extensions: seq<ExtensionName>, graphicsFamily: u32, features: Features)

  /**
   * The negotiated create-info: the application's extensions first; a device
   * without VK_KHR_swapchain or without a graphics queue keeps the
   * application's features and gets graphics family UINT32_MAX; otherwise the
   * two required features are switched on, the runtime's extensions are
   * appended where the driver lists them, and the family is kept unless a
   * required extension is missing. A device the runtime will use thus has
   * VK_KHR_swapchain, both required extensions and both required features.
   */
  function Negotiated(appExtensions: seq<ExtensionName>, graphics: u32, available: seq<ExtensionName>,
                      features: Features, debugBuild: bool): (n: Negotiation)
    ensures |appExtensions| <= |n.extensions| && n.extensions[..|appExtensions|] == appExtensions
    ensures n.graphicsFamily != U32_MAX ==>
              && n.graphicsFamily == graphics
              && SwapchainExtension in n.extensions
              && ImageFormatListExtension in n.extensions && MutableFormatExtension in n.extensions
              && n.features.shaderImageGatherExtended && n.features.shaderStorageImageWriteWithoutFormat
    ensures n.graphicsFamily == U32_MAX <==>
              SwapchainExtension !in appExtensions || graphics == U32_MAX
              || RequiredMissing(RequestedExtensions(debugBuild), available)
  {
    if SwapchainExtension !in appExtensions || graphics == U32_MAX then
      Negotiation(appExtensions, U32_MAX, features)
    else
      var requested := RequestedExtensions(debugBuild);
      var extensions := appExtensions + Supported(requested, available);
      assert extensions[..|appExtensions|] == appExtensions;
      RequiredListed(debugBuild, available);
      Negotiation(extensions, if RequiredMissing(requested, available) then U32_MAX else graphics,
                  features.(shaderImageGatherExtended := true, shaderStorageImageWriteWithoutFormat := true))
  }

  /** When no required extension is missing, both required extensions are among those enabled. */
  lemma RequiredListed(debugBuild: bool, available: seq<ExtensionName>)
    ensures !RequiredMissing(RequestedExtensions(debugBuild), available) ==>
              var supported := Supported(RequestedExtensions(debugBuild), available);
              ImageFormatListExtension in supported && MutableFormatExtension in supported
  {
    var requested := RequestedExtensions(debugBuild);
    if !RequiredMissing(requested, available) {
      assert requested[1].0 == ImageFormatListExtension && requested[1].1;
      assert requested[2].0 == MutableFormatExtension && requested[2].1;
      assert Names(requested)[1] == ImageFormatListExtension && Names(requested)[2] == MutableFormatExtension;
    }
  }

  /**
   * The negotiation step of vkCreateDevice: the application's extensions
   * are kept first and in order; a device without VK_KHR_swapchain is
   * skipped (graphics family UINT32_MAX); a device without a graphics queue
   * is left as it is; otherwise the two required features are switched on
   * and the runtime's extensions are added where the driver lists them.
   */
  method Negotiate(appExtensions: seq<ExtensionName>, graphics: u32, available: seq<ExtensionName>,
                   features: Features, debugBuild: bool)
    returns (n: Negotiation)
    ensures n == Negotiated(appExtensions, graphics, available, features, debugBuild)
    ensures |appExtensions| <= |n.extensions| && n.extensions[..|appExtensions|] == appExtensions
    ensures SwapchainExtension !in appExtensions ==> n == Negotiation(appExtensions, U32_MAX, features)
    ensures SwapchainExtension in appExtensions && graphics == U32_MAX ==> n == Negotiation(appExtensions, U32_MAX, features)
    ensures SwapchainExtension in appExtensions && graphics != U32_MAX ==>
              n.extensions == appExtensions + Supported(RequestedExtensions(debugBuild), available)
              && n.features == features.(shaderImageGatherExtended := true, shaderStorageImageWriteWithoutFormat := true)
              && n.graphicsFamily == if RequiredMissing(RequestedExtensions(debugBuild), available) then U32_MAX else graphics
  {
    var extensions := [];
    var i := 0;
    while i < |appExtensions|
      invariant 0 <= i <= |appExtensions| && extensions == appExtensions[..i]
    {
      extensions := extensions + [appExtensions[i]];
      i := i + 1;
    }
    assert extensions == appExtensions;
    if SwapchainExtension !in extensions {
      return Negotiation(extensions, U32_MAX, features);
    }
    if graphics == U32_MAX {
      return Negotiation(extensions, graphics, features);
    }
    var enabledFeatures := features.(shaderImageGatherExtended := true, shaderStorageImageWriteWithoutFormat := true);
    var family;
    extensions, family := AddExtensions(RequestedExtensions(debugBuild), available, extensions, graphics);
    n := Negotiation(extensions, family, enabledFeatures);
  }

  /** The add_extension calls in request order. */
  method AddExtensions(requested: seq<(ExtensionName, bool)>, available: seq<ExtensionName>,
                       enabled: seq<ExtensionName>, graphics: u32)
    returns (enabled': seq<ExtensionName>, graphics': u32)
    ensures enabled' == enabled + Supported(requested, available)
    ensures graphics' == if RequiredMissing(requested, available) then U32_MAX else graphics
  {
    enabled', graphics' := enabled, graphics;
    var k := 0;
    while k < |requested|
      invariant 0 <= k <= |requested|
      invariant enabled' == enabled + Supported(requested[..k], available)
      invariant graphics' == if RequiredMissing(requested[..k], available) then U32_MAX else graphics
    {
      var added;
      added, enabled', graphics' := AddExtension(requested[k].0, requested[k].1, available, enabled', graphics');
      SupportedStep(requested, available, k);
      RequiredMissingStep(requested, available, k);
      k := k + 1;
    }
    assert requested[..k] == requested;
  }

  /** Supported over a prefix grows by the next request exactly when the driver lists it. */
  lemma {:induction false} SupportedStep(requested: seq<(ExtensionName, bool)>, available: seq<ExtensionName>, k: nat)
    requires k < |requested|
    ensures Supported(requested[..k + 1], available)
            == Supported(requested[..k], available) + (if requested[k].0 in available then [requested[k].0] else [])
    decreases k
  {
    if k == 0 {
      assert requested[..1][1..] == [];
    } else {
      var tail := requested[1..];
      assert requested[..k + 1][1..] == tail[..k];
      assert requested[..k][1..] == tail[..k - 1];
      assert tail[k - 1] == requested[k];
      SupportedStep(tail, available, k - 1);
    }
  }

  /** A required extension is missing from a longer prefix iff from the shorter one or the new request. */
  lemma RequiredMissingStep(requested: seq<(ExtensionName, bool)>, available: seq<ExtensionName>, k: nat)
    requires k < |requested|
    ensures RequiredMissing(requested[..k + 1], available)
            <==> RequiredMissing(requested[..k], available) || (requested[k].1 && requested[k].0 !in available)
  {
    if requested[k].1 && requested[k].0 !in available {
      assert requested[..k + 1][k] == requested[k];
    }
    if RequiredMissing(requested[..k], available) {
      var i :| 0 <= i < k && requested[..k][i].1 && requested[..k][i].0 !in available;
      assert requested[..k + 1][i] == requested[..k][i];
    }
  }

  /**
   * On the negotiation branch the graphics family is reset exactly when the
   * driver lacks one of the two required extensions; the optional ones
   * (push descriptors, debug markers) never decide it.
   */
  lemma RequiredExtensionsDecide(available: seq<ExtensionName>, debugBuild: bool)
    ensures RequiredMissing(RequestedExtensions(debugBuild), available)
            <==> ImageFormatListExtension !in available || MutableFormatExtension !in available
  {
    var r := RequestedExtensions(debugBuild);
    if ImageFormatListExtension !in available {
      assert r[1].1 && r[1].0 !in available;
    } else if MutableFormatExtension !in available {
      assert r[2].1 && r[2].0 !in available;
    }
  }

  // ---------------------------------------------------------------------------
  // Registries
  // ---------------------------------------------------------------------------

  /** A wrapper table keyed by a native handle; `Emplace` never overwrites an entry. */
  class Table<K(==), V> {
    var entries: map<K, V>

    constructor ()
      ensures entries == map[]
    {
      entries := map[];
    }

    /** Adds the entry when the key is free; reports whether it did. */
    method Emplace(key: K, value: V) returns (inserted: bool)
      modifies this
      ensures inserted <==> key !in old(entries)
      ensures entries == if inserted then old(entries)[key := value] else old(entries)
    {
      inserted := key !in entries;
      if inserted {
        entries := entries[key := value];
      }
    }

    /** Removes the entry for the key and returns what it held. */
    method Erase(key: K) returns (value: Option<V>)
      modifies this
      ensures value == if key in old(entries) then Some(old(entries)[key]) else None
      ensures entries == old(entries) - {key}
    {
      value := if key in entries then Some(entries[key]) else None;
      entries := entries - {key};
    }
  }

  /** What the device table keeps per device: the graphics family the runtime will use. */
  datatype DeviceRecord = DeviceRecord(graphicsFamily: u32)

  /** What vkCreateDevice did: its result and the create-info it passed down, if it called down. */
  datatype CreateDeviceOutcome = CreateDeviceOutcome(result: int, passedDown: Option<Negotiation>)

  /**
   * vkCreateDevice. Without a next-layer entry point it fails with
   * VK_ERROR_INITIALIZATION_FAILED before anything else; a failing
   * next-layer result is returned unchanged and nothing is registered; on
   * success the device is registered under its dispatch key with the
   * negotiated graphics family. `nextResult` is the next layer's answer.
   */
  method CreateDevice(devices: Table<u64, DeviceRecord>, haveNext: bool,
                      infos: seq<QueueCreateInfo>, families: seq<FlagWord>,
                      appExtensions: seq<ExtensionName>, available: seq<ExtensionName>,
                      chained: Option<Features>, plain: Option<Features>, debugBuild: bool,
                      nextResult: int, deviceKey: u64)
    returns (outcome: CreateDeviceOutcome)
    requires |families| <= U32_MAX
    requires forall i :: 0 <= i < |infos| ==> infos[i].familyIndex < |families|
    modifies devices
    ensures !haveNext ==> outcome == CreateDeviceOutcome(VkErrorInitializationFailed, None) && devices.entries == old(devices.entries)
    ensures haveNext ==> outcome.passedDown.Some? && outcome.result == nextResult
    ensures haveNext ==> outcome.passedDown.value == Negotiated(appExtensions, FirstGraphicsFamily(infos, families), available,
                                                                ApplicationFeatures(chained, plain), debugBuild)
    ensures haveNext && nextResult != VkSuccess ==> devices.entries == old(devices.entries)
    ensures haveNext && nextResult == VkSuccess ==>
              devices.entries == if deviceKey in old(devices.entries) then old(devices.entries)
                                 else old(devices.entries)[deviceKey := DeviceRecord(outcome.passedDown.value.graphicsFamily)]
  {
    if !haveNext {
      return CreateDeviceOutcome(VkErrorInitializationFailed, None);
    }
    var graphics := SelectGraphicsQueueFamily(infos, families);
    var n := Negotiate(appExtensions, graphics, available, ApplicationFeatures(chained, plain), debugBuild);
    if nextResult != VkSuccess {
      return CreateDeviceOutcome(nextResult, Some(n));
    }
    var _ := devices.Emplace(deviceKey, DeviceRecord(n.graphicsFamily));
    return CreateDeviceOutcome(VkSuccess, Some(n));
  }

  // ---------------------------------------------------------------------------
  // Swapchain create-info patching
  // ---------------------------------------------------------------------------

  /** The fields of VkSwapchainCreateInfoKHR the hook reads or patches. */
  datatype SwapchainCreateInfo = SwapchainCreateInfo(
    flags: FlagWord,
    imageFormat: u32,
    imageUsage: FlagWord,
    viewFormats: Option<seq<u32>>,     // a VkImageFormatListCreateInfoKHR in the pNext chain
    sharingMode: u32,
    queueFamilyIndices: seq<u32>)

  predicate StrictlyIncreasing(s: seq<u32>)
  {
    forall i, j :: 0 <= i < j < |s| ==> s[i] < s[j]
  }

  /** `x` inserted into a strictly increasing list, unless it is already there. */
  function InsertUnique(s: seq<u32>, x: u32): (r: seq<u32>)
    requires StrictlyIncreasing(s)
    ensures StrictlyIncreasing(r)
    ensures forall y :: y in r <==> y in s || y == x
  {
    if s == [] then [x]
    else if x < s[0] then [x] + s
    else if x == s[0] then s
    else
      var rest := InsertUnique(s[1..], x);
      HeadIsLeast(s);
      ConsIncreasing(s[0], rest);
      [s[0]] + rest
  }

  /** The head of a strictly increasing list is below every later element. */
  lemma HeadIsLeast(s: seq<u32>)
    requires StrictlyIncreasing(s) && s != []
    ensures forall y :: y in s[1..] ==> s[0] < y
    ensures forall y :: y in s ==> s[0] <= y
  {
  }

  /** A value below every element of a strictly increasing list can be put in front of it. */
  lemma ConsIncreasing(h: u32, rest: seq<u32>)
    requires StrictlyIncreasing(rest) && forall y :: y in rest ==> h < y
    ensures StrictlyIncreasing([h] + rest)
  {
    var r := [h] + rest;
    forall i, j | 0 <= i < j < |r|
      ensures r[i] < r[j]
    {
      assert r[j] == rest[j - 1] && rest[j - 1] in rest;
      if i > 0 {
        assert r[i] == rest[i - 1];
      }
    }
  }

  /**
   * std::sort followed by std::unique and erase: the distinct values of
   * `formats`, in increasing order.
   */
  method SortUnique(formats: seq<u32>) returns (r: seq<u32>)
    ensures StrictlyIncreasing(r)
    ensures forall y :: y in r <==> y in formats
  {
    r := [];
    var i := 0;
    while i < |formats|
      invariant 0 <= i <= |formats|
      invariant StrictlyIncreasing(r)
      invariant forall y :: y in r <==> y in formats[..i]
    {
      r := InsertUnique(r, formats[i]);
      assert formats[..i + 1] == formats[..i] + [formats[i]];
      i := i + 1;
    }
    assert formats[..i] == formats;
  }

  /** A strictly increasing list is the only one of its values in that order. */
  lemma {:induction false} StrictlyIncreasingUnique(a: seq<u32>, b: seq<u32>)
    requires StrictlyIncreasing(a) && StrictlyIncreasing(b)
    requires forall y :: y in a <==> y in b
    ensures a == b
    decreases |a|
  {
    SameValuesBothEmpty(a, b);
    if a != [] {
      HeadIsLeast(a);
      HeadIsLeast(b);
      assert a[0] in b && b[0] in a;
      assert a[0] == b[0];
      forall y
        ensures y in a[1..] <==> y in b[1..]
      {
        if y in a[1..] {
          assert y in b && y != b[0];
        }
        if y in b[1..] {
          assert y in a && y != a[0];
        }
      }
      StrictlyIncreasingUnique(a[1..], b[1..]);
      assert a == [a[0]] + a[1..] && b == [b[0]] + b[1..];
    }
  }

  /** Lists with the same values are both empty or both not. */
  lemma SameValuesBothEmpty(a: seq<u32>, b: seq<u32>)
    requires forall y :: y in a <==> y in b
    ensures a == [] <==> b == []
  {
    if a != [] {
      assert a[0] in b;
    }
    if b != [] {
      assert b[0] in a;
    }
  }

  /** The application's queue families without the graphics family, in order. */
  function OtherFamilies(indices: seq<u32>, graphics: u32): (r: seq<u32>)
    ensures |r| <= |indices|
    ensures graphics !in r
    ensures forall q :: q in r <==> q in indices && q != graphics
  {
    if indices == [] then []
    else if indices[0] == graphics then OtherFamilies(indices[1..], graphics)
    else [indices[0]] + OtherFamilies(indices[1..], graphics)
  }

  /** The concurrent-sharing queue-family list: the graphics family first, then the others in order. */
  method ConcurrentFamilies(indices: seq<u32>, graphics: u32) returns (r: seq<u32>)
    ensures r == [graphics] + OtherFamilies(indices, graphics)
  {
    r := [graphics];
    var i := 0;
    while i < |indices|
      invariant 0 <= i <= |indices|
      invariant r == [graphics] + OtherFamilies(indices[..i], graphics)
    {
      OtherFamiliesStep(indices, graphics, i);
      if indices[i] != graphics {
        r := r + [indices[i]];
      }
      i := i + 1;
    }
    assert indices[..i] == indices;
  }

  lemma {:induction false} OtherFamiliesStep(indices: seq<u32>, graphics: u32, i: nat)
    requires i < |indices|
    ensures OtherFamilies(indices[..i + 1], graphics)
            == OtherFamilies(indices[..i], graphics) + (if indices[i] != graphics then [indices[i]] else [])
    decreases i
  {
    if i == 0 {
      assert indices[..1][1..] == [];
    } else {
      var tail := indices[1..];
      assert indices[..i + 1][1..] == tail[..i];
      assert indices[..i][1..] == tail[..i - 1];
      OtherFamiliesStep(tail, graphics, i - 1);
    }
  }

  /**
   * The create-info patching of vkCreateSwapchainKHR. `srgb` and `normal`
   * are make_format_srgb / make_format_normal of the image format. With no
   * graphics family the create-info is passed on unchanged. Otherwise
   * TRANSFER_SRC is added to the image usage, MUTABLE_FORMAT is set exactly
   * when the two formats differ, an application format list is merged with
   * them, sorted and freed of duplicates, a format list is chained when
   * there was none and the formats differ, and a concurrent swapchain gets
   * the graphics family first in its queue-family list.
   */
  method PatchSwapchain(info: SwapchainCreateInfo, graphics: u32, srgb: u32, normal: u32) returns (patched: SwapchainCreateInfo)
    ensures graphics == U32_MAX ==> patched == info
    ensures graphics != U32_MAX ==>
              patched.imageFormat == info.imageFormat && patched.sharingMode == info.sharingMode
              && patched.imageUsage == info.imageUsage + ImageUsageTransferSrc
              && patched.flags == info.flags + When(srgb != normal, SwapchainMutableFormat)
    ensures graphics != U32_MAX && info.viewFormats.Some? ==>
              patched.viewFormats.Some? && StrictlyIncreasing(patched.viewFormats.value)
              && forall y :: y in patched.viewFormats.value <==> y == srgb || y == normal || y in info.viewFormats.value
    ensures graphics != U32_MAX && info.viewFormats.None? ==>
              patched.viewFormats == if srgb != normal then Some([srgb, normal]) else None
    ensures graphics != U32_MAX ==>
              patched.queueFamilyIndices == if info.sharingMode == SharingConcurrent
                                            then [graphics] + OtherFamilies(info.queueFamilyIndices, graphics)
                                            else info.queueFamilyIndices
  {
    patched := info;
    if graphics == U32_MAX {
      return;
    }
    patched := patched.(imageUsage := patched.imageUsage + ImageUsageTransferSrc);
    var formatList := [srgb, normal];
    if formatList[0] != formatList[1] {
      patched := patched.(flags := patched.flags + SwapchainMutableFormat);
    } else {
      assert When(false, SwapchainMutableFormat) == {};
    }
    if info.viewFormats.Some? {
      var merged := SortUnique(formatList + info.viewFormats.value);
      patched := patched.(viewFormats := Some(merged));
    } else if formatList[0] != formatList[1] {
      patched := patched.(viewFormats := Some(formatList));
    }
    if info.sharingMode == SharingConcurrent {
      var families := ConcurrentFamilies(info.queueFamilyIndices, graphics);
      patched := patched.(queueFamilyIndices := families);
    }
  }

  /**
   * Whatever order and repetitions the application's format list has, the
   * patched list is the same: it is determined by the set of formats.
   */
  lemma PatchedFormatsCanonical(info1: SwapchainCreateInfo, info2: SwapchainCreateInfo, graphics: u32, srgb: u32, normal: u32,
                                patched1: SwapchainCreateInfo, patched2: SwapchainCreateInfo)
    requires graphics != U32_MAX && info1.viewFormats.Some? && info2.viewFormats.Some?
    requires forall y :: y in info1.viewFormats.value <==> y in info2.viewFormats.value
    requires patched1.viewFormats.Some? && StrictlyIncreasing(patched1.viewFormats.value)
             && forall y :: y in patched1.viewFormats.value <==> y == srgb || y == normal || y in info1.viewFormats.value
    requires patched2.viewFormats.Some? && StrictlyIncreasing(patched2.viewFormats.value)
             && forall y :: y in patched2.viewFormats.value <==> y == srgb || y == normal || y in info2.viewFormats.value
    ensures patched1.viewFormats == patched2.viewFormats
  {
    StrictlyIncreasingUnique(patched1.viewFormats.value, patched2.viewFormats.value);
  }

  // ---------------------------------------------------------------------------
  // Barrier range around image clears
  // ---------------------------------------------------------------------------

  datatype SubresourceRange = SubresourceRange(aspectMask: FlagWord, baseMipLevel: u32, levelCount: u32,
                                               baseArrayLayer: u32, layerCount: u32)

  /** A VkImageMemoryBarrier's range as value-initialised: everything zero. */
  const ZeroSubresourceRange: SubresourceRange := SubresourceRange({}, 0, 0, 0, 0)

  function Min(a: u32, b: u32): u32 { if a <= b then a else b }
  function Max(a: u32, b: u32): u32 { if a <= b then b else a }

  /**
   * The range the clear hooks build, folded in loop order: aspect masks
   * ORed, bases lowered with min and counts raised with max, all from zero.
   */
  function ClearUnion(ranges: seq<SubresourceRange>): SubresourceRange
  {
    if ranges == [] then ZeroSubresourceRange
    else
      var t := ClearUnion(ranges[..|ranges| - 1]);
      var r := ranges[|ranges| - 1];
      SubresourceRange(t.aspectMask + r.aspectMask, Min(t.baseMipLevel, r.baseMipLevel), Max(t.levelCount, r.levelCount),
                       Min(t.baseArrayLayer, r.baseArrayLayer), Max(t.layerCount, r.layerCount))
  }

  /**
   * The barrier range of vkCmdClearColorImage and vkCmdClearDepthStencilImage.
   */
  method ClearTransitionRange(ranges: seq<SubresourceRange>) returns (t: SubresourceRange)
    ensures t == ClearUnion(ranges)
    ensures t.baseMipLevel == 0 && t.baseArrayLayer == 0
    ensures forall i :: 0 <= i < |ranges| ==> ranges[i].aspectMask <= t.aspectMask
    ensures forall k :: k in t.aspectMask ==> exists i :: 0 <= i < |ranges| && k in ranges[i].aspectMask
    ensures forall i :: 0 <= i < |ranges| ==> ranges[i].levelCount <= t.levelCount && ranges[i].layerCount <= t.layerCount
    ensures t.levelCount == 0 || exists i :: 0 <= i < |ranges| && t.levelCount == ranges[i].levelCount
    ensures t.layerCount == 0 || exists i :: 0 <= i < |ranges| && t.layerCount == ranges[i].layerCount
  {
    t := ZeroSubresourceRange;
    var i := 0;
    while i < |ranges|
      invariant 0 <= i <= |ranges|
      invariant t == ClearUnion(ranges[..i])
    {
      assert ranges[..i + 1][..i] == ranges[..i];
      t := t.(aspectMask := t.aspectMask + ranges[i].aspectMask);
      t := t.(baseMipLevel := Min(t.baseMipLevel, ranges[i].baseMipLevel));
      t := t.(levelCount := Max(t.levelCount, ranges[i].levelCount));
      t := t.(baseArrayLayer := Min(t.baseArrayLayer, ranges[i].baseArrayLayer));
      t := t.(layerCount := Max(t.layerCount, ranges[i].layerCount));
      i := i + 1;
    }
    assert ranges[..i] == ranges;
    ClearUnionShape(ranges);
  }

  /** The folded range keeps base 0, ORs every aspect and takes the largest counts. */
  lemma {:induction false} ClearUnionShape(ranges: seq<SubresourceRange>)
    ensures ClearUnion(ranges).baseMipLevel == 0 && ClearUnion(ranges).baseArrayLayer == 0
    ensures forall i :: 0 <= i < |ranges| ==> ranges[i].aspectMask <= ClearUnion(ranges).aspectMask
    ensures forall k :: k in ClearUnion(ranges).aspectMask ==> exists i :: 0 <= i < |ranges| && k in ranges[i].aspectMask
    ensures forall i :: 0 <= i < |ranges| ==>
              ranges[i].levelCount <= ClearUnion(ranges).levelCount && ranges[i].layerCount <= ClearUnion(ranges).layerCount
    ensures ClearUnion(ranges).levelCount == 0 || exists i :: 0 <= i < |ranges| && ClearUnion(ranges).levelCount == ranges[i].levelCount
    ensures ClearUnion(ranges).layerCount == 0 || exists i :: 0 <= i < |ranges| && ClearUnion(ranges).layerCount == ranges[i].layerCount
    decreases |ranges|
  {
    if ranges != [] {
      var n := |ranges| - 1;
      var front := ranges[..n];
      ClearUnionShape(front);
      var t := ClearUnion(front);
      var u := ClearUnion(ranges);
      assert forall i :: 0 <= i < n ==> front[i] == ranges[i];
      forall k | k in u.aspectMask
        ensures exists i :: 0 <= i < |ranges| && k in ranges[i].aspectMask
      {
        if k !in ranges[n].aspectMask {
          var i :| 0 <= i < n && k in front[i].aspectMask;
          assert k in ranges[i].aspectMask;
        }
      }
      if u.levelCount != 0 && u.levelCount != ranges[n].levelCount {
        var i :| 0 <= i < n && t.levelCount == front[i].levelCount;
        assert u.levelCount == ranges[i].levelCount;
      }
      if u.layerCount != 0 && u.layerCount != ranges[n].layerCount {
        var i :| 0 <= i < n && t.layerCount == front[i].layerCount;
        assert u.layerCount == ranges[i].layerCount;
      }
    }
  }

  /** A run of mip levels or array layers; a count of VK_REMAINING_* reaches to the end of the image. */
  datatype Span = Span(base: u32, count: u32)

  function Levels(r: SubresourceRange): Span { Span(r.baseMipLevel, r.levelCount) }
  function Layers(r: SubresourceRange): Span { Span(r.baseArrayLayer, r.layerCount) }

  /**
   * One past the last element of a span. The end of the image is written
   * as 2^32, which no 32-bit level or layer index reaches.
   */
  function End(s: Span): int
  {
    if s.count == RemainingCount || s.base + s.count >= TWO_32 then TWO_32 else s.base + s.count
  }

  /** `outer` contains every level (or layer) of `inner`. */
  predicate SpanCovers(outer: Span, inner: Span)
  {
    inner.count == 0 || (outer.base <= inner.base && End(inner) <= End(outer))
  }

  /** The barrier range reaches every subresource the clear touches. */
  predicate Covers(t: SubresourceRange, r: SubresourceRange)
  {
    r.aspectMask <= t.aspectMask && SpanCovers(Levels(t), Levels(r)) && SpanCovers(Layers(t), Layers(r))
  }

  /**
   * As written the barrier misses subresources: clearing only mip level 2
   * builds a barrier over level 0 alone.
   */
  lemma ClearUnionMissesCleared()
    ensures ClearUnion([SubresourceRange({0}, 2, 1, 0, 1)]) == SubresourceRange({0}, 0, 1, 0, 1)
    ensures !Covers(ClearUnion([SubresourceRange({0}, 2, 1, 0, 1)]), SubresourceRange({0}, 2, 1, 0, 1))
  {
    var r := SubresourceRange({0}, 2, 1, 0, 1);
    assert [r][..0] == [];
  }

  /** When every cleared range starts at level 0 and layer 0, the as-written barrier does cover them. */
  lemma ClearUnionCoversFromZero(ranges: seq<SubresourceRange>)
    requires forall i :: 0 <= i < |ranges| ==> ranges[i].baseMipLevel == 0 && ranges[i].baseArrayLayer == 0
    ensures forall i :: 0 <= i < |ranges| ==> Covers(ClearUnion(ranges), ranges[i])
  {
    ClearUnionShape(ranges);
  }

  /** The lowest base among non-empty spans. */
  function MinBase(spans: seq<Span>): (m: u32)
    requires spans != []
  {
    if |spans| == 1 then spans[0].base else Min(spans[0].base, MinBase(spans[1..]))
  }

  /** The furthest end among the spans. */
  function MaxEnd(spans: seq<Span>): (m: int)
    requires spans != []
  {
    if |spans| == 1 then End(spans[0]) else
      var rest := MaxEnd(spans[1..]);
      if End(spans[0]) <= rest then rest else End(spans[0])
  }

  lemma {:induction false} SpanBounds(spans: seq<Span>)
    requires spans != []
    ensures forall i :: 0 <= i < |spans| ==> MinBase(spans) <= spans[i].base && End(spans[i]) <= MaxEnd(spans)
    ensures MaxEnd(spans) <= TWO_32
    decreases |spans|
  {
    if |spans| > 1 {
      SpanBounds(spans[1..]);
      assert forall i :: 1 <= i < |spans| ==> spans[i] == spans[1..][i - 1];
    }
  }

  /** A span holding all of `spans`: from the lowest base to the furthest end (clamped to the remaining count). */
  function CoveringSpan(spans: seq<Span>): (c: Span)
  {
    if spans == [] then Span(0, 0)
    else
      var lo := MinBase(spans);
      var hi := MaxEnd(spans);
      SpanBounds(spans);
      assert lo <= spans[0].base && End(spans[0]) <= hi;
      if hi == TWO_32 then Span(lo, RemainingCount) else Span(lo, hi - lo)
  }

  function LevelSpans(ranges: seq<SubresourceRange>): seq<Span>
  {
    seq(|ranges|, i requires 0 <= i < |ranges| => Levels(ranges[i]))
  }

  function LayerSpans(ranges: seq<SubresourceRange>): seq<Span>
  {
    seq(|ranges|, i requires 0 <= i < |ranges| => Layers(ranges[i]))
  }

  function AspectUnion(ranges: seq<SubresourceRange>): (a: FlagWord)
    ensures forall i :: 0 <= i < |ranges| ==> ranges[i].aspectMask <= a
  {
    if ranges == [] then {} else ranges[0].aspectMask + AspectUnion(ranges[1..])
  }

  /**
   * The barrier range evidently intended: lowest base to furthest end, for
   * levels and layers alike.
   */
  function CoveringTransition(ranges: seq<SubresourceRange>): SubresourceRange
  {
    var levels := CoveringSpan(LevelSpans(ranges));
    var layers := CoveringSpan(LayerSpans(ranges));
    SubresourceRange(AspectUnion(ranges), levels.base, levels.count, layers.base, layers.count)
  }

  lemma CoveringSpanCovers(spans: seq<Span>)
    ensures forall i :: 0 <= i < |spans| ==> SpanCovers(CoveringSpan(spans), spans[i])
  {
    if spans != [] {
      SpanBounds(spans);
    }
  }

  /** The corrected barrier range covers every cleared range. */
  lemma CoveringTransitionCovers(ranges: seq<SubresourceRange>)
    ensures forall i :: 0 <= i < |ranges| ==> Covers(CoveringTransition(ranges), ranges[i])
  {
    CoveringSpanCovers(LevelSpans(ranges));
    CoveringSpanCovers(LayerSpans(ranges));
    forall i | 0 <= i < |ranges|
      ensures Covers(CoveringTransition(ranges), ranges[i])
    {
      assert LevelSpans(ranges)[i] == Levels(ranges[i]);
      assert LayerSpans(ranges)[i] == Layers(ranges[i]);
    }
  }

  // ---------------------------------------------------------------------------
  // Clear flags
  // ---------------------------------------------------------------------------

  const ClearDepth: FlagWord := {0}       // 0x1
  const ClearStencil: FlagWord := {1}     // 0x2

  /** The clear_flags of vkCmdClearDepthStencilImage, from the barrier's aspect mask. */
  function AspectClearFlags(aspect: FlagWord): (f: FlagWord)
    ensures f <= ClearDepth + ClearStencil
    ensures 0 in f <==> Overlaps(aspect, AspectDepth)
    ensures 1 in f <==> Overlaps(aspect, AspectStencil)
  {
    When(Overlaps(aspect, AspectDepth), ClearDepth) + When(Overlaps(aspect, AspectStencil), ClearStencil)
  }

  /** The clear_flags vkCreateRenderPass records for an attachment, from its two load ops. */
  function LoadOpClearFlags(loadOp: u32, stencilLoadOp: u32): (f: FlagWord)
    ensures f <= ClearDepth + ClearStencil
    ensures 0 in f <==> loadOp == LoadOpClear
    ensures 1 in f <==> stencilLoadOp == LoadOpClear
    ensures f == {} <==> loadOp != LoadOpClear && stencilLoadOp != LoadOpClear
  {
    When(loadOp == LoadOpClear, ClearDepth) + When(stencilLoadOp == LoadOpClear, ClearStencil)
  }

  // ---------------------------------------------------------------------------
  // Render passes
  // ---------------------------------------------------------------------------

  datatype AttachmentReference = AttachmentReference(attachment: u32, layout: u32)

  const UnusedReference: AttachmentReference := AttachmentReference(AttachmentUnused, LayoutUndefined)

  datatype SubpassDescription = SubpassDescription(colorAttachments: seq<AttachmentReference>,
                                                   depthStencil: Option<AttachmentReference>)
  datatype AttachmentDescription = AttachmentDescription(loadOp: u32, stencilLoadOp: u32, initialLayout: u32)

  /** What the device keeps per render pass. */
  datatype SubpassData = SubpassData(colorAttachments: seq<AttachmentReference>, depthStencil: AttachmentReference)
  datatype ClearedAttachment = ClearedAttachment(clearFlags: FlagWord, index: u32, initialLayout: u32)
  datatype RenderPassData = RenderPassData(subpasses: seq<SubpassData>, cleared: seq<ClearedAttachment>)

  /** A reference as recorded: an unused one is stored as {UNUSED, UNDEFINED} whatever its layout. */
  function Recorded(ref: AttachmentReference): (r: AttachmentReference)
    ensures r.attachment == ref.attachment
    ensures ref.attachment != AttachmentUnused ==> r == ref
    ensures ref.attachment == AttachmentUnused ==> r.layout == LayoutUndefined
  {
    if ref.attachment != AttachmentUnused then ref else UnusedReference
  }

  /** The depth-stencil reference as recorded: a missing one is unused. */
  function RecordedDepthStencil(ref: Option<AttachmentReference>): (r: AttachmentReference)
    ensures ref.None? ==> r == UnusedReference
    ensures ref.Some? ==> r == Recorded(ref.value)
  {
    if ref.Some? && ref.value.attachment != AttachmentUnused then ref.value else UnusedReference
  }

  /** The subpass data vkCreateRenderPass records for one subpass. */
  method RecordSubpass(subpass: SubpassDescription) returns (data: SubpassData)
    ensures |data.colorAttachments| == |subpass.colorAttachments|
    ensures forall i :: 0 <= i < |data.colorAttachments| ==> data.colorAttachments[i] == Recorded(subpass.colorAttachments[i])
    ensures data.depthStencil == RecordedDepthStencil(subpass.depthStencil)
  {
    var colors: seq<AttachmentReference> := [];
    var i := 0;
    while i < |subpass.colorAttachments|
      invariant 0 <= i <= |subpass.colorAttachments| && |colors| == i
      invariant forall j :: 0 <= j < i ==> colors[j] == Recorded(subpass.colorAttachments[j])
    {
      var reference := subpass.colorAttachments[i];
      if reference.attachment != AttachmentUnused {
        colors := colors + [reference];
      } else {
        colors := colors + [AttachmentReference(AttachmentUnused, LayoutUndefined)];
      }
      i := i + 1;
    }
    var depthStencil := UnusedReference;
    if subpass.depthStencil.Some? && subpass.depthStencil.value.attachment != AttachmentUnused {
      depthStencil := subpass.depthStencil.value;
    }
    data := SubpassData(colors, depthStencil);
  }

  /** Clears an attachment description asks for, as vkCreateRenderPass records them. */
  predicate ClearsRecorded(cleared: seq<ClearedAttachment>, attachments: seq<AttachmentDescription>, upTo: nat)
  {
    (forall c :: 0 <= c < |cleared| ==>
       cleared[c].index < upTo && cleared[c].index < |attachments|
       && cleared[c].clearFlags != {}
       && cleared[c].clearFlags == LoadOpClearFlags(attachments[cleared[c].index].loadOp,
                                                    attachments[cleared[c].index].stencilLoadOp)
       && cleared[c].initialLayout == attachments[cleared[c].index].initialLayout)
    && (forall c, d :: 0 <= c < d < |cleared| ==> cleared[c].index < cleared[d].index)
  }

  /**
   * The cleared-attachment list: the attachments whose depth or stencil load
   * op clears, in attachment order, each with its clear flags and initial layout.
   */
  method RecordClears(attachments: seq<AttachmentDescription>) returns (cleared: seq<ClearedAttachment>)
    requires |attachments| <= TWO_32
    ensures ClearsRecorded(cleared, attachments, |attachments|)
    ensures forall a :: 0 <= a < |attachments| && LoadOpClearFlags(attachments[a].loadOp, attachments[a].stencilLoadOp) != {} ==>
              exists c :: 0 <= c < |cleared| && cleared[c].index == a
  {
    cleared := [];
    var a := 0;
    while a < |attachments|
      invariant 0 <= a <= |attachments|
      invariant ClearsRecorded(cleared, attachments, a)
      invariant forall b :: 0 <= b < a && LoadOpClearFlags(attachments[b].loadOp, attachments[b].stencilLoadOp) != {} ==>
                  exists c :: 0 <= c < |cleared| && cleared[c].index == b
    {
      var clearFlags := LoadOpClearFlags(attachments[a].loadOp, attachments[a].stencilLoadOp);
      if clearFlags != {} {
        ghost var before := cleared;
        cleared := cleared + [ClearedAttachment(clearFlags, a, attachments[a].initialLayout)];
        assert forall c :: 0 <= c < |before| ==> cleared[c] == before[c];
        assert cleared[|before|].index == a;
      }
      a := a + 1;
    }
  }

  /**
   * The render-pass data vkCreateRenderPass records for the given subpasses
   * and attachments: every subpass with its colour references and depth-stencil
   * reference as recorded, and the attachments whose depth or stencil load op
   * clears, in attachment order, each with its clear flags and initial layout,
   * none of them missing.
   */
  predicate RecordsRenderPass(data: RenderPassData, subpasses: seq<SubpassDescription>, attachments: seq<AttachmentDescription>)
  {
    && |data.subpasses| == |subpasses|
    && (forall s :: 0 <= s < |subpasses| ==>
          |data.subpasses[s].colorAttachments| == |subpasses[s].colorAttachments|
          && (forall i :: 0 <= i < |subpasses[s].colorAttachments| ==>
                data.subpasses[s].colorAttachments[i] == Recorded(subpasses[s].colorAttachments[i]))
          && data.subpasses[s].depthStencil == RecordedDepthStencil(subpasses[s].depthStencil))
    && ClearsRecorded(data.cleared, attachments, |attachments|)
    && (forall a :: 0 <= a < |attachments| && LoadOpClearFlags(attachments[a].loadOp, attachments[a].stencilLoadOp) != {} ==>
          exists c :: 0 <= c < |data.cleared| && data.cleared[c].index == a)
  }

  /** The recording vkCreateRenderPass does after the next layer succeeds. */
  method RecordRenderPass(subpasses: seq<SubpassDescription>, attachments: seq<AttachmentDescription>)
    returns (data: RenderPassData)
    requires |attachments| <= TWO_32
    ensures RecordsRenderPass(data, subpasses, attachments)
  {
    var recorded: seq<SubpassData> := [];
    var s := 0;
    while s < |subpasses|
      invariant 0 <= s <= |subpasses| && |recorded| == s
      invariant forall t :: 0 <= t < s ==>
                  |recorded[t].colorAttachments| == |subpasses[t].colorAttachments|
                  && (forall i :: 0 <= i < |subpasses[t].colorAttachments| ==>
                        recorded[t].colorAttachments[i] == Recorded(subpasses[t].colorAttachments[i]))
                  && recorded[t].depthStencil == RecordedDepthStencil(subpasses[t].depthStencil)
    {
      var subpassData := RecordSubpass(subpasses[s]);
      recorded := recorded + [subpassData];
      s := s + 1;
    }
    var cleared := RecordClears(attachments);
    data := RenderPassData(recorded, cleared);
  }

  /**
   * vkCreateRenderPass: a failing next-layer result is returned unchanged and
   * nothing is recorded; otherwise the render pass's data is recorded.
   */
  method CreateRenderPass(nextResult: int, subpasses: seq<SubpassDescription>, attachments: seq<AttachmentDescription>)
    returns (result: int, data: Option<RenderPassData>)
    requires |attachments| <= TWO_32
    ensures result == nextResult
    ensures data.Some? <==> nextResult == VkSuccess
    ensures data.Some? ==> RecordsRenderPass(data.value, subpasses, attachments)
  {
    if nextResult != VkSuccess {
      return nextResult, None;
    }
    var recorded := RecordRenderPass(subpasses, attachments);
    return VkSuccess, Some(recorded);
  }

  /** Every attachment a subpass references exists in the framebuffer. */
  predicate ReferencesFit(subpass: SubpassData, views: seq<u64>)
  {
    (forall i :: 0 <= i < |subpass.colorAttachments| && subpass.colorAttachments[i].attachment != AttachmentUnused ==>
       subpass.colorAttachments[i].attachment < |views|)
    && (subpass.depthStencil.attachment != AttachmentUnused ==> subpass.depthStencil.attachment < |views|)
  }

  /** `rtvs` and `dsv` are the views the subpass binds from the framebuffer's `views`; unused references bind null. */
  predicate BoundTargets(subpass: SubpassData, views: seq<u64>, rtvs: seq<u64>, dsv: u64)
    requires ReferencesFit(subpass, views)
  {
    |rtvs| == |subpass.colorAttachments|
    && (forall i :: 0 <= i < |rtvs| ==>
          rtvs[i] == if subpass.colorAttachments[i].attachment == AttachmentUnused then 0
                     else views[subpass.colorAttachments[i].attachment])
    && dsv == if subpass.depthStencil.attachment == AttachmentUnused then 0 else views[subpass.depthStencil.attachment]
  }

  /**
   * The render-target views a subpass binds: for each colour reference the
   * framebuffer's view, or a null view when unused; likewise the
   * depth-stencil view.
   */
  method SubpassTargets(subpass: SubpassData, views: seq<u64>) returns (rtvs: seq<u64>, dsv: u64)
    requires ReferencesFit(subpass, views)
    ensures BoundTargets(subpass, views, rtvs, dsv)
  {
    rtvs := [];
    var i := 0;
    while i < |subpass.colorAttachments|
      invariant 0 <= i <= |subpass.colorAttachments| && |rtvs| == i
      invariant forall j :: 0 <= j < i ==>
                  rtvs[j] == if subpass.colorAttachments[j].attachment == AttachmentUnused then 0
                             else views[subpass.colorAttachments[j].attachment]
    {
      if subpass.colorAttachments[i].attachment != AttachmentUnused {
        rtvs := rtvs + [views[subpass.colorAttachments[i].attachment]];
      } else {
        rtvs := rtvs + [0];
      }
      i := i + 1;
    }
    dsv := 0;
    if subpass.depthStencil.attachment != AttachmentUnused {
      dsv := views[subpass.depthStencil.attachment];
    }
  }

  /** The render-pass state a command buffer's wrapper tracks. */
  class CommandList {
    /** The command buffer this wrapper belongs to. */
    const commandBuffer: u64
    var currentSubpass: u32
    var currentRenderPass: u64
    var currentFramebuffer: u64

    /** Outside any render pass. */
    predicate Outside()
      reads this
    {
      currentSubpass == U32_MAX && currentRenderPass == NullHandle64 && currentFramebuffer == NullHandle64
    }

    constructor (commandBuffer: u64)
      ensures this.commandBuffer == commandBuffer && Outside()
    {
      this.commandBuffer := commandBuffer;
      currentSubpass := U32_MAX;
      currentRenderPass := NullHandle64;
      currentFramebuffer := NullHandle64;
    }

    /**
     * vkCmdBeginRenderPass: subpass 0 of the given render pass and
     * framebuffer; returns the views subpass 0 binds.
     */
    method BeginRenderPass(renderPass: u64, framebuffer: u64, data: RenderPassData, views: seq<u64>)
      returns (rtvs: seq<u64>, dsv: u64)
      requires |data.subpasses| > 0 && ReferencesFit(data.subpasses[0], views)
      modifies this
      ensures currentSubpass == 0 && currentRenderPass == renderPass && currentFramebuffer == framebuffer
      ensures BoundTargets(data.subpasses[0], views, rtvs, dsv)
    {
      currentSubpass := 0;
      currentRenderPass := renderPass;
      currentFramebuffer := framebuffer;
      rtvs, dsv := SubpassTargets(data.subpasses[currentSubpass], views);
    }

    /**
     * vkCmdNextSubpass: inside a render pass, the next subpass; returns the
     * views it binds.
     */
    method NextSubpass(data: RenderPassData, views: seq<u64>) returns (rtvs: seq<u64>, dsv: u64)
      requires currentRenderPass != NullHandle64 && currentFramebuffer != NullHandle64
      requires Wrap32(currentSubpass + 1) < |data.subpasses| && ReferencesFit(data.subpasses[Wrap32(currentSubpass + 1)], views)
      modifies this
      ensures currentSubpass == Wrap32(old(currentSubpass) + 1)
      ensures currentRenderPass == old(currentRenderPass) && currentFramebuffer == old(currentFramebuffer)
      ensures BoundTargets(data.subpasses[currentSubpass], views, rtvs, dsv)
    {
      currentSubpass := Wrap32(currentSubpass + 1);
      rtvs, dsv := SubpassTargets(data.subpasses[currentSubpass], views);
    }

    /** vkCmdEndRenderPass: back outside any render pass. */
    method EndRenderPass()
      modifies this
      ensures Outside()
    {
      currentSubpass := U32_MAX;
      currentRenderPass := NullHandle64;
      currentFramebuffer := NullHandle64;
    }
  }

  // ---------------------------------------------------------------------------
  // Command-buffer registry
  // ---------------------------------------------------------------------------

  /**
   * The handles registered once the first `n` command buffers of `buffers`
   * have been offered to a table that started with `keys`.
   */
  function Registered(keys: set<u64>, buffers: seq<u64>, n: nat): (r: set<u64>)
    requires n <= |buffers|
    ensures keys <= r
  {
    if n == 0 then keys else Registered(keys, buffers, n - 1) + {buffers[n - 1]}
  }

  /** The registered handles are the initial ones and those of the command buffers so far. */
  lemma {:induction false} RegisteredHandles(keys: set<u64>, buffers: seq<u64>, n: nat)
    requires n <= |buffers|
    ensures Registered(keys, buffers, n) == keys + set b | b in buffers[..n]
  {
    if n > 0 {
      RegisteredHandles(keys, buffers, n - 1);
      assert buffers[..n] == buffers[..n - 1] + [buffers[n - 1]];
    }
  }

  /**
   * The handles among the first `n` command buffers whose wrappers are
   * discarded, in allocation order: those already registered when they
   * arrive, either before the call or earlier in the same list.
   */
  function Discards(keys: set<u64>, buffers: seq<u64>, n: nat): (r: seq<u64>)
    requires n <= |buffers|
    ensures |r| <= n
    decreases n
  {
    if n == 0 then []
    else
      var last := buffers[n - 1];
      Discards(keys, buffers, n - 1) + (if last in Registered(keys, buffers, n - 1) then [last] else [])
  }

  /**
   * No wrapper is lost: every allocated command buffer's wrapper is either
   * registered under a new handle or discarded.
   */
  lemma {:induction false} AllocationAccounted(keys: set<u64>, buffers: seq<u64>, n: nat)
    requires n <= |buffers|
    ensures |Discards(keys, buffers, n)| + |Registered(keys, buffers, n) - keys| == n
    decreases n
  {
    if n > 0 {
      var last := buffers[n - 1];
      AllocationAccounted(keys, buffers, n - 1);
      if last in Registered(keys, buffers, n - 1) {
        assert Registered(keys, buffers, n) == Registered(keys, buffers, n - 1);
      } else {
        assert Registered(keys, buffers, n) - keys == (Registered(keys, buffers, n - 1) - keys) + {last};
      }
    }
  }

  /**
   * vkAllocateCommandBuffers: on success each new command buffer gets a
   * fresh wrapper for its handle; a wrapper whose handle is already
   * registered is deleted (returned in `discarded`, one per such handle in
   * allocation order) and the registered one is kept.
   */
  method AllocateCommandBuffers(table: Table<u64, CommandList>, nextResult: int, buffers: seq<u64>)
    returns (result: int, discarded: seq<CommandList>)
    modifies table
    ensures result == nextResult
    ensures nextResult != VkSuccess ==> table.entries == old(table.entries) && discarded == []
    ensures nextResult == VkSuccess ==> table.entries.Keys == old(table.entries.Keys) + set b | b in buffers
    ensures forall b :: b in old(table.entries) ==> b in table.entries && table.entries[b] == old(table.entries[b])
    ensures forall b :: b in table.entries && b !in old(table.entries) ==>
              fresh(table.entries[b]) && table.entries[b].Outside() && table.entries[b].commandBuffer == b
    ensures forall w :: w in discarded ==> fresh(w) && w !in table.entries.Values
    ensures nextResult == VkSuccess ==>
              && |discarded| == |Discards(old(table.entries.Keys), buffers, |buffers|)|
              && forall j :: 0 <= j < |discarded| ==> discarded[j].commandBuffer == Discards(old(table.entries.Keys), buffers, |buffers|)[j]
  {
    if nextResult != VkSuccess {
      return nextResult, [];
    }
    discarded := [];
    ghost var keys := table.entries.Keys;
    ghost var handles: seq<u64> := [];
    var i := 0;
    while i < |buffers|
      invariant 0 <= i <= |buffers|
      invariant keys == old(table.entries.Keys)
      invariant table.entries.Keys == Registered(keys, buffers, i)
      invariant forall b :: b in old(table.entries) ==> b in table.entries && table.entries[b] == old(table.entries[b])
      invariant forall b :: b in table.entries && b !in old(table.entries) ==>
                  fresh(table.entries[b]) && table.entries[b].Outside() && table.entries[b].commandBuffer == b
      invariant forall j :: 0 <= j < |discarded| ==> fresh(discarded[j])
      invariant forall j, b :: 0 <= j < |discarded| && b in table.entries ==> table.entries[b] != discarded[j]
      invariant handles == Discards(keys, buffers, i) && |discarded| == |handles|
      invariant forall j :: 0 <= j < |discarded| ==> discarded[j].commandBuffer == handles[j]
    {
      var wrapper := new CommandList(buffers[i]);
      var inserted := table.Emplace(buffers[i], wrapper);
      if !inserted {
        discarded := discarded + [wrapper];
        handles := handles + [buffers[i]];
      }
      i := i + 1;
    }
    assert buffers[..i] == buffers;
    RegisteredHandles(keys, buffers, i);
    result := VkSuccess;
  }

  /**
   * The wrappers freeing `buffers` deletes, in order: the registered wrapper
   * of each handle the first time it appears.
   */
  function Erased(entries: map<u64, CommandList>, buffers: seq<u64>): (r: seq<CommandList>)
    ensures |r| <= |buffers|
    ensures forall w :: w in r ==> w in entries.Values
    ensures forall b :: b in entries && b in buffers ==> entries[b] in r
    decreases |buffers|
  {
    if buffers == [] then []
    else
      var init := buffers[..|buffers| - 1];
      var last := buffers[|buffers| - 1];
      assert forall b :: b in buffers ==> b in init || b == last;
      Erased(entries, init) + (if last in entries && last !in init then [entries[last]] else [])
  }

  /** vkFreeCommandBuffers: the wrappers of the freed command buffers are removed and returned for deletion. */
  method FreeCommandBuffers(table: Table<u64, CommandList>, buffers: seq<u64>) returns (deleted: seq<CommandList>)
    modifies table
    ensures table.entries == old(table.entries) - set b | b in buffers
    ensures deleted == Erased(old(table.entries), buffers)
    ensures forall w :: w in deleted ==> w in old(table.entries).Values
  {
    deleted := [];
    var i := 0;
    while i < |buffers|
      invariant 0 <= i <= |buffers|
      invariant table.entries.Keys == old(table.entries.Keys) - set b | b in buffers[..i]
      invariant forall b :: b in table.entries ==> table.entries[b] == old(table.entries)[b]
      invariant deleted == Erased(old(table.entries), buffers[..i])
    {
      assert buffers[..i + 1] == buffers[..i] + [buffers[i]];
      assert buffers[..i + 1][..i] == buffers[..i];
      var wrapper := table.Erase(buffers[i]);
      if wrapper.Some? {
        deleted := deleted + [wrapper.value];
      }
      i := i + 1;
    }
    assert buffers[..i] == buffers;
  }
}
