/**
 * Conversions between the neutral descriptions and their Direct3D 11
 * counterparts: formats, memory heaps and D3D11_USAGE, resource usage and bind
 * flags, sampler, resource and resource view descriptions, and the pipeline
 * state enumerations.
 *
 * A conversion towards Direct3D 11 updates a description the caller supplies,
 * so it takes that description and returns the updated one; a conversion back
 * starts from a zero description. The union inside a native view description
 * is kept as the four UINT words it occupies, so "left untouched" and the
 * agreement of the *_DESC1 variants with their *_DESC counterparts are
 * statements about the same storage the C++ code writes.
 */
module D3D11Convert {
  import opened Api

  // ---------------------------------------------------------------------------
  // Formats
  // ---------------------------------------------------------------------------

  const DxgiFormatUnknown: u32 := 0

  /** api::format -> DXGI_FORMAT: values from 1000 on have no DXGI equivalent. */
  function FormatToNative(format: u32): (r: u32)
    ensures r < 1000
    ensures format < 1000 ==> r == format
    ensures format >= 1000 ==> r == DxgiFormatUnknown
  {
    if format >= 1000 then DxgiFormatUnknown else format
  }

  /** DXGI_FORMAT -> api::format: the neutral format numbering is DXGI's. */
  function FormatFromNative(format: u32): (r: u32)
    ensures FormatToNative(r) == format <==> format < 1000
  {
    format
  }

  /** Formats below 1000 survive both directions; the others come back unknown. */
  lemma FormatRoundTrip(format: u32, native: u32)
    ensures FormatFromNative(FormatToNative(format)) == if format < 1000 then format else DxgiFormatUnknown
    ensures native < 1000 ==> FormatToNative(FormatFromNative(native)) == native
  {
  }

  // ---------------------------------------------------------------------------
  // Memory heap <-> D3D11_USAGE and CPU access flags
  // ---------------------------------------------------------------------------

  const UsageDefault: u32 := 0
  const UsageImmutable: u32 := 1
  const UsageDynamic: u32 := 2
  const UsageStaging: u32 := 3

  type CpuAccessFlags = FlagWord

  const CpuAccessWrite: CpuAccessFlags := {16}           // 0x10000
  const CpuAccessRead: CpuAccessFlags := {17}            // 0x20000

  datatype UsageAndAccess = UsageAndAccess(usage: u32, cpuAccess: CpuAccessFlags)

  /**
   * The D3D11_USAGE and CPU access a heap calls for. Access flags are only ever
   * added; an unknown heap leaves both as they were.
   */
  function HeapToNative(heap: MemoryHeap, current: UsageAndAccess): (r: UsageAndAccess)
    ensures heap == MemoryHeap.Unknown ==> r == current
    ensures Includes(r.cpuAccess, current.cpuAccess)
    ensures r.cpuAccess - (CpuAccessRead + CpuAccessWrite) == current.cpuAccess - (CpuAccessRead + CpuAccessWrite)
    ensures Includes(r.cpuAccess, CpuAccessWrite)
        <==> heap == MemoryHeap.CpuToGpu || heap == MemoryHeap.CpuOnly || Includes(current.cpuAccess, CpuAccessWrite)
    ensures Includes(r.cpuAccess, CpuAccessRead)
        <==> heap == MemoryHeap.GpuToCpu || heap == MemoryHeap.CpuOnly || Includes(current.cpuAccess, CpuAccessRead)
  {
    match heap
    case GpuOnly => current.(usage := UsageDefault)
    case CpuToGpu => UsageAndAccess(UsageDynamic, current.cpuAccess + CpuAccessWrite)
    case GpuToCpu => UsageAndAccess(UsageStaging, current.cpuAccess + CpuAccessRead)
    case CpuOnly => UsageAndAccess(UsageStaging, current.cpuAccess + CpuAccessRead + CpuAccessWrite)
    case Unknown => current
  }

  /** The heap a D3D11_USAGE stands for; an unrecognised usage leaves `heap` as it was. */
  function HeapFromNative(usage: u32, heap: MemoryHeap): (r: MemoryHeap)
    ensures usage > UsageStaging ==> r == heap
    ensures usage <= UsageStaging ==> r != MemoryHeap.Unknown && r != MemoryHeap.CpuOnly
  {
    if usage == UsageDefault || usage == UsageImmutable then MemoryHeap.GpuOnly
    else if usage == UsageDynamic then MemoryHeap.CpuToGpu
    else if usage == UsageStaging then MemoryHeap.GpuToCpu
    else heap
  }

  /** The heap a known heap reads back as: cpu_only and gpu_to_cpu share D3D11_USAGE_STAGING. */
  function ReadBackHeap(heap: MemoryHeap): MemoryHeap
  {
    if heap == MemoryHeap.CpuOnly then MemoryHeap.GpuToCpu else heap
  }

  /**
   * Every known heap but cpu_only survives the round trip; cpu_only comes back
   * as gpu_to_cpu, and D3D11_USAGE_IMMUTABLE reads back as gpu_only.
   */
  lemma HeapRoundTrip(heap: MemoryHeap, current: UsageAndAccess, prior: MemoryHeap)
    requires heap != MemoryHeap.Unknown
    ensures HeapFromNative(HeapToNative(heap, current).usage, prior) == ReadBackHeap(heap)
    ensures HeapFromNative(UsageImmutable, prior) == MemoryHeap.GpuOnly
  {
  }

  /**
   * A native usage and access pair survives reading back and writing again
   * exactly when it is what the heap it reads as would write: not IMMUTABLE,
   * DYNAMIC only with CPU write access, STAGING only with CPU read access.
   * Unrecognised usages read back as an unknown heap and are kept.
   */
  lemma HeapNativeRoundTrip(native: UsageAndAccess)
    ensures HeapToNative(HeapFromNative(native.usage, MemoryHeap.Unknown), native) == native
        <==> NativeUsageStable(native)
  {
  }

  predicate NativeUsageStable(native: UsageAndAccess)
  {
    && native.usage != UsageImmutable
    && (native.usage == UsageDynamic ==> Includes(native.cpuAccess, CpuAccessWrite))
    && (native.usage == UsageStaging ==> Includes(native.cpuAccess, CpuAccessRead))
  }

  // ---------------------------------------------------------------------------
  // Resource usage <-> D3D11_BIND_FLAG
  // ---------------------------------------------------------------------------

  type BindFlags = FlagWord

  // Every D3D11_BIND_FLAG is a single bit, so the test `(bind_flags & F) != 0`
  // is the presence of that bit's position.
  const BitVertexBuffer: Bit := 0                        // 0x1
  const BitIndexBuffer: Bit := 1                         // 0x2
  const BitConstantBuffer: Bit := 2                      // 0x4
  const BitShaderResource: Bit := 3                      // 0x8
  const BitStreamOutput: Bit := 4                        // 0x10
  const BitRenderTarget: Bit := 5                        // 0x20
  const BitDepthStencil: Bit := 6                        // 0x40
  const BitUnorderedAccess: Bit := 7                     // 0x80

  /** The bind flags the usage conversion decides; every other bit passes through. */
  const ManagedBindFlags: BindFlags :=
    {BitRenderTarget, BitDepthStencil, BitShaderResource, BitUnorderedAccess, BitIndexBuffer, BitVertexBuffer, BitConstantBuffer}

  /** `if (c) bind |= {bit}; else bind &= ~{bit};` */
  function SetOrClear(bind: BindFlags, bit: Bit, c: bool): (r: BindFlags)
  {
    (bind - {bit}) + When(c, {bit})
  }

  /**
   * Each of the seven managed bind flags is set exactly when the usage touches
   * its usage group, and cleared otherwise; every other bit is left alone.
   */
  function UsageToBindFlags(usage: ResourceUsage, bind: BindFlags): (r: BindFlags)
    ensures BitRenderTarget in r <==> Overlaps(usage, RenderTarget)
    ensures BitDepthStencil in r <==> Overlaps(usage, DepthStencil)
    ensures BitShaderResource in r <==> Overlaps(usage, ShaderResource)
    ensures BitUnorderedAccess in r <==> Overlaps(usage, UnorderedAccess)
    ensures BitIndexBuffer in r <==> Overlaps(usage, IndexBuffer)
    ensures BitVertexBuffer in r <==> Overlaps(usage, VertexBuffer)
    ensures BitConstantBuffer in r <==> Overlaps(usage, ConstantBuffer)
    ensures forall k: Bit :: k !in ManagedBindFlags ==> (k in r <==> k in bind)
  {
    var b1 := SetOrClear(bind, BitRenderTarget, Overlaps(usage, RenderTarget));
    var b2 := SetOrClear(b1, BitDepthStencil, Overlaps(usage, DepthStencil));
    var b3 := SetOrClear(b2, BitShaderResource, Overlaps(usage, ShaderResource));
    var b4 := SetOrClear(b3, BitUnorderedAccess, Overlaps(usage, UnorderedAccess));
    var b5 := SetOrClear(b4, BitIndexBuffer, Overlaps(usage, IndexBuffer));
    var b6 := SetOrClear(b5, BitVertexBuffer, Overlaps(usage, VertexBuffer));
    SetOrClear(b6, BitConstantBuffer, Overlaps(usage, ConstantBuffer))
  }

  /** The usage groups a bind flag stands for, in full. */
  const BindableGroups: ResourceUsage :=
    RenderTarget + DepthStencil + ShaderResource + UnorderedAccess + IndexBuffer + VertexBuffer + ConstantBuffer

  /**
   * The union of the usage groups whose flag is given: render target, depth
   * stencil, shader resource, unordered access, index, vertex and constant
   * buffer.
   */
  function GroupUsage(rt: bool, ds: bool, sr: bool, ua: bool, ib: bool, vb: bool, cb: bool): (r: ResourceUsage)
  {
    When(rt, RenderTarget) + When(ds, DepthStencil) + When(sr, ShaderResource) + When(ua, UnorderedAccess)
    + When(ib, IndexBuffer) + When(vb, VertexBuffer) + When(cb, ConstantBuffer)
  }

  /**
   * Reading bind flags back adds copy_dest and copy_source and, for each set
   * bind flag, its whole usage group (the C++ ORs them in one after another).
   */
  function BindFlagsToUsage(bind: BindFlags, usage: ResourceUsage): (r: ResourceUsage)
    ensures usage + CopyDest + CopySource <= r
    ensures BitRenderTarget in bind ==> RenderTarget <= r
    ensures BitDepthStencil in bind ==> DepthStencil <= r
    ensures BitShaderResource in bind ==> ShaderResource <= r
    ensures BitUnorderedAccess in bind ==> UnorderedAccess <= r
    ensures BitIndexBuffer in bind ==> IndexBuffer <= r
    ensures BitVertexBuffer in bind ==> VertexBuffer <= r
    ensures BitConstantBuffer in bind ==> ConstantBuffer <= r
  {
    usage + CopyDest + CopySource
    + GroupUsage(BitRenderTarget in bind, BitDepthStencil in bind, BitShaderResource in bind, BitUnorderedAccess in bind,
                 BitIndexBuffer in bind, BitVertexBuffer in bind, BitConstantBuffer in bind)
  }

  /**
   * The usage a Direct3D 11 resource can express for `usage`: every usage
   * group that `usage` touches, in full (depth_stencil_read alone becomes
   * depth_stencil, and so on), and nothing else.
   */
  function BindableUsage(usage: ResourceUsage): ResourceUsage
  {
    GroupUsage(Overlaps(usage, RenderTarget), Overlaps(usage, DepthStencil), Overlaps(usage, ShaderResource),
               Overlaps(usage, UnorderedAccess), Overlaps(usage, IndexBuffer), Overlaps(usage, VertexBuffer),
               Overlaps(usage, ConstantBuffer))
  }

  /** What a usage reads back as through bind flags: the copy usages and the groups it touches. */
  function ReadBackUsage(usage: ResourceUsage): ResourceUsage
  {
    Undefined + CopyDest + CopySource + BindableUsage(usage)
  }

  /** A bit of a union of groups is there exactly when a group holding it is selected. */
  lemma GroupUsageBits(rt: bool, ds: bool, sr: bool, ua: bool, ib: bool, vb: bool, cb: bool, k: Bit)
    ensures k in GroupUsage(rt, ds, sr, ua, ib, vb, cb) <==>
      || (rt && k in RenderTarget) || (ds && k in DepthStencil) || (sr && k in ShaderResource)
      || (ua && k in UnorderedAccess) || (ib && k in IndexBuffer) || (vb && k in VertexBuffer)
      || (cb && k in ConstantBuffer)
  {
  }

  /** Selecting more groups gives more usage. */
  lemma GroupUsageMonotonic(rt: bool, ds: bool, sr: bool, ua: bool, ib: bool, vb: bool, cb: bool,
                            rt': bool, ds': bool, sr': bool, ua': bool, ib': bool, vb': bool, cb': bool)
    requires (rt ==> rt') && (ds ==> ds') && (sr ==> sr') && (ua ==> ua') && (ib ==> ib') && (vb ==> vb') && (cb ==> cb')
    ensures GroupUsage(rt, ds, sr, ua, ib, vb, cb) <= GroupUsage(rt', ds', sr', ua', ib', vb', cb')
  {
    forall k: Bit | k in GroupUsage(rt, ds, sr, ua, ib, vb, cb)
      ensures k in GroupUsage(rt', ds', sr', ua', ib', vb', cb')
    {
      GroupUsageBits(rt, ds, sr, ua, ib, vb, cb, k);
      GroupUsageBits(rt', ds', sr', ua', ib', vb', cb', k);
    }
  }

  /**
   * Reading bind flags back is monotonic: more bind flags onto more usage
   * give more usage.
   */
  lemma BindFlagsToUsageMonotonic(bind1: BindFlags, bind2: BindFlags, usage1: ResourceUsage, usage2: ResourceUsage)
    requires bind1 <= bind2 && usage1 <= usage2
    ensures BindFlagsToUsage(bind1, usage1) <= BindFlagsToUsage(bind2, usage2)
  {
    GroupUsageMonotonic(
      BitRenderTarget in bind1, BitDepthStencil in bind1, BitShaderResource in bind1, BitUnorderedAccess in bind1,
      BitIndexBuffer in bind1, BitVertexBuffer in bind1, BitConstantBuffer in bind1,
      BitRenderTarget in bind2, BitDepthStencil in bind2, BitShaderResource in bind2, BitUnorderedAccess in bind2,
      BitIndexBuffer in bind2, BitVertexBuffer in bind2, BitConstantBuffer in bind2);
  }

  /**
   * Usage -> bind flags -> usage (from undefined) yields the copy usages and
   * the usage groups the original touched.
   */
  lemma UsageBindRoundTrip(usage: ResourceUsage, bind: BindFlags)
    ensures BindFlagsToUsage(UsageToBindFlags(usage, bind), Undefined) == ReadBackUsage(usage)
  {
  }

  /**
   * The groups of a read-back usage (copy usages, selected groups and resolve
   * usages) are touched exactly when they were selected.
   */
  lemma GroupsOfReadBackUsage(rt: bool, ds: bool, sr: bool, ua: bool, ib: bool, vb: bool, cb: bool, extra: ResourceUsage)
    requires extra <= ResolveDest + ResolveSource
    ensures var u := Undefined + CopyDest + CopySource + GroupUsage(rt, ds, sr, ua, ib, vb, cb) + extra;
      && Overlaps(u, RenderTarget) == rt && Overlaps(u, DepthStencil) == ds && Overlaps(u, ShaderResource) == sr
      && Overlaps(u, UnorderedAccess) == ua && Overlaps(u, IndexBuffer) == ib && Overlaps(u, VertexBuffer) == vb
      && Overlaps(u, ConstantBuffer) == cb
  {
    var u := Undefined + CopyDest + CopySource + GroupUsage(rt, ds, sr, ua, ib, vb, cb) + extra;
    ReadBackBits(rt, ds, sr, ua, ib, vb, cb, extra, 0);
    ReadBackBits(rt, ds, sr, ua, ib, vb, cb, extra, 1);
    ReadBackBits(rt, ds, sr, ua, ib, vb, cb, extra, 2);
    ReadBackBits(rt, ds, sr, ua, ib, vb, cb, extra, 3);
    ReadBackBits(rt, ds, sr, ua, ib, vb, cb, extra, 4);
    ReadBackBits(rt, ds, sr, ua, ib, vb, cb, extra, 5);
    ReadBackBits(rt, ds, sr, ua, ib, vb, cb, extra, 6);
    ReadBackBits(rt, ds, sr, ua, ib, vb, cb, extra, 7);
    ReadBackBits(rt, ds, sr, ua, ib, vb, cb, extra, 15);
    GroupOverlapsFromBits(u, rt, ds, sr, ua, ib, vb, cb);
  }

  /** Outside the copy and resolve usages, a read-back usage holds exactly the bits of its selected groups. */
  lemma ReadBackBits(rt: bool, ds: bool, sr: bool, ua: bool, ib: bool, vb: bool, cb: bool, extra: ResourceUsage, k: Bit)
    requires extra <= ResolveDest + ResolveSource
    ensures var u := Undefined + CopyDest + CopySource + GroupUsage(rt, ds, sr, ua, ib, vb, cb) + extra;
      && (k == 2 ==> (k in u <==> rt))
      && (k == 4 || k == 5 ==> (k in u <==> ds))
      && (k == 6 || k == 7 ==> (k in u <==> sr))
      && (k == 3 ==> (k in u <==> ua))
      && (k == 1 ==> (k in u <==> ib))
      && (k == 0 ==> (k in u <==> vb))
      && (k == 15 ==> (k in u <==> cb))
  {
    GroupUsageBits(rt, ds, sr, ua, ib, vb, cb, k);
  }

  /** Which groups a usage touches, from the presence of their bits. */
  lemma GroupOverlapsFromBits(u: ResourceUsage, rt: bool, ds: bool, sr: bool, ua: bool, ib: bool, vb: bool, cb: bool)
    requires (2 in u <==> rt) && (4 in u <==> ds) && (5 in u <==> ds) && (6 in u <==> sr) && (7 in u <==> sr)
    requires (3 in u <==> ua) && (1 in u <==> ib) && (0 in u <==> vb) && (15 in u <==> cb)
    ensures Overlaps(u, RenderTarget) == rt && Overlaps(u, DepthStencil) == ds && Overlaps(u, ShaderResource) == sr
    ensures Overlaps(u, UnorderedAccess) == ua && Overlaps(u, IndexBuffer) == ib && Overlaps(u, VertexBuffer) == vb
    ensures Overlaps(u, ConstantBuffer) == cb
  {
    OverlapsSingle(u, 2);
    OverlapsPair(u, 4, 5);
    OverlapsPair(u, 6, 7);
    OverlapsSingle(u, 3);
    OverlapsSingle(u, 1);
    OverlapsSingle(u, 0);
    OverlapsSingle(u, 15);
  }

  /**
   * Bind flags -> usage (from undefined, plus resolve usages, which no bind
   * flag stands for) -> bind flags restores every managed bind flag and keeps
   * the other bits of the description written to; written back onto the same
   * description it reproduces that description exactly.
   */
  lemma BindUsageRoundTrip(bind: BindFlags, extra: ResourceUsage, target: BindFlags)
    requires extra <= ResolveDest + ResolveSource
    ensures var r := UsageToBindFlags(BindFlagsToUsage(bind, Undefined) + extra, target);
      forall k: Bit :: k in r <==> if k in ManagedBindFlags then k in bind else k in target
    ensures UsageToBindFlags(BindFlagsToUsage(bind, Undefined) + extra, bind) == bind
  {
    var u := BindFlagsToUsage(bind, Undefined) + extra;
    GroupsOfReadBackUsage(
      BitRenderTarget in bind, BitDepthStencil in bind, BitShaderResource in bind, BitUnorderedAccess in bind,
      BitIndexBuffer in bind, BitVertexBuffer in bind, BitConstantBuffer in bind, extra);
    BindFlagsFromBits(UsageToBindFlags(u, target), bind, target);
    BindFlagsFromBits(UsageToBindFlags(u, bind), bind, bind);
  }

  /**
   * A bind flag word that agrees with `bind` on the managed bits and with
   * `target` on all others.
   */
  lemma BindFlagsFromBits(r: BindFlags, bind: BindFlags, target: BindFlags)
    requires BitRenderTarget in r <==> BitRenderTarget in bind
    requires BitDepthStencil in r <==> BitDepthStencil in bind
    requires BitShaderResource in r <==> BitShaderResource in bind
    requires BitUnorderedAccess in r <==> BitUnorderedAccess in bind
    requires BitIndexBuffer in r <==> BitIndexBuffer in bind
    requires BitVertexBuffer in r <==> BitVertexBuffer in bind
    requires BitConstantBuffer in r <==> BitConstantBuffer in bind
    requires forall k: Bit :: k !in ManagedBindFlags ==> (k in r <==> k in target)
    ensures forall k: Bit :: k in r <==> if k in ManagedBindFlags then k in bind else k in target
    ensures target == bind ==> r == bind
  {
    assert forall k: Bit :: k in r <==> if k in ManagedBindFlags then k in bind else k in target;
    if target == bind {
      assert forall k: Bit :: k in r <==> k in bind;
    }
  }

  // ---------------------------------------------------------------------------
  // Sampler descriptions
  // ---------------------------------------------------------------------------

  const ComparisonAlways: u32 := 8

  /** The integer members of D3D11_SAMPLER_DESC. */
  datatype SamplerDesc11 = SamplerDesc11(filter: u32, addressU: u32, addressV: u32, addressW: u32, comparisonFunc: u32)

  /** Filter and address modes are copied; the comparison function is always D3D11_COMPARISON_ALWAYS. */
  function SamplerToNative(desc: SamplerDesc): (r: SamplerDesc11)
    ensures r.comparisonFunc == ComparisonAlways
  {
    SamplerDesc11(desc.filter, desc.addressU, desc.addressV, desc.addressW, ComparisonAlways)
  }

  /** D3D11_SAMPLER_DESC -> sampler_desc: the inverse of `SamplerToNative` on native samplers compared ALWAYS. */
  function SamplerFromNative(n: SamplerDesc11): (r: SamplerDesc)
    ensures SamplerToNative(r) == n <==> n.comparisonFunc == ComparisonAlways
  {
    SamplerDesc(n.filter, n.addressU, n.addressV, n.addressW)
  }

  /**
   * A neutral sampler survives the round trip; a native one survives exactly
   * when its comparison function is ALWAYS.
   */
  lemma SamplerRoundTrip(desc: SamplerDesc, n: SamplerDesc11)
    ensures SamplerFromNative(SamplerToNative(desc)) == desc
    ensures SamplerToNative(SamplerFromNative(n)) == n <==> n.comparisonFunc == ComparisonAlways
  {
  }

  // ---------------------------------------------------------------------------
  // Resource descriptions
  // ---------------------------------------------------------------------------

  datatype BufferDesc11 = BufferDesc11(
    byteWidth: u32, usage: u32, bindFlags: BindFlags, cpuAccessFlags: CpuAccessFlags,
    miscFlags: FlagWord, structureByteStride: u32)

  datatype Texture1DDesc11 = Texture1DDesc11(
    width: u32, mipLevels: u32, arraySize: u32, format: u32,
    usage: u32, bindFlags: BindFlags, cpuAccessFlags: CpuAccessFlags, miscFlags: FlagWord)

  datatype Texture2DDesc11 = Texture2DDesc11(
    width: u32, height: u32, mipLevels: u32, arraySize: u32, format: u32, sampleCount: u32, sampleQuality: u32,
    usage: u32, bindFlags: BindFlags, cpuAccessFlags: CpuAccessFlags, miscFlags: FlagWord)

  datatype Texture3DDesc11 = Texture3DDesc11(
    width: u32, height: u32, depth: u32, mipLevels: u32, format: u32,
    usage: u32, bindFlags: BindFlags, cpuAccessFlags: CpuAccessFlags, miscFlags: FlagWord)

  /** The resolve usage a 2D texture reads back with. */
  function ResolveUsage(samples: u16): ResourceUsage
  {
    if samples > 1 then ResolveSource else ResolveDest
  }

  /**
   * Writes a buffer description: the byte width is the size truncated to
   * 32 bits, usage and CPU access come from the heap, bind flags from the
   * usage; misc flags and structure stride are kept.
   */
  function BufferDescToNative(desc: ResourceDesc, n: BufferDesc11): (r: BufferDesc11)
    ensures r.byteWidth == BufferSize(desc) % TWO_32
    ensures r.miscFlags == n.miscFlags && r.structureByteStride == n.structureByteStride
  {
    var ua := HeapToNative(desc.heap, UsageAndAccess(n.usage, n.cpuAccessFlags));
    n.(byteWidth := Wrap32(BufferSize(desc)), usage := ua.usage, cpuAccessFlags := ua.cpuAccess,
       bindFlags := UsageToBindFlags(desc.usage, n.bindFlags))
  }

  function Texture1DDescToNative(desc: ResourceDesc, n: Texture1DDesc11): (r: Texture1DDesc11)
    ensures r.format < 1000 && r.miscFlags == n.miscFlags
  {
    var ua := HeapToNative(desc.heap, UsageAndAccess(n.usage, n.cpuAccessFlags));
    n.(width := desc.texture.width, mipLevels := desc.texture.levels, arraySize := desc.texture.depthOrLayers,
       format := FormatToNative(desc.texture.format), usage := ua.usage, cpuAccessFlags := ua.cpuAccess,
       bindFlags := UsageToBindFlags(desc.usage, n.bindFlags))
  }

  function Texture2DDescToNative(desc: ResourceDesc, n: Texture2DDesc11): (r: Texture2DDesc11)
    ensures r.format < 1000 && r.miscFlags == n.miscFlags && r.sampleQuality == n.sampleQuality
  {
    var ua := HeapToNative(desc.heap, UsageAndAccess(n.usage, n.cpuAccessFlags));
    n.(width := desc.texture.width, height := desc.texture.height, mipLevels := desc.texture.levels,
       arraySize := desc.texture.depthOrLayers, format := FormatToNative(desc.texture.format),
       sampleCount := desc.texture.samples, usage := ua.usage, cpuAccessFlags := ua.cpuAccess,
       bindFlags := UsageToBindFlags(desc.usage, n.bindFlags))
  }

  function Texture3DDescToNative(desc: ResourceDesc, n: Texture3DDesc11): (r: Texture3DDesc11)
    ensures r.format < 1000 && r.miscFlags == n.miscFlags
  {
    var ua := HeapToNative(desc.heap, UsageAndAccess(n.usage, n.cpuAccessFlags));
    n.(width := desc.texture.width, height := desc.texture.height, depth := desc.texture.depthOrLayers,
       mipLevels := desc.texture.levels, format := FormatToNative(desc.texture.format),
       usage := ua.usage, cpuAccessFlags := ua.cpuAccess, bindFlags := UsageToBindFlags(desc.usage, n.bindFlags))
  }

  /** Reads a buffer description back; resource flags are not recovered. */
  function BufferDescFromNative(n: BufferDesc11): (d: ResourceDesc)
    ensures d.resourceType == ResourceType.Buffer && BufferSize(d) == n.byteWidth
    ensures d.flags == FlagsNone && Includes(d.usage, CopyDest + CopySource)
  {
    BufferResourceDesc(n.byteWidth, HeapFromNative(n.usage, MemoryHeap.Unknown), BindFlagsToUsage(n.bindFlags, Undefined))
  }

  /** Reads a 1D texture back: its height and sample count are always 1. */
  function Texture1DDescFromNative(n: Texture1DDesc11): (d: ResourceDesc)
    ensures d.resourceType == ResourceType.Texture1D && d.flags == FlagsNone
    ensures d.texture.height == 1 && d.texture.samples == 1
    ensures d.texture.depthOrLayers == n.arraySize % TWO_16 && d.texture.levels == n.mipLevels % TWO_16
  {
    TypedResourceDesc(ResourceType.Texture1D, n.width, 1, Wrap16(n.arraySize), Wrap16(n.mipLevels),
      FormatFromNative(n.format), 1, HeapFromNative(n.usage, MemoryHeap.Unknown), BindFlagsToUsage(n.bindFlags, Undefined))
  }

  /**
   * Reads a 2D texture back: the sample count is truncated to 16 bits, and a
   * multisampled texture becomes a resolve source, any other a resolve
   * destination.
   */
  function Texture2DDescFromNative(n: Texture2DDesc11): (d: ResourceDesc)
    ensures d.resourceType == ResourceType.Texture2D && d.flags == FlagsNone
    ensures d.texture.samples == n.sampleCount % TWO_16
    ensures Includes(d.usage, ResolveSource) <==> d.texture.samples > 1
    ensures Includes(d.usage, ResolveDest) <==> d.texture.samples <= 1
  {
    var samples := Wrap16(n.sampleCount);
    var usage := BindFlagsToUsage(n.bindFlags, Undefined);
    TypedResourceDesc(ResourceType.Texture2D, n.width, n.height, Wrap16(n.arraySize), Wrap16(n.mipLevels),
      FormatFromNative(n.format), samples, HeapFromNative(n.usage, MemoryHeap.Unknown), usage + ResolveUsage(samples))
  }

  /** Reads a 3D texture back: Depth becomes depth_or_layers, and the sample count is 1. */
  function Texture3DDescFromNative(n: Texture3DDesc11): (d: ResourceDesc)
    ensures d.resourceType == ResourceType.Texture3D && d.flags == FlagsNone
    ensures d.texture.samples == 1 && d.texture.depthOrLayers == n.depth % TWO_16
  {
    TypedResourceDesc(ResourceType.Texture3D, n.width, n.height, Wrap16(n.depth), Wrap16(n.mipLevels),
      FormatFromNative(n.format), 1, HeapFromNative(n.usage, MemoryHeap.Unknown), BindFlagsToUsage(n.bindFlags, Undefined))
  }

  /**
   * A buffer of known heap whose size fits 32 bits comes back with its size,
   * its heap (cpu_only as gpu_to_cpu), the copy usages plus the usage groups
   * it touched, and no resource flags.
   */
  lemma BufferDescRoundTrip(desc: ResourceDesc, n: BufferDesc11)
    requires desc.resourceType == ResourceType.Buffer && desc.heap != MemoryHeap.Unknown
    requires BufferSize(desc) < TWO_32
    ensures BufferDescFromNative(BufferDescToNative(desc, n))
         == BufferResourceDesc(BufferSize(desc), ReadBackHeap(desc.heap), ReadBackUsage(desc.usage))
  {
    HeapRoundTrip(desc.heap, UsageAndAccess(n.usage, n.cpuAccessFlags), MemoryHeap.Unknown);
    UsageBindRoundTrip(desc.usage, n.bindFlags);
  }

  lemma Texture1DDescRoundTrip(desc: ResourceDesc, n: Texture1DDesc11)
    requires desc.resourceType == ResourceType.Texture1D && desc.heap != MemoryHeap.Unknown
    requires desc.texture.height == 1 && desc.texture.samples == 1 && desc.texture.format < 1000
    ensures Texture1DDescFromNative(Texture1DDescToNative(desc, n))
         == desc.(heap := ReadBackHeap(desc.heap), usage := ReadBackUsage(desc.usage), flags := FlagsNone)
  {
    HeapRoundTrip(desc.heap, UsageAndAccess(n.usage, n.cpuAccessFlags), MemoryHeap.Unknown);
    UsageBindRoundTrip(desc.usage, n.bindFlags);
  }

  lemma Texture2DDescRoundTrip(desc: ResourceDesc, n: Texture2DDesc11)
    requires desc.resourceType == ResourceType.Texture2D && desc.heap != MemoryHeap.Unknown
    requires desc.texture.format < 1000
    ensures Texture2DDescFromNative(Texture2DDescToNative(desc, n))
         == desc.(heap := ReadBackHeap(desc.heap), flags := FlagsNone,
                  usage := ReadBackUsage(desc.usage) + ResolveUsage(desc.texture.samples))
  {
    HeapRoundTrip(desc.heap, UsageAndAccess(n.usage, n.cpuAccessFlags), MemoryHeap.Unknown);
    UsageBindRoundTrip(desc.usage, n.bindFlags);
  }

  lemma Texture3DDescRoundTrip(desc: ResourceDesc, n: Texture3DDesc11)
    requires desc.resourceType == ResourceType.Texture3D && desc.heap != MemoryHeap.Unknown
    requires desc.texture.samples == 1 && desc.texture.format < 1000
    ensures Texture3DDescFromNative(Texture3DDescToNative(desc, n))
         == desc.(heap := ReadBackHeap(desc.heap), usage := ReadBackUsage(desc.usage), flags := FlagsNone)
  {
    HeapRoundTrip(desc.heap, UsageAndAccess(n.usage, n.cpuAccessFlags), MemoryHeap.Unknown);
    UsageBindRoundTrip(desc.usage, n.bindFlags);
  }

  /**
   * A native buffer description read back and written onto itself is
   * unchanged when its usage is one a heap writes.
   */
  lemma BufferDescNativeRoundTrip(n: BufferDesc11)
    requires NativeUsageStable(UsageAndAccess(n.usage, n.cpuAccessFlags))
    ensures BufferDescToNative(BufferDescFromNative(n), n) == n
  {
    HeapNativeRoundTrip(UsageAndAccess(n.usage, n.cpuAccessFlags));
    BindUsageRoundTrip(n.bindFlags, {}, n.bindFlags);
  }

  lemma Texture1DDescNativeRoundTrip(n: Texture1DDesc11)
    requires NativeUsageStable(UsageAndAccess(n.usage, n.cpuAccessFlags))
    requires n.mipLevels < TWO_16 && n.arraySize < TWO_16 && n.format < 1000
    ensures Texture1DDescToNative(Texture1DDescFromNative(n), n) == n
  {
    HeapNativeRoundTrip(UsageAndAccess(n.usage, n.cpuAccessFlags));
    BindUsageRoundTrip(n.bindFlags, {}, n.bindFlags);
  }

  lemma Texture2DDescNativeRoundTrip(n: Texture2DDesc11)
    requires NativeUsageStable(UsageAndAccess(n.usage, n.cpuAccessFlags))
    requires n.mipLevels < TWO_16 && n.arraySize < TWO_16 && n.sampleCount < TWO_16 && n.format < 1000
    ensures Texture2DDescToNative(Texture2DDescFromNative(n), n) == n
  {
    HeapNativeRoundTrip(UsageAndAccess(n.usage, n.cpuAccessFlags));
    BindUsageRoundTrip(n.bindFlags, ResolveUsage(Wrap16(n.sampleCount)), n.bindFlags);
  }

  lemma Texture3DDescNativeRoundTrip(n: Texture3DDesc11)
    requires NativeUsageStable(UsageAndAccess(n.usage, n.cpuAccessFlags))
    requires n.mipLevels < TWO_16 && n.depth < TWO_16 && n.format < 1000
    ensures Texture3DDescToNative(Texture3DDescFromNative(n), n) == n
  {
    HeapNativeRoundTrip(UsageAndAccess(n.usage, n.cpuAccessFlags));
    BindUsageRoundTrip(n.bindFlags, {}, n.bindFlags);
  }

  // ---------------------------------------------------------------------------
  // Resource view descriptions
  // ---------------------------------------------------------------------------

  /** The anonymous union of a native view description, as the UINT words it occupies. */
  datatype ViewUnion = ViewUnion(w0: u32, w1: u32, w2: u32, w3: u32)

  /** D3D11_DEPTH_STENCIL_VIEW_DESC: Flags sits between the dimension and the union. */
  datatype DepthStencilViewDesc11 = DepthStencilViewDesc11(format: u32, dimension: u32, flags: u32, u: ViewUnion)

  /**
   * D3D11_RENDER_TARGET_VIEW_DESC, D3D11_SHADER_RESOURCE_VIEW_DESC and
   * D3D11_UNORDERED_ACCESS_VIEW_DESC, and the *_DESC1 forms of the render target
   * and unordered access views, whose PlaneSlice fits inside the same four words.
   */
  datatype ViewDesc11 = ViewDesc11(format: u32, dimension: u32, u: ViewUnion)

  /**
   * D3D11_SHADER_RESOURCE_VIEW_DESC1: its Texture2DArray member carries a
   * fifth word, PlaneSlice, past the end of the D3D11_SHADER_RESOURCE_VIEW_DESC union.
   */
  datatype ShaderResourceViewDesc1 = ShaderResourceViewDesc1(view: ViewDesc11, w4: u32)

  // D3D11_DSV_DIMENSION
  const DsvTexture1D: u32 := 1
  const DsvTexture1DArray: u32 := 2
  const DsvTexture2D: u32 := 3
  const DsvTexture2DArray: u32 := 4
  const DsvTexture2DMS: u32 := 5
  const DsvTexture2DMSArray: u32 := 6

  // D3D11_RTV_DIMENSION, D3D11_SRV_DIMENSION and D3D11_UAV_DIMENSION share these values
  const DimBuffer: u32 := 1
  const DimTexture1D: u32 := 2
  const DimTexture1DArray: u32 := 3
  const DimTexture2D: u32 := 4
  const DimTexture2DArray: u32 := 5
  const DimTexture2DMS: u32 := 6
  const DimTexture2DMSArray: u32 := 7
  const DimTexture3D: u32 := 8
  const DimTextureCube: u32 := 9
  const DimTextureCubeArray: u32 := 10
  const DimBufferEx: u32 := 11

  /** View types each conversion towards Direct3D 11 has a case for. */
  predicate DsvHandles(t: ResourceViewType)
  {
    t.Texture1D? || t.Texture1DArray? || t.Texture2D? || t.Texture2DArray?
    || t.Texture2DMultisample? || t.Texture2DMultisampleArray?
  }

  predicate RtvHandles(t: ResourceViewType)
  {
    DsvHandles(t) || t.Texture3D?
  }

  predicate SrvHandles(t: ResourceViewType)
  {
    !t.Unknown?
  }

  predicate UavHandles(t: ResourceViewType)
  {
    t.Buffer? || t.Texture1D? || t.Texture1DArray? || t.Texture2D? || t.Texture2DArray? || t.Texture3D?
  }

  predicate Multisampled(t: ResourceViewType)
  {
    t.Texture2DMultisample? || t.Texture2DMultisampleArray?
  }

  /** View types whose layer range a native view carries (depth slices for a 3D texture). */
  predicate LayeredView(t: ResourceViewType, depthSlices: bool)
  {
    t.Texture1DArray? || t.Texture2DArray? || t.Texture2DMultisampleArray? || (depthSlices && t.Texture3D?)
  }

  /**
   * The part of a view description that survives a native view: the type and
   * format, the first level unless multisampled, the layer range when the view
   * is layered, and the given level count.
   */
  function KeptRange(d: ResourceViewDesc, layered: bool, levels: u32): (r: ResourceViewDesc)
    ensures r.viewType == d.viewType && r.format == d.format && r.texture.levels == levels
  {
    var t := d.texture;
    ResourceViewDesc(d.viewType, d.format,
      TextureRange(if Multisampled(d.viewType) then 0 else t.firstLevel, levels,
                   if layered then t.firstLayer else 0, if layered then t.layers else 0))
  }

  /** `NumCubes` for a layer count: whole cubes, keeping the "all remaining" sentinel. */
  function CubesFromLayers(layers: u32): (cubes: u32)
    ensures cubes == U32_MAX <==> layers == U32_MAX
    ensures layers != U32_MAX ==> cubes * 6 <= layers < cubes * 6 + 6
  {
    if layers == U32_MAX then U32_MAX else layers / 6
  }

  /** The layer count for `NumCubes`: six faces a cube, in 32-bit unsigned arithmetic. */
  function LayersFromCubes(cubes: u32): (layers: u32)
    ensures layers == U32_MAX <==> cubes == U32_MAX
    ensures cubes != U32_MAX && cubes * 6 < TWO_32 ==> layers == cubes * 6
  {
    if cubes == U32_MAX then U32_MAX
    else
      var l := Wrap32(cubes * 6);
      assert l % 2 == 0 by { SixfoldWrapsEven(cubes); }
      l
  }

  /** A multiple of six stays even after dropping the bits above 32. */
  lemma SixfoldWrapsEven(c: u32)
    ensures Wrap32(c * 6) % 2 == 0
  {
    var q := (c * 6) / TWO_32;
    assert c * 6 == q * TWO_32 + Wrap32(c * 6);
    assert Wrap32(c * 6) == 2 * (3 * c - q * 0x8000_0000);
  }

  /** A layer count survives the cube conversion exactly when it is whole cubes or the sentinel. */
  lemma CubeLayersRoundTrip(layers: u32)
    ensures LayersFromCubes(CubesFromLayers(layers)) == layers <==> layers == U32_MAX || layers % 6 == 0
  {
  }

  /** A cube count survives the layer conversion exactly when its face count fits 32 bits. */
  lemma CubeCountRoundTrip(cubes: u32)
    ensures CubesFromLayers(LayersFromCubes(cubes)) == cubes <==> cubes == U32_MAX || cubes * 6 < TWO_32
  {
    if cubes != U32_MAX && cubes * 6 >= TWO_32 {
      assert LayersFromCubes(cubes) < cubes * 6;
    }
  }

  /** resource_view_desc -> D3D11_DEPTH_STENCIL_VIEW_DESC. Flags is left as it was. */
  function DsvToNative(desc: ResourceViewDesc, n: DepthStencilViewDesc11): (r: DepthStencilViewDesc11)
    ensures r.format == FormatToNative(desc.format) && r.flags == n.flags
    ensures !DsvHandles(desc.viewType) ==> r == n.(format := FormatToNative(desc.format))
  {
    var n := n.(format := FormatToNative(desc.format));
    var t := desc.texture;
    match desc.viewType
    case Texture1D => n.(dimension := DsvTexture1D, u := n.u.(w0 := t.firstLevel))
    case Texture1DArray => n.(dimension := DsvTexture1DArray, u := n.u.(w0 := t.firstLevel, w1 := t.firstLayer, w2 := t.layers))
    case Texture2D => n.(dimension := DsvTexture2D, u := n.u.(w0 := t.firstLevel))
    case Texture2DArray => n.(dimension := DsvTexture2DArray, u := n.u.(w0 := t.firstLevel, w1 := t.firstLayer, w2 := t.layers))
    case Texture2DMultisample => n.(dimension := DsvTexture2DMS)
    case Texture2DMultisampleArray => n.(dimension := DsvTexture2DMSArray, u := n.u.(w0 := t.firstLayer, w1 := t.layers))
    case _ => n
  }

  /** D3D11_DEPTH_STENCIL_VIEW_DESC -> resource_view_desc: a single-level view. */
  function DsvFromNative(n: DepthStencilViewDesc11): (d: ResourceViewDesc)
    ensures d.format == FormatFromNative(n.format) && d.texture.levels == 1
    ensures DsvHandles(d.viewType) || d.viewType.Unknown?
  {
    var f := FormatFromNative(n.format);
    var u := n.u;
    if n.dimension == DsvTexture1D then ResourceViewDesc(ResourceViewType.Texture1D, f, TextureRange(u.w0, 1, 0, 0))
    else if n.dimension == DsvTexture1DArray then ResourceViewDesc(ResourceViewType.Texture1DArray, f, TextureRange(u.w0, 1, u.w1, u.w2))
    else if n.dimension == DsvTexture2D then ResourceViewDesc(ResourceViewType.Texture2D, f, TextureRange(u.w0, 1, 0, 0))
    else if n.dimension == DsvTexture2DArray then ResourceViewDesc(ResourceViewType.Texture2DArray, f, TextureRange(u.w0, 1, u.w1, u.w2))
    else if n.dimension == DsvTexture2DMS then ResourceViewDesc(ResourceViewType.Texture2DMultisample, f, TextureRange(0, 1, 0, 0))
    else if n.dimension == DsvTexture2DMSArray then ResourceViewDesc(ResourceViewType.Texture2DMultisampleArray, f, TextureRange(0, 1, u.w0, u.w1))
    else ResourceViewDesc(ResourceViewType.Unknown, f, TextureRange(0, 1, 0, 0))
  }

  /** A depth-stencil view keeps its first level and its layer range; levels come back as 1. */
  lemma DsvRoundTrip(desc: ResourceViewDesc, n: DepthStencilViewDesc11)
    requires DsvHandles(desc.viewType) && desc.format < 1000
    ensures DsvFromNative(DsvToNative(desc, n)) == KeptRange(desc, LayeredView(desc.viewType, false), 1)
  {
  }

  /** Reading a native depth-stencil view back and writing it onto itself changes nothing. */
  lemma DsvNativeRoundTrip(n: DepthStencilViewDesc11)
    requires n.format < 1000
    ensures DsvToNative(DsvFromNative(n), n) == n
  {
  }

  /** resource_view_desc -> D3D11_RENDER_TARGET_VIEW_DESC. */
  function RtvToNative(desc: ResourceViewDesc, n: ViewDesc11): (r: ViewDesc11)
    ensures r.format == FormatToNative(desc.format)
    ensures !RtvHandles(desc.viewType) ==> r == n.(format := FormatToNative(desc.format))
  {
    var n := n.(format := FormatToNative(desc.format));
    var t := desc.texture;
    match desc.viewType
    case Texture1D => n.(dimension := DimTexture1D, u := n.u.(w0 := t.firstLevel))
    case Texture1DArray => n.(dimension := DimTexture1DArray, u := n.u.(w0 := t.firstLevel, w1 := t.firstLayer, w2 := t.layers))
    case Texture2D => n.(dimension := DimTexture2D, u := n.u.(w0 := t.firstLevel))
    case Texture2DArray => n.(dimension := DimTexture2DArray, u := n.u.(w0 := t.firstLevel, w1 := t.firstLayer, w2 := t.layers))
    case Texture2DMultisample => n.(dimension := DimTexture2DMS)
    case Texture2DMultisampleArray => n.(dimension := DimTexture2DMSArray, u := n.u.(w0 := t.firstLayer, w1 := t.layers))
    case Texture3D => n.(dimension := DimTexture3D, u := n.u.(w0 := t.firstLevel, w1 := t.firstLayer, w2 := t.layers))
    case _ => n
  }

  /**
   * resource_view_desc -> D3D11_RENDER_TARGET_VIEW_DESC1. The 2D cases are
   * spelled out (PlaneSlice is left as it was); the rest go through the
   * D3D11_RENDER_TARGET_VIEW_DESC conversion, and both agree everywhere.
   */
  function Rtv1ToNative(desc: ResourceViewDesc, n: ViewDesc11): (r: ViewDesc11)
    ensures r == RtvToNative(desc, n)
  {
    var t := desc.texture;
    if desc.viewType.Texture2D? then
      n.(format := FormatToNative(desc.format), dimension := DimTexture2D, u := n.u.(w0 := t.firstLevel))
    else if desc.viewType.Texture2DArray? then
      n.(format := FormatToNative(desc.format), dimension := DimTexture2DArray,
         u := n.u.(w0 := t.firstLevel, w1 := t.firstLayer, w2 := t.layers))
    else RtvToNative(desc, n)
  }

  /** D3D11_RENDER_TARGET_VIEW_DESC -> resource_view_desc: a single-level view. */
  function RtvFromNative(n: ViewDesc11): (d: ResourceViewDesc)
    ensures d.format == FormatFromNative(n.format) && d.texture.levels == 1
    ensures RtvHandles(d.viewType) || d.viewType.Unknown?
  {
    var f := FormatFromNative(n.format);
    var u := n.u;
    if n.dimension == DimTexture1D then ResourceViewDesc(ResourceViewType.Texture1D, f, TextureRange(u.w0, 1, 0, 0))
    else if n.dimension == DimTexture1DArray then ResourceViewDesc(ResourceViewType.Texture1DArray, f, TextureRange(u.w0, 1, u.w1, u.w2))
    else if n.dimension == DimTexture2D then ResourceViewDesc(ResourceViewType.Texture2D, f, TextureRange(u.w0, 1, 0, 0))
    else if n.dimension == DimTexture2DArray then ResourceViewDesc(ResourceViewType.Texture2DArray, f, TextureRange(u.w0, 1, u.w1, u.w2))
    else if n.dimension == DimTexture2DMS then ResourceViewDesc(ResourceViewType.Texture2DMultisample, f, TextureRange(0, 1, 0, 0))
    else if n.dimension == DimTexture2DMSArray then ResourceViewDesc(ResourceViewType.Texture2DMultisampleArray, f, TextureRange(0, 1, u.w0, u.w1))
    else if n.dimension == DimTexture3D then ResourceViewDesc(ResourceViewType.Texture3D, f, TextureRange(u.w0, 1, u.w1, u.w2))
    else ResourceViewDesc(ResourceViewType.Unknown, f, TextureRange(0, 1, 0, 0))
  }

  /** D3D11_RENDER_TARGET_VIEW_DESC1 -> resource_view_desc, agreeing with the DESC form. */
  function Rtv1FromNative(n: ViewDesc11): (d: ResourceViewDesc)
    ensures d == RtvFromNative(n)
  {
    var f := FormatFromNative(n.format);
    if n.dimension == DimTexture2D then ResourceViewDesc(ResourceViewType.Texture2D, f, TextureRange(n.u.w0, 1, 0, 0))
    else if n.dimension == DimTexture2DArray then ResourceViewDesc(ResourceViewType.Texture2DArray, f, TextureRange(n.u.w0, 1, n.u.w1, n.u.w2))
    else RtvFromNative(n)
  }

  /** A render-target view keeps its first level and its layer or depth-slice range; levels come back as 1. */
  lemma RtvRoundTrip(desc: ResourceViewDesc, n: ViewDesc11)
    requires RtvHandles(desc.viewType) && desc.format < 1000
    ensures RtvFromNative(RtvToNative(desc, n)) == KeptRange(desc, LayeredView(desc.viewType, true), 1)
  {
  }

  lemma RtvNativeRoundTrip(n: ViewDesc11)
    requires n.format < 1000
    ensures RtvToNative(RtvFromNative(n), n) == n
  {
  }

  /** resource_view_desc -> D3D11_SHADER_RESOURCE_VIEW_DESC. */
  function SrvToNative(desc: ResourceViewDesc, n: ViewDesc11): (r: ViewDesc11)
    ensures r.format == FormatToNative(desc.format)
    ensures !SrvHandles(desc.viewType) ==> r == n.(format := FormatToNative(desc.format))
    ensures desc.viewType.TextureCubeArray? ==> r.u.w3 == CubesFromLayers(desc.texture.layers)
  {
    var n := n.(format := FormatToNative(desc.format));
    var t := desc.texture;
    match desc.viewType
    case Buffer => n.(dimension := DimBuffer, u := n.u.(w0 := Wrap32(BufferOffset(desc)), w1 := Wrap32(BufferViewSize(desc))))
    case Texture1D => n.(dimension := DimTexture1D, u := n.u.(w0 := t.firstLevel, w1 := t.levels))
    case Texture1DArray => n.(dimension := DimTexture1DArray, u := ViewUnion(t.firstLevel, t.levels, t.firstLayer, t.layers))
    case Texture2D => n.(dimension := DimTexture2D, u := n.u.(w0 := t.firstLevel, w1 := t.levels))
    case Texture2DArray => n.(dimension := DimTexture2DArray, u := ViewUnion(t.firstLevel, t.levels, t.firstLayer, t.layers))
    case Texture2DMultisample => n.(dimension := DimTexture2DMS)
    case Texture2DMultisampleArray => n.(dimension := DimTexture2DMSArray, u := n.u.(w0 := t.firstLayer, w1 := t.layers))
    case Texture3D => n.(dimension := DimTexture3D, u := n.u.(w0 := t.firstLevel, w1 := t.levels))
    case TextureCube => n.(dimension := DimTextureCube, u := n.u.(w0 := t.firstLevel, w1 := t.levels))
    case TextureCubeArray =>
      n.(dimension := DimTextureCubeArray, u := ViewUnion(t.firstLevel, t.levels, t.firstLayer, CubesFromLayers(t.layers)))
    case Unknown => n
  }

  /**
   * resource_view_desc -> D3D11_SHADER_RESOURCE_VIEW_DESC1: agrees with the
   * DESC form on the first four union words and leaves the fifth alone.
   */
  function Srv1ToNative(desc: ResourceViewDesc, n: ShaderResourceViewDesc1): (r: ShaderResourceViewDesc1)
    ensures r == n.(view := SrvToNative(desc, n.view))
  {
    var t := desc.texture;
    var v := n.view.(format := FormatToNative(desc.format));
    if desc.viewType.Texture2D? then
      n.(view := v.(dimension := DimTexture2D, u := v.u.(w0 := t.firstLevel, w1 := t.levels)))
    else if desc.viewType.Texture2DArray? then
      n.(view := v.(dimension := DimTexture2DArray, u := ViewUnion(t.firstLevel, t.levels, t.firstLayer, t.layers)))
    else n.(view := SrvToNative(desc, n.view))
  }

  /**
   * D3D11_SHADER_RESOURCE_VIEW_DESC -> resource_view_desc. A BUFFEREX view
   * comes back with its element range but with type unknown, so that it is
   * not turned into a plain buffer view on the way back.
   */
  function SrvFromNative(n: ViewDesc11): (d: ResourceViewDesc)
    ensures d.format == FormatFromNative(n.format)
    ensures n.dimension == DimBufferEx ==> d.viewType.Unknown? && BufferOffset(d) == n.u.w0 && BufferViewSize(d) == n.u.w1
    ensures n.dimension == DimTextureCubeArray ==> d.viewType.TextureCubeArray? && d.texture.layers == LayersFromCubes(n.u.w3)
  {
    var f := FormatFromNative(n.format);
    var u := n.u;
    var zero := ResourceViewDesc(ResourceViewType.Unknown, f, ZeroRange);
    if n.dimension == DimBuffer then WithBufferRange(zero.(viewType := ResourceViewType.Buffer), u.w0, u.w1)
    else if n.dimension == DimTexture1D then ResourceViewDesc(ResourceViewType.Texture1D, f, TextureRange(u.w0, u.w1, 0, 0))
    else if n.dimension == DimTexture1DArray then ResourceViewDesc(ResourceViewType.Texture1DArray, f, TextureRange(u.w0, u.w1, u.w2, u.w3))
    else if n.dimension == DimTexture2D then ResourceViewDesc(ResourceViewType.Texture2D, f, TextureRange(u.w0, u.w1, 0, 0))
    else if n.dimension == DimTexture2DArray then ResourceViewDesc(ResourceViewType.Texture2DArray, f, TextureRange(u.w0, u.w1, u.w2, u.w3))
    else if n.dimension == DimTexture2DMS then ResourceViewDesc(ResourceViewType.Texture2DMultisample, f, ZeroRange)
    else if n.dimension == DimTexture2DMSArray then ResourceViewDesc(ResourceViewType.Texture2DMultisampleArray, f, TextureRange(0, 0, u.w0, u.w1))
    else if n.dimension == DimTexture3D then ResourceViewDesc(ResourceViewType.Texture3D, f, TextureRange(u.w0, u.w1, 0, 0))
    else if n.dimension == DimTextureCube then ResourceViewDesc(ResourceViewType.TextureCube, f, TextureRange(u.w0, u.w1, 0, 0))
    else if n.dimension == DimTextureCubeArray then
      ResourceViewDesc(ResourceViewType.TextureCubeArray, f, TextureRange(u.w0, u.w1, u.w2, LayersFromCubes(u.w3)))
    else if n.dimension == DimBufferEx then WithBufferRange(zero, u.w0, u.w1)
    else zero
  }

  /** D3D11_SHADER_RESOURCE_VIEW_DESC1 -> resource_view_desc, agreeing with the DESC form. */
  function Srv1FromNative(n: ShaderResourceViewDesc1): (d: ResourceViewDesc)
    ensures d == SrvFromNative(n.view)
  {
    var f := FormatFromNative(n.view.format);
    var u := n.view.u;
    if n.view.dimension == DimTexture2D then ResourceViewDesc(ResourceViewType.Texture2D, f, TextureRange(u.w0, u.w1, 0, 0))
    else if n.view.dimension == DimTexture2DArray then ResourceViewDesc(ResourceViewType.Texture2DArray, f, TextureRange(u.w0, u.w1, u.w2, u.w3))
    else SrvFromNative(n.view)
  }

  /**
   * A shader resource view keeps its level range and layer range; a buffer
   * view keeps the low 32 bits of its offset and size; a cube array keeps its
   * layers rounded down to whole cubes.
   */
  lemma SrvRoundTrip(desc: ResourceViewDesc, n: ViewDesc11)
    requires SrvHandles(desc.viewType) && desc.format < 1000
    ensures desc.viewType.Buffer? ==>
              SrvFromNative(SrvToNative(desc, n))
              == BufferViewDesc(desc.format, BufferOffset(desc) % TWO_32, BufferViewSize(desc) % TWO_32)
    ensures !desc.viewType.Buffer? && !desc.viewType.TextureCubeArray? ==>
              SrvFromNative(SrvToNative(desc, n))
              == KeptRange(desc, LayeredView(desc.viewType, false), if Multisampled(desc.viewType) then 0 else desc.texture.levels)
    ensures desc.viewType.TextureCubeArray? ==>
              SrvFromNative(SrvToNative(desc, n))
              == desc.(texture := desc.texture.(layers := LayersFromCubes(CubesFromLayers(desc.texture.layers))))
  {
  }

  /**
   * Reading a native shader resource view back and writing it onto itself
   * changes nothing, BUFFEREX included, unless a cube count's face count
   * overflows 32 bits.
   */
  lemma SrvNativeRoundTrip(n: ViewDesc11)
    requires n.format < 1000
    requires n.dimension == DimTextureCubeArray ==> n.u.w3 == U32_MAX || n.u.w3 * 6 < TWO_32
    ensures SrvToNative(SrvFromNative(n), n) == n
  {
    if n.dimension == DimTextureCubeArray {
      CubeCountRoundTrip(n.u.w3);
    }
  }

  /** resource_view_desc -> D3D11_UNORDERED_ACCESS_VIEW_DESC. */
  function UavToNative(desc: ResourceViewDesc, n: ViewDesc11): (r: ViewDesc11)
    ensures r.format == FormatToNative(desc.format)
    ensures !UavHandles(desc.viewType) ==> r == n.(format := FormatToNative(desc.format))
  {
    var n := n.(format := FormatToNative(desc.format));
    var t := desc.texture;
    match desc.viewType
    case Buffer => n.(dimension := DimBuffer, u := n.u.(w0 := Wrap32(BufferOffset(desc)), w1 := Wrap32(BufferViewSize(desc))))
    case Texture1D => n.(dimension := DimTexture1D, u := n.u.(w0 := t.firstLevel))
    case Texture1DArray => n.(dimension := DimTexture1DArray, u := n.u.(w0 := t.firstLevel, w1 := t.firstLayer, w2 := t.layers))
    case Texture2D => n.(dimension := DimTexture2D, u := n.u.(w0 := t.firstLevel))
    case Texture2DArray => n.(dimension := DimTexture2DArray, u := n.u.(w0 := t.firstLevel, w1 := t.firstLayer, w2 := t.layers))
    case Texture3D => n.(dimension := DimTexture3D, u := n.u.(w0 := t.firstLevel, w1 := t.firstLayer, w2 := t.layers))
    case _ => n
  }

  /** resource_view_desc -> D3D11_UNORDERED_ACCESS_VIEW_DESC1, agreeing with the DESC form. */
  function Uav1ToNative(desc: ResourceViewDesc, n: ViewDesc11): (r: ViewDesc11)
    ensures r == UavToNative(desc, n)
  {
    var t := desc.texture;
    if desc.viewType.Texture2D? then
      n.(format := FormatToNative(desc.format), dimension := DimTexture2D, u := n.u.(w0 := t.firstLevel))
    else if desc.viewType.Texture2DArray? then
      n.(format := FormatToNative(desc.format), dimension := DimTexture2DArray,
         u := n.u.(w0 := t.firstLevel, w1 := t.firstLayer, w2 := t.layers))
    else UavToNative(desc, n)
  }

  /**
   * D3D11_UNORDERED_ACCESS_VIEW_DESC -> resource_view_desc. Levels is set to 1
   * first; for a buffer the 64-bit offset then overwrites it with zero.
   */
  function UavFromNative(n: ViewDesc11): (d: ResourceViewDesc)
    ensures d.format == FormatFromNative(n.format)
    ensures UavHandles(d.viewType) || d.viewType.Unknown?
    ensures d.viewType.Buffer? <==> n.dimension == DimBuffer
    ensures d.viewType.Buffer? ==> BufferOffset(d) == n.u.w0 && BufferViewSize(d) == n.u.w1
    ensures !d.viewType.Buffer? ==> d.texture.levels == 1
  {
    var f := FormatFromNative(n.format);
    var u := n.u;
    if n.dimension == DimBuffer then
      WithBufferRange(ResourceViewDesc(ResourceViewType.Buffer, f, TextureRange(0, 1, 0, 0)), u.w0, u.w1)
    else if n.dimension == DimTexture1D then ResourceViewDesc(ResourceViewType.Texture1D, f, TextureRange(u.w0, 1, 0, 0))
    else if n.dimension == DimTexture1DArray then ResourceViewDesc(ResourceViewType.Texture1DArray, f, TextureRange(u.w0, 1, u.w1, u.w2))
    else if n.dimension == DimTexture2D then ResourceViewDesc(ResourceViewType.Texture2D, f, TextureRange(u.w0, 1, 0, 0))
    else if n.dimension == DimTexture2DArray then ResourceViewDesc(ResourceViewType.Texture2DArray, f, TextureRange(u.w0, 1, u.w1, u.w2))
    else if n.dimension == DimTexture3D then ResourceViewDesc(ResourceViewType.Texture3D, f, TextureRange(u.w0, 1, u.w1, u.w2))
    else ResourceViewDesc(ResourceViewType.Unknown, f, TextureRange(0, 1, 0, 0))
  }

  /** D3D11_UNORDERED_ACCESS_VIEW_DESC1 -> resource_view_desc, agreeing with the DESC form. */
  function Uav1FromNative(n: ViewDesc11): (d: ResourceViewDesc)
    ensures d == UavFromNative(n)
  {
    var f := FormatFromNative(n.format);
    if n.dimension == DimTexture2D then ResourceViewDesc(ResourceViewType.Texture2D, f, TextureRange(n.u.w0, 1, 0, 0))
    else if n.dimension == DimTexture2DArray then ResourceViewDesc(ResourceViewType.Texture2DArray, f, TextureRange(n.u.w0, 1, n.u.w1, n.u.w2))
    else UavFromNative(n)
  }

  /**
   * An unordered-access view keeps its first level and its layer or
   * depth-slice range with levels 1; a buffer view keeps the low 32 bits of
   * its offset and size.
   */
  lemma UavRoundTrip(desc: ResourceViewDesc, n: ViewDesc11)
    requires UavHandles(desc.viewType) && desc.format < 1000
    ensures desc.viewType.Buffer? ==>
              UavFromNative(UavToNative(desc, n))
              == BufferViewDesc(desc.format, BufferOffset(desc) % TWO_32, BufferViewSize(desc) % TWO_32)
    ensures !desc.viewType.Buffer? ==> UavFromNative(UavToNative(desc, n)) == KeptRange(desc, LayeredView(desc.viewType, true), 1)
  {
  }

  lemma UavNativeRoundTrip(n: ViewDesc11)
    requires n.format < 1000
    ensures UavToNative(UavFromNative(n), n) == n
  {
  }

  // ---------------------------------------------------------------------------
  // Pipeline state enumerations
  // ---------------------------------------------------------------------------

  /**
   * blend_op, cull_mode, compare_op and stencil_op each map to the Direct3D 11
   * value one above their own, computed as a uint32_t.
   */
  function OffsetEnumToNative(value: u32): (r: u32)
    ensures r == 0 <==> value == U32_MAX
  {
    Wrap32(value + 1)
  }

  /**
   * primitive_topology numbers its values as D3D11_PRIMITIVE_TOPOLOGY does;
   * the caller must not pass a triangle fan, which Direct3D 11 lacks.
   */
  function TopologyToNative(value: u32): (r: u32)
    requires value != TopologyTriangleFan
    ensures r != TopologyTriangleFan
  {
    value
  }

  /**
   * Every value of the four offset enumerations lands one above itself, so
   * distinct values stay distinct; a topology keeps its number.
   */
  lemma PipelineEnumConversions(a: u32, b: u32)
    ensures a < U32_MAX ==> OffsetEnumToNative(a) == a + 1
    ensures OffsetEnumToNative(a) == OffsetEnumToNative(b) <==> a == b
    ensures a != TopologyTriangleFan ==> TopologyToNative(a) == a
  {
  }

  datatype BlendFactor =
    | Zero | One
    | SourceColor | OneMinusSourceColor | DestColor | OneMinusDestColor
    | SourceAlpha | OneMinusSourceAlpha | DestAlpha | OneMinusDestAlpha
    | ConstantColor | OneMinusConstantColor | ConstantAlpha | OneMinusConstantAlpha
    | SourceAlphaSaturate
    | Source1Color | OneMinusSource1Color | Source1Alpha | OneMinusSource1Alpha
    | OtherFactor(value: u32)   // a value outside the enumeration

  /**
   * blend_factor -> D3D11_BLEND. Direct3D 11 has no separate constant alpha
   * factor, so the constant alpha factors share the constant colour values,
   * and a value outside the enumeration becomes D3D11_BLEND_ZERO.
   */
  function BlendFactorToNative(f: BlendFactor): (r: u32)
    ensures 1 <= r <= 19 && r != 12 && r != 13
  {
    match f
    case Zero => 1
    case One => 2
    case SourceColor => 3
    case OneMinusSourceColor => 4
    case DestColor => 9
    case OneMinusDestColor => 10
    case SourceAlpha => 5
    case OneMinusSourceAlpha => 6
    case DestAlpha => 7
    case OneMinusDestAlpha => 8
    case ConstantAlpha => 14
    case ConstantColor => 14
    case OneMinusConstantAlpha => 15
    case OneMinusConstantColor => 15
    case SourceAlphaSaturate => 11
    case Source1Color => 16
    case OneMinusSource1Color => 17
    case Source1Alpha => 18
    case OneMinusSource1Alpha => 19
    case OtherFactor(_) => 1
  }

  /** The factor Direct3D 11 actually applies for a blend_factor. */
  function EffectiveBlendFactor(f: BlendFactor): BlendFactor
  {
    match f
    case ConstantAlpha => ConstantColor
    case OneMinusConstantAlpha => OneMinusConstantColor
    case OtherFactor(_) => Zero
    case _ => f
  }

  /** The factor a D3D11_BLEND value stands for. */
  function BlendFactorFromNative(r: u32): BlendFactor
  {
    if r == 2 then One
    else if r == 3 then SourceColor
    else if r == 4 then OneMinusSourceColor
    else if r == 5 then SourceAlpha
    else if r == 6 then OneMinusSourceAlpha
    else if r == 7 then DestAlpha
    else if r == 8 then OneMinusDestAlpha
    else if r == 9 then DestColor
    else if r == 10 then OneMinusDestColor
    else if r == 11 then SourceAlphaSaturate
    else if r == 14 then ConstantColor
    else if r == 15 then OneMinusConstantColor
    else if r == 16 then Source1Color
    else if r == 17 then OneMinusSource1Color
    else if r == 18 then Source1Alpha
    else if r == 19 then OneMinusSource1Alpha
    else Zero
  }

  /** The native value names exactly the effective factor. */
  lemma BlendFactorRoundTrip(f: BlendFactor)
    ensures BlendFactorFromNative(BlendFactorToNative(f)) == EffectiveBlendFactor(f)
    ensures BlendFactorToNative(EffectiveBlendFactor(f)) == BlendFactorToNative(f)
  {
  }

  /** Two factors convert alike exactly when Direct3D 11 applies the same factor for both. */
  lemma BlendFactorCollisions(a: BlendFactor, b: BlendFactor)
    ensures BlendFactorToNative(a) == BlendFactorToNative(b) <==> EffectiveBlendFactor(a) == EffectiveBlendFactor(b)
  {
    BlendFactorRoundTrip(a);
    BlendFactorRoundTrip(b);
  }

  datatype FillMode = Solid | Wireframe | Point | OtherFill(value: u32)

  const FillWireframe: u32 := 2
  const FillSolid: u32 := 3

  /** fill_mode -> D3D11_FILL_MODE: only wireframe is drawn as wireframe; point and unknown modes fill. */
  function FillModeToNative(m: FillMode): (r: u32)
    ensures r == FillWireframe || r == FillSolid
    ensures r == FillWireframe <==> m.Wireframe?
  {
    match m
    case Wireframe => FillWireframe
    case _ => FillSolid
  }
}
