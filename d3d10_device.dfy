/**
 * The Direct3D 10 device backend. Direct3D 10 has no descriptor sets and no
 * pipeline objects of its own, so the backend emulates them: pipeline layouts
 * are merged descriptor ranges, descriptor sets are flat arrays of 64-bit
 * handles, and a graphics pipeline is a record of state objects whose handle
 * carries a set low bit.
 *
 * Calls into the Direct3D 10 runtime (Create*, CheckFormatSupport,
 * OpenSharedResource, GetSharedHandle, Map) are parameters of the operations:
 * each is the answer the runtime gives, `None` when the call fails.
 */
module D3D10Device {
  import opened Api

  /** A pointer to an object, aligned to at least 2 bytes, so its low bit is free; possibly null. */
  type AlignedPtr = p: u64 | p % 2 == 0

  /** A pointer the runtime returns on success: aligned and never null. */
  type ObjectPtr = p: AlignedPtr | p != 0 witness 2

  // ---------------------------------------------------------------------------
  // Capabilities
  // ---------------------------------------------------------------------------

  datatype DeviceCaps =
    | ComputeShader | GeometryShader | HullAndDomainShader | LogicOp
    | DualSourceBlend | IndependentBlend | FillModeNonSolid | ConservativeRasterization
    | BindRenderTargetsAndDepthStencil | MultiViewport
    | PartialPushConstantUpdates | PartialPushDescriptorUpdates | DrawInstanced | DrawOrDispatchIndirect
    | CopyBufferRegion | CopyBufferToTexture | Blit | ResolveRegion | CopyQueryPoolResults
    | SamplerCompare | SamplerAnisotropic | SamplerWithResourceView
    | SharedResource | SharedResourceNtHandle
    | OtherCaps(value: u32)   // a value outside the enumeration

  const FeatureLevel10_0: u32 := 0xa000

  /** The capabilities a Direct3D 10 device always has. */
  const AlwaysSupported: set<DeviceCaps> := {
    DualSourceBlend, IndependentBlend, FillModeNonSolid, BindRenderTargetsAndDepthStencil, MultiViewport,
    PartialPushDescriptorUpdates, DrawInstanced, CopyBufferRegion, SamplerCompare, SamplerAnisotropic,
    SharedResource }

  /**
   * Whether the device supports a capability: the fixed set, plus geometry
   * shaders from feature level 10_0 on. Everything else, shared NT handles and
   * unknown capabilities included, is unsupported.
   */
  function CheckCapability(cap: DeviceCaps, featureLevel: u32): (r: bool)
    ensures r <==> cap in AlwaysSupported || (cap == GeometryShader && featureLevel >= FeatureLevel10_0)
  {
    match cap
    case ComputeShader => false
    case GeometryShader => featureLevel >= FeatureLevel10_0
    case HullAndDomainShader | LogicOp => false
    case DualSourceBlend | IndependentBlend | FillModeNonSolid => true
    case ConservativeRasterization => false
    case BindRenderTargetsAndDepthStencil | MultiViewport => true
    case PartialPushConstantUpdates => false
    case PartialPushDescriptorUpdates | DrawInstanced => true
    case DrawOrDispatchIndirect => false
    case CopyBufferRegion => true
    case CopyBufferToTexture | Blit | ResolveRegion | CopyQueryPoolResults => false
    case SamplerCompare | SamplerAnisotropic => true
    case SamplerWithResourceView => false
    case SharedResource => true
    case _ => false
  }

  // ---------------------------------------------------------------------------
  // Format support
  // ---------------------------------------------------------------------------

  type FormatSupport = FlagWord

  const SupportShaderLoad: Bit := 8             // D3D10_FORMAT_SUPPORT_SHADER_LOAD 0x100
  const SupportShaderSample: Bit := 9           // D3D10_FORMAT_SUPPORT_SHADER_SAMPLE 0x200
  const SupportRenderTarget: Bit := 14          // D3D10_FORMAT_SUPPORT_RENDER_TARGET 0x4000
  const SupportDepthStencil: Bit := 16          // D3D10_FORMAT_SUPPORT_DEPTH_STENCIL 0x10000
  const SupportMultisampleResolve: Bit := 18    // D3D10_FORMAT_SUPPORT_MULTISAMPLE_RESOLVE 0x40000

  /** Every support bit a usage asks for is present (either shader bit serves shader resources). */
  predicate SupportCovers(usage: ResourceUsage, support: FormatSupport)
  {
    && (Overlaps(usage, DepthStencil) ==> SupportDepthStencil in support)
    && (Overlaps(usage, RenderTarget) ==> SupportRenderTarget in support)
    && (Overlaps(usage, ShaderResource) ==> SupportShaderLoad in support || SupportShaderSample in support)
    && (Overlaps(usage, ResolveSource + ResolveDest) ==> SupportMultisampleResolve in support)
  }

  /**
   * Whether a format can be used as asked, given the runtime's answer to
   * CheckFormatSupport (`None` when that call fails). Unordered access is
   * never available on Direct3D 10.
   */
  function CheckFormatSupport(usage: ResourceUsage, query: Option<FormatSupport>): (r: bool)
    ensures r <==> !Overlaps(usage, UnorderedAccess) && query.Some? && SupportCovers(usage, query.value)
  {
    if Overlaps(usage, UnorderedAccess) then false
    else if query.None? then false
    else
      var support := query.value;
      if Overlaps(usage, DepthStencil) && SupportDepthStencil !in support then false
      else if Overlaps(usage, RenderTarget) && SupportRenderTarget !in support then false
      else if Overlaps(usage, ShaderResource) && SupportShaderLoad !in support && SupportShaderSample !in support then false
      else if Overlaps(usage, ResolveSource + ResolveDest) && SupportMultisampleResolve !in support then false
      else true
  }

  /** Asking for less, or being offered more, never turns a supported format into an unsupported one. */
  lemma FormatSupportMonotonic(usage1: ResourceUsage, usage2: ResourceUsage, support1: FormatSupport, support2: FormatSupport)
    requires usage1 <= usage2 && support1 <= support2
    ensures CheckFormatSupport(usage2, Some(support1)) ==> CheckFormatSupport(usage1, Some(support2))
  {
    OverlapsSubset(usage1, usage2, UnorderedAccess);
    OverlapsSubset(usage1, usage2, DepthStencil);
    OverlapsSubset(usage1, usage2, RenderTarget);
    OverlapsSubset(usage1, usage2, ShaderResource);
    OverlapsSubset(usage1, usage2, ResolveSource + ResolveDest);
  }

  // ---------------------------------------------------------------------------
  // Resource creation
  // ---------------------------------------------------------------------------

  /** The runtime calls create_resource makes, in order. */
  datatype NativeCall = OpenSharedResource | CreateObject | GetSharedHandle | ReleaseCreated

  /**
   * The outcome of create_resource: the result, the resource handle, the
   * shared handle slot afterwards (`None` when the caller passed none) and the
   * runtime calls made.
   */
  datatype CreateResourceOutcome = CreateResourceOutcome(ok: bool, handle: u64, sharedHandle: Option<u64>, calls: seq<NativeCall>)

  predicate IsShared(desc: ResourceDesc)
  {
    Overlaps(desc.flags, FlagShared)
  }

  /** The resource types the runtime has a Create* call for. */
  predicate Creatable(t: ResourceType)
  {
    t.Buffer? || t.Texture1D? || t.Texture2D? || t.Texture3D?
  }

  /**
   * create_resource. `sharedSlot` is the caller's shared handle slot (`None`
   * for a null pointer, otherwise the handle it holds); `openResult`, `created`
   * and `exported` are the runtime's answers to OpenSharedResource, the
   * Create* call for the resource's type and GetSharedHandle.
   */
  function CreateResource(desc: ResourceDesc, sharedSlot: Option<u64>,
                          openResult: Option<ObjectPtr>, created: Option<ObjectPtr>, exported: Option<u64>): (r: CreateResourceOutcome)
    ensures CreateReturnContract(r.ok, r.handle) && (r.ok ==> r.handle != 0)
    // A shared request without a slot, or for an NT handle, fails before any runtime call.
    ensures IsShared(desc) && (sharedSlot.None? || Overlaps(desc.flags, FlagSharedNtHandle)) ==> !r.ok && r.calls == []
    // A shared request with a handle in its slot only opens that handle.
    ensures IsShared(desc) && !Overlaps(desc.flags, FlagSharedNtHandle) && sharedSlot.Some? && sharedSlot.value != 0 ==>
              r.calls == [OpenSharedResource] && r.ok == openResult.Some? && (r.ok ==> r.handle == openResult.value)
              && r.sharedHandle == sharedSlot
    // Otherwise a new resource is created; a shareable one that cannot be exported is released again.
    ensures !IsShared(desc) || (!Overlaps(desc.flags, FlagSharedNtHandle) && sharedSlot == Some(0)) ==>
              (r.ok <==> Creatable(desc.resourceType) && created.Some? && (!IsShared(desc) || exported.Some?))
              && (r.ok ==> r.handle == created.value)
              && (Creatable(desc.resourceType) && created.Some? && IsShared(desc) && exported.None? ==>
                    r.calls == [CreateObject, GetSharedHandle, ReleaseCreated])
              && (r.ok && IsShared(desc) ==> r.sharedHandle == exported)
  {
    var shared := IsShared(desc);
    if shared && (sharedSlot.None? || Overlaps(desc.flags, FlagSharedNtHandle)) then
      CreateResourceOutcome(false, 0, sharedSlot, [])
    else if shared && sharedSlot.value != 0 then
      if openResult.Some? then CreateResourceOutcome(true, openResult.value, sharedSlot, [OpenSharedResource])
      else CreateResourceOutcome(false, 0, sharedSlot, [OpenSharedResource])
    else if !Creatable(desc.resourceType) then
      CreateResourceOutcome(false, 0, sharedSlot, [])
    else if created.None? then
      CreateResourceOutcome(false, 0, sharedSlot, [CreateObject])
    else if !shared then
      CreateResourceOutcome(true, created.value, sharedSlot, [CreateObject])
    else if exported.None? then
      CreateResourceOutcome(false, 0, sharedSlot, [CreateObject, GetSharedHandle, ReleaseCreated])
    else
      CreateResourceOutcome(true, created.value, exported, [CreateObject, GetSharedHandle])
  }

  // ---------------------------------------------------------------------------
  // Mapping textures
  // ---------------------------------------------------------------------------

  datatype SubresourceData = SubresourceData(data: u64, rowPitch: u32, slicePitch: u32)

  const ZeroSubresourceData: SubresourceData := SubresourceData(0, 0, 0)

  // D3D10_RESOURCE_DIMENSION
  const DimensionTexture1D: u32 := 2
  const DimensionTexture2D: u32 := 3
  const DimensionTexture3D: u32 := 4

  /**
   * What Map writes into the caller's output for each texture type: a 1D
   * texture maps to a bare pointer, a 2D texture to a pointer and a row pitch,
   * a 3D texture to all three; the fields Map does not write keep the zero
   * they were given first.
   */
  function MappedOutput(dimension: u32, mapped: SubresourceData): (o: SubresourceData)
    requires dimension == DimensionTexture1D || dimension == DimensionTexture2D || dimension == DimensionTexture3D
    ensures o.data == mapped.data
    ensures o.rowPitch == if dimension == DimensionTexture1D then 0 else mapped.rowPitch
    ensures o.slicePitch == if dimension == DimensionTexture3D then mapped.slicePitch else 0
  {
    if dimension == DimensionTexture1D then SubresourceData(mapped.data, 0, 0)
    else if dimension == DimensionTexture2D then SubresourceData(mapped.data, mapped.rowPitch, 0)
    else mapped
  }

  /**
   * map_texture_region's checks around the runtime's Map call. `out` is the
   * caller's output (`None` for a null pointer), `hasBox` whether a region was
   * given, `dimension` the resource's type and `mapped` what Map reports (its
   * pointer, row pitch and depth pitch). Returns the result and the output
   * afterwards: zeroed first, then filled with the fields Map writes for that
   * type of texture.
   */
  function MapTextureRegion(out: Option<SubresourceData>, hasBox: bool, dimension: u32, mapped: Option<SubresourceData>): (r: (bool, Option<SubresourceData>))
    ensures out.None? ==> r == (false, None)
    ensures out.Some? ==> r.1.Some?
    ensures out.Some? && (hasBox || mapped.None?) ==> r == (false, Some(ZeroSubresourceData))
    ensures out.Some? && dimension != DimensionTexture1D && dimension != DimensionTexture2D && dimension != DimensionTexture3D ==>
              r == (false, Some(ZeroSubresourceData))
    ensures r.0 <==> out.Some? && !hasBox && mapped.Some?
                     && (dimension == DimensionTexture1D || dimension == DimensionTexture2D || dimension == DimensionTexture3D)
    ensures r.0 && dimension == DimensionTexture1D ==> r.1 == Some(SubresourceData(mapped.value.data, 0, 0))
    ensures r.0 && dimension == DimensionTexture2D ==> r.1 == Some(SubresourceData(mapped.value.data, mapped.value.rowPitch, 0))
    ensures r.0 && dimension == DimensionTexture3D ==> r.1 == mapped
  {
    if out.None? then (false, None)
    else if hasBox then (false, Some(ZeroSubresourceData))
    else if dimension == DimensionTexture1D || dimension == DimensionTexture2D || dimension == DimensionTexture3D then
      if mapped.Some? then (true, Some(MappedOutput(dimension, mapped.value))) else (false, Some(ZeroSubresourceData))
    else (false, Some(ZeroSubresourceData))
  }

  // ---------------------------------------------------------------------------
  // Pipelines
  // ---------------------------------------------------------------------------

  /** pipeline_state::primitive_topology, the only dynamic state Direct3D 10 can honour. */
  const DynamicStatePrimitiveTopology: u32 := 900

  datatype PipelineStage =
    | AllGraphics | InputAssembler | VertexShaderStage | GeometryShaderStage | PixelShaderStage
    | RasterizerStage | DepthStencilStage | OutputMergerStage
    | OtherStage(value: u32)

  /** The parts of a graphics pipeline description the backend looks at. */
  datatype GraphicsDesc = GraphicsDesc(
    vertexCodeSize: u64, hullCodeSize: u64, domainCodeSize: u64, geometryCodeSize: u64, pixelCodeSize: u64,
    conservativeRasterization: bool, logicOpEnable: bool, topology: u32,
    sampleMask: u32, stencilReference: u32)

  /**
   * State objects of a pipeline, in the order they are created: vertex,
   * geometry and pixel shader, input layout, blend, rasterizer and
   * depth-stencil state.
   */
  const SubObjectCount: nat := 7

  /** Which state objects a graphics pipeline creates: shaders only when given code. */
  function Wanted(desc: GraphicsDesc): (w: seq<bool>)
    ensures |w| == SubObjectCount
    ensures forall i :: 3 <= i < SubObjectCount ==> w[i]
  {
    [desc.vertexCodeSize != 0, desc.geometryCodeSize != 0, desc.pixelCodeSize != 0, true, true, true, true]
  }

  /** What Direct3D 10 cannot express in a pipeline. */
  predicate Unsupported(desc: GraphicsDesc)
  {
    desc.hullCodeSize != 0 || desc.domainCodeSize != 0 || desc.conservativeRasterization
    || desc.logicOpEnable || desc.topology == TopologyTriangleFan
  }

  /** The record a graphics pipeline handle points to. */
  datatype PipelineRecord = PipelineRecord(objects: seq<AlignedPtr>, topology: u32, sampleMask: u32, stencilReference: u32)

  /**
   * The outcome of a pipeline creation: result, handle, the record behind a
   * graphics pipeline handle, and the state objects released again on failure.
   */
  datatype PipelineOutcome = PipelineOutcome(ok: bool, handle: u64, record: Option<PipelineRecord>, released: seq<AlignedPtr>)

  /** The first state object that was wanted but could not be created, or the count when there is none. */
  function FirstFailure(wanted: seq<bool>, results: seq<Option<AlignedPtr>>): (i: nat)
    requires |wanted| == |results|
    ensures i <= |wanted|
    ensures forall j :: 0 <= j < i ==> (wanted[j] ==> results[j].Some?)
    ensures i < |wanted| ==> wanted[i] && results[i].None?
    decreases |wanted|
  {
    if |wanted| == 0 then 0
    else if wanted[0] && results[0].None? then 0
    else 1 + FirstFailure(wanted[1..], results[1..])
  }

  /** The non-null state objects held after the first n creations. */
  function Held(wanted: seq<bool>, results: seq<Option<AlignedPtr>>, n: nat): (held: seq<AlignedPtr>)
    requires |wanted| == |results| && n <= |wanted|
    ensures forall p :: p in held ==> p != 0 && exists j :: 0 <= j < n && wanted[j] && results[j] == Some(p)
    ensures forall j :: 0 <= j < n && wanted[j] && results[j].Some? && results[j].value != 0 ==> results[j].value in held
  {
    if n == 0 then []
    else
      var rest := Held(wanted, results, n - 1);
      if wanted[n - 1] && results[n - 1].Some? && results[n - 1].value != 0 then rest + [results[n - 1].value] else rest
  }

  /**
   * create_graphics_pipeline. `results` are the answers of the seven state
   * object creations and `record` the address of the new record.
   */
  function CreateGraphicsPipeline(desc: GraphicsDesc, results: seq<Option<AlignedPtr>>, record: ObjectPtr): (r: PipelineOutcome)
    requires |results| == SubObjectCount
    ensures CreateReturnContract(r.ok, r.handle)
    ensures Unsupported(desc) ==> !r.ok && r.released == []
    ensures r.ok <==> !Unsupported(desc) && forall i :: 0 <= i < SubObjectCount && Wanted(desc)[i] ==> results[i].Some?
    ensures r.ok ==> r.handle % 2 == 1 && r.handle - 1 == record && r.released == []
    ensures r.ok ==> r.record.Some? && |r.record.value.objects| == SubObjectCount
                     && (forall i :: 0 <= i < SubObjectCount ==>
                           r.record.value.objects[i] == if Wanted(desc)[i] then results[i].value else 0)
                     && r.record.value.topology == desc.topology
    ensures !r.ok ==> r.record.None?
    // On failure exactly the state objects created so far are released.
    ensures !r.ok ==> forall p :: p in r.released ==>
              p != 0 && exists j :: 0 <= j < FirstFailure(Wanted(desc), results) && Wanted(desc)[j] && results[j] == Some(p)
    ensures !r.ok && !Unsupported(desc) ==>
              forall j :: 0 <= j < FirstFailure(Wanted(desc), results) && Wanted(desc)[j] && results[j].Some? && results[j].value != 0
                ==> results[j].value in r.released
  {
    var wanted := Wanted(desc);
    if Unsupported(desc) then PipelineOutcome(false, 0, None, [])
    else
      var failed := FirstFailure(wanted, results);
      if failed < SubObjectCount then
        PipelineOutcome(false, 0, None, Held(wanted, results, failed))
      else
        var objects := seq(SubObjectCount, i requires 0 <= i < SubObjectCount => if wanted[i] then results[i].value else 0);
        PipelineOutcome(true, record + 1, Some(PipelineRecord(objects, desc.topology, desc.sampleMask, desc.stencilReference)), [])
  }

  /** The slot of a single-stage pipeline among the state objects. */
  function StageSlot(stage: PipelineStage): (i: nat)
    requires !stage.AllGraphics? && !stage.OtherStage?
    ensures i < SubObjectCount
  {
    match stage
    case VertexShaderStage => 0
    case GeometryShaderStage => 1
    case PixelShaderStage => 2
    case InputAssembler => 3
    case OutputMergerStage => 4
    case RasterizerStage => 5
    case DepthStencilStage => 6
  }

  /**
   * The pipeline create_pipeline builds for a stage once its dynamic states
   * are accepted: a graphics pipeline record, or one state object whose
   * pointer is the handle.
   */
  function PipelineForStage(stage: PipelineStage, desc: GraphicsDesc, results: seq<Option<AlignedPtr>>, record: ObjectPtr): (r: PipelineOutcome)
    requires |results| == SubObjectCount
    ensures CreateReturnContract(r.ok, r.handle)
    ensures stage.OtherStage? ==> !r.ok
    ensures stage.AllGraphics? ==> r == CreateGraphicsPipeline(desc, results, record)
    ensures !stage.AllGraphics? && !stage.OtherStage? ==>
              && (r.ok <==> results[StageSlot(stage)].Some?)
              && (r.ok ==> r.handle == results[StageSlot(stage)].value)
              && r.record.None? && r.released == []
    ensures r.ok && !stage.AllGraphics? ==> r.handle % 2 == 0 && r.record.None?
  {
    match stage
    case AllGraphics => CreateGraphicsPipeline(desc, results, record)
    case OtherStage(_) => PipelineOutcome(false, 0, None, [])
    case _ =>
      var result := results[StageSlot(stage)];
      if result.Some? then PipelineOutcome(true, result.value, None, []) else PipelineOutcome(false, 0, None, [])
  }

  predicate OnlyTopologyDynamic(dynamicStates: seq<u32>)
  {
    forall i :: 0 <= i < |dynamicStates| ==> dynamicStates[i] == DynamicStatePrimitiveTopology
  }

  /**
   * create_pipeline: every dynamic state must be the primitive topology;
   * then the stage decides what is built.
   */
  method CreatePipeline(stage: PipelineStage, desc: GraphicsDesc, dynamicStates: seq<u32>,
                        results: seq<Option<AlignedPtr>>, record: ObjectPtr) returns (r: PipelineOutcome)
    requires |results| == SubObjectCount
    ensures !OnlyTopologyDynamic(dynamicStates) ==> r == PipelineOutcome(false, 0, None, [])
    ensures OnlyTopologyDynamic(dynamicStates) ==> r == PipelineForStage(stage, desc, results, record)
  {
    var i := 0;
    while i < |dynamicStates|
      invariant 0 <= i <= |dynamicStates|
      invariant forall j :: 0 <= j < i ==> dynamicStates[j] == DynamicStatePrimitiveTopology
    {
      if dynamicStates[i] != DynamicStatePrimitiveTopology {
        return PipelineOutcome(false, 0, None, []);
      }
      i := i + 1;
    }
    r := PipelineForStage(stage, desc, results, record);
  }

  /** What destroy_pipeline does with a handle. */
  datatype DestroyAction = DeleteRecord(address: u64) | ReleaseObject(target: u64) | NoAction

  /** destroy_pipeline: a set low bit marks a pipeline record; otherwise a non-zero handle is a state object. */
  function DestroyPipeline(handle: u64): (a: DestroyAction)
    ensures a.DeleteRecord? <==> handle % 2 == 1
    ensures a.NoAction? <==> handle == 0
    ensures a.DeleteRecord? ==> a.address == handle - 1
    ensures a.ReleaseObject? ==> a.target == handle
  {
    if handle % 2 == 1 then DeleteRecord(handle - 1)
    else if handle != 0 then ReleaseObject(handle)
    else NoAction
  }

  /**
   * Destroying what create_pipeline built undoes the right thing: a graphics
   * pipeline deletes its record, a single state object is released, and a
   * failed creation's zero handle does nothing.
   */
  lemma DestroyCreatedPipeline(stage: PipelineStage, desc: GraphicsDesc, results: seq<Option<AlignedPtr>>, record: ObjectPtr)
    requires |results| == SubObjectCount
    ensures var r := PipelineForStage(stage, desc, results, record);
      && (r.ok && stage.AllGraphics? ==> DestroyPipeline(r.handle) == DeleteRecord(record))
      && (r.ok && !stage.AllGraphics? && r.handle != 0 ==> DestroyPipeline(r.handle) == ReleaseObject(r.handle))
      && (!r.ok ==> DestroyPipeline(r.handle) == NoAction)
  {
  }

  // ---------------------------------------------------------------------------
  // Pipeline layouts
  // ---------------------------------------------------------------------------

  datatype DescriptorType =
    | Sampler | SamplerWithResourceView | ShaderResourceView | UnorderedAccessView | ConstantBuffer
    | OtherDescriptorType(value: u32)

  type ShaderStages = FlagWord

  datatype DescriptorRange = DescriptorRange(
    binding: u32, dxRegisterIndex: u32, dxRegisterSpace: u32, count: u32, arraySize: u32,
    rangeType: DescriptorType, visibility: ShaderStages)

  /** A value-initialised descriptor_range: every field zero (type zero is sampler). */
  const ZeroDescriptorRange: DescriptorRange := DescriptorRange(0, 0, 0, 0, 0, Sampler, {})

  datatype LayoutParam =
    | DescriptorSetParam(ranges: seq<DescriptorRange>)
    | PushDescriptors(range: DescriptorRange)
    | PushConstants(dxRegisterIndex: u32, dxRegisterSpace: u32)
    | OtherParam(value: u32)

  /**
   * How a merged range's count grows when another range joins it: as the code
   * is written (by the binding distance alone) or as the merge needs (to the
   * end of whichever range reaches further).
   */
  datatype CountRule = AsWritten | Covering

  /**
   * Whether another range can join a merged range: same type and register
   * space, a single descriptor per binding, and register indices exactly as far
   * apart as the bindings (distances taken in 32-bit unsigned arithmetic).
   */
  predicate Joinable(merged: DescriptorRange, range: DescriptorRange)
  {
    && range.rangeType == merged.rangeType && range.arraySize <= 1 && range.dxRegisterSpace == merged.dxRegisterSpace
    && if range.binding >= merged.binding
       then Wrap32(range.dxRegisterIndex - merged.dxRegisterIndex) == range.binding - merged.binding
       else Wrap32(merged.dxRegisterIndex - range.dxRegisterIndex) == merged.binding - range.binding
  }

  function Max(a: int, b: int): int { if a >= b then a else b }

  /** One range joining a merged range; the rule decides the new count. */
  function JoinRange(rule: CountRule, merged: DescriptorRange, range: DescriptorRange): (r: DescriptorRange)
    requires Joinable(merged, range)
    ensures r.binding == if range.binding >= merged.binding then merged.binding else range.binding
    ensures r.dxRegisterIndex == if range.binding >= merged.binding then merged.dxRegisterIndex else range.dxRegisterIndex
    ensures r.rangeType == merged.rangeType && r.dxRegisterSpace == merged.dxRegisterSpace && r.arraySize == merged.arraySize
    ensures r.visibility == merged.visibility + range.visibility
    ensures rule == Covering && merged.binding + merged.count < TWO_32 && range.binding + range.count < TWO_32 ==>
              r.binding + r.count == Max(merged.binding + merged.count, range.binding + range.count)
  {
    if range.binding >= merged.binding then
      var distance := range.binding - merged.binding;
      var count := match rule
        case AsWritten => Wrap32(merged.count + distance)
        case Covering => Wrap32(Max(merged.count, distance + range.count));
      merged.(count := count, visibility := merged.visibility + range.visibility)
    else
      var distance := merged.binding - range.binding;
      var count := match rule
        case AsWritten => Wrap32(merged.count + distance)
        case Covering => Wrap32(Max(merged.count + distance, range.count));
      merged.(binding := range.binding, dxRegisterIndex := range.dxRegisterIndex,
              count := count, visibility := merged.visibility + range.visibility)
  }

  /** The first range of a descriptor set may stand alone. */
  predicate Leads(range: DescriptorRange)
  {
    range.arraySize <= 1 && range.dxRegisterSpace == 0
  }

  /** The single range a descriptor set's ranges merge into, joined from first to last. */
  function MergeRanges(rule: CountRule, ranges: seq<DescriptorRange>): (r: Option<DescriptorRange>)
    requires |ranges| > 0
    decreases |ranges|
  {
    if |ranges| == 1 then
      if Leads(ranges[0]) then Some(ranges[0]) else None
    else
      var merged := MergeRanges(rule, ranges[..|ranges| - 1]);
      var last := ranges[|ranges| - 1];
      if merged.Some? && Joinable(merged.value, last) then Some(JoinRange(rule, merged.value, last)) else None
  }

  /** The lowest binding of a list of ranges. */
  function MinBinding(ranges: seq<DescriptorRange>): int
    requires |ranges| > 0
    decreases |ranges|
  {
    if |ranges| == 1 then ranges[0].binding
    else
      var rest := MinBinding(ranges[..|ranges| - 1]);
      var last := ranges[|ranges| - 1];
      if last.binding < rest then last.binding else rest
  }

  /** One past the highest binding a list of ranges uses. */
  function EndBinding(ranges: seq<DescriptorRange>): int
    requires |ranges| > 0
    decreases |ranges|
  {
    if |ranges| == 1 then ranges[0].binding + ranges[0].count
    else Max(EndBinding(ranges[..|ranges| - 1]), ranges[|ranges| - 1].binding + ranges[|ranges| - 1].count)
  }

  /** MinBinding is the lowest binding and EndBinding the furthest end among the ranges. */
  lemma {:induction false} BindingBounds(ranges: seq<DescriptorRange>)
    requires |ranges| > 0
    ensures forall i :: 0 <= i < |ranges| ==> MinBinding(ranges) <= ranges[i].binding
    ensures forall i :: 0 <= i < |ranges| ==> ranges[i].binding + ranges[i].count <= EndBinding(ranges)
    ensures exists i :: 0 <= i < |ranges| && MinBinding(ranges) == ranges[i].binding
    ensures exists i :: 0 <= i < |ranges| && EndBinding(ranges) == ranges[i].binding + ranges[i].count
    decreases |ranges|
  {
    if |ranges| > 1 {
      var prefix := ranges[..|ranges| - 1];
      BindingBounds(prefix);
      var i :| 0 <= i < |prefix| && MinBinding(prefix) == prefix[i].binding;
      var j :| 0 <= j < |prefix| && EndBinding(prefix) == prefix[j].binding + prefix[j].count;
      assert prefix[i] == ranges[i] && prefix[j] == ranges[j];
      forall k | 0 <= k < |ranges| - 1 ensures ranges[k] == prefix[k] { }
      var n := |ranges| - 1;
      if ranges[n].binding < MinBinding(prefix) {
        assert MinBinding(ranges) == ranges[n].binding;
      } else {
        assert MinBinding(ranges) == ranges[i].binding;
      }
      if ranges[n].binding + ranges[n].count > EndBinding(prefix) {
        assert EndBinding(ranges) == ranges[n].binding + ranges[n].count;
      } else {
        assert EndBinding(ranges) == ranges[j].binding + ranges[j].count;
      }
    } else {
      assert MinBinding(ranges) == ranges[0].binding;
    }
  }

  /** Every range ends within 32 bits, so no count computed while merging them wraps. */
  predicate EndsFit(ranges: seq<DescriptorRange>)
  {
    forall i :: 0 <= i < |ranges| ==> ranges[i].binding + ranges[i].count < TWO_32
  }

  /**
   * With the covering rule the merged range spans exactly the bindings the
   * ranges use: it starts at the lowest binding and ends where the furthest
   * range ends.
   */
  lemma {:induction false} MergeCovers(ranges: seq<DescriptorRange>)
    requires |ranges| > 0 && EndsFit(ranges) && MergeRanges(Covering, ranges).Some?
    ensures var m := MergeRanges(Covering, ranges).value;
      m.binding == MinBinding(ranges) && m.binding + m.count == EndBinding(ranges)
    decreases |ranges|
  {
    if |ranges| > 1 {
      var prefix := ranges[..|ranges| - 1];
      assert EndsFit(prefix) by {
        forall i | 0 <= i < |prefix| ensures prefix[i].binding + prefix[i].count < TWO_32 {
          assert prefix[i] == ranges[i];
        }
      }
      MergeCovers(prefix);
      BindingBounds(prefix);
      var j :| 0 <= j < |prefix| && EndBinding(prefix) == prefix[j].binding + prefix[j].count;
      assert prefix[j] == ranges[j];
    }
  }

  /** A merged range is visible to exactly the shader stages of the ranges it merges, under either count rule. */
  lemma {:induction false} MergeVisibility(rule: CountRule, ranges: seq<DescriptorRange>)
    requires |ranges| > 0 && MergeRanges(rule, ranges).Some?
    ensures forall k :: k in MergeRanges(rule, ranges).value.visibility <==>
              exists i :: 0 <= i < |ranges| && k in ranges[i].visibility
    decreases |ranges|
  {
    if |ranges| > 1 {
      var prefix := ranges[..|ranges| - 1];
      MergeVisibility(rule, prefix);
      forall k ensures k in MergeRanges(rule, ranges).value.visibility <==>
                         exists i :: 0 <= i < |ranges| && k in ranges[i].visibility
      {
        if exists i :: 0 <= i < |ranges| && k in ranges[i].visibility {
          var i :| 0 <= i < |ranges| && k in ranges[i].visibility;
          if i < |prefix| {
            assert prefix[i] == ranges[i];
          }
        }
        if exists i :: 0 <= i < |prefix| && k in prefix[i].visibility {
          var i :| 0 <= i < |prefix| && k in prefix[i].visibility;
          assert prefix[i] == ranges[i];
        }
      }
    }
  }

  /** Two merged ranges that differ at most in their count. */
  predicate SameButCount(a: DescriptorRange, b: DescriptorRange)
  {
    a.binding == b.binding && a.dxRegisterIndex == b.dxRegisterIndex && a.dxRegisterSpace == b.dxRegisterSpace
    && a.arraySize == b.arraySize && a.rangeType == b.rangeType && a.visibility == b.visibility
  }

  /** Which ranges are accepted does not depend on the count rule; neither do binding, registers and visibility. */
  lemma {:induction false} MergeRulesAgree(ranges: seq<DescriptorRange>)
    requires |ranges| > 0
    ensures MergeRanges(AsWritten, ranges).Some? <==> MergeRanges(Covering, ranges).Some?
    ensures MergeRanges(Covering, ranges).Some? ==>
              SameButCount(MergeRanges(AsWritten, ranges).value, MergeRanges(Covering, ranges).value)
    decreases |ranges|
  {
    if |ranges| > 1 {
      var prefix := ranges[..|ranges| - 1];
      MergeRulesAgree(prefix);
      var a := MergeRanges(AsWritten, prefix);
      var c := MergeRanges(Covering, prefix);
      if c.Some? {
        JoinRulesAgree(a.value, c.value, ranges[|ranges| - 1]);
      }
    }
  }

  lemma JoinRulesAgree(a: DescriptorRange, c: DescriptorRange, range: DescriptorRange)
    requires SameButCount(a, c)
    ensures Joinable(a, range) <==> Joinable(c, range)
    ensures Joinable(a, range) ==> SameButCount(JoinRange(AsWritten, a, range), JoinRange(Covering, c, range))
  {
  }

  /**
   * As written, the count grows by binding distances and ignores the counts of
   * the ranges that join: a one-descriptor range at binding 0 followed by a
   * four-descriptor range at binding 1 uses bindings 0 to 4, but merges into a
   * count of 2; three one-descriptor ranges at bindings 0, 1 and 2 merge into a
   * count of 4. The covering rule gives 5 and 3.
   */
  lemma MergeCountAsWritten()
    ensures var ranges := [DescriptorRange(0, 0, 0, 1, 1, ConstantBuffer, {}), DescriptorRange(1, 1, 0, 4, 1, ConstantBuffer, {})];
      && EndBinding(ranges) - MinBinding(ranges) == 5
      && MergeRanges(AsWritten, ranges).Some? && MergeRanges(AsWritten, ranges).value.count == 2
      && MergeRanges(Covering, ranges).Some? && MergeRanges(Covering, ranges).value.count == 5
    ensures var ranges := [DescriptorRange(0, 0, 0, 1, 1, Sampler, {}), DescriptorRange(1, 1, 0, 1, 1, Sampler, {}),
                           DescriptorRange(2, 2, 0, 1, 1, Sampler, {})];
      && EndBinding(ranges) - MinBinding(ranges) == 3
      && MergeRanges(AsWritten, ranges).Some? && MergeRanges(AsWritten, ranges).value.count == 4
      && MergeRanges(Covering, ranges).Some? && MergeRanges(Covering, ranges).value.count == 3
  {
    JoinedCountOfTwo();
    JoinedCountOfThree();
  }

  /** The two-range case of `MergeCountAsWritten`. */
  lemma JoinedCountOfTwo()
    ensures var ranges := [DescriptorRange(0, 0, 0, 1, 1, ConstantBuffer, {}), DescriptorRange(1, 1, 0, 4, 1, ConstantBuffer, {})];
      && EndBinding(ranges) - MinBinding(ranges) == 5
      && MergeRanges(AsWritten, ranges).Some? && MergeRanges(AsWritten, ranges).value.count == 2
      && MergeRanges(Covering, ranges).Some? && MergeRanges(Covering, ranges).value.count == 5
  {
    var two := [DescriptorRange(0, 0, 0, 1, 1, ConstantBuffer, {}), DescriptorRange(1, 1, 0, 4, 1, ConstantBuffer, {})];
    assert two[..1] == [two[0]];
  }

  /** The three-range case of `MergeCountAsWritten`. */
  lemma JoinedCountOfThree()
    ensures var ranges := [DescriptorRange(0, 0, 0, 1, 1, Sampler, {}), DescriptorRange(1, 1, 0, 1, 1, Sampler, {}),
                           DescriptorRange(2, 2, 0, 1, 1, Sampler, {})];
      && EndBinding(ranges) - MinBinding(ranges) == 3
      && MergeRanges(AsWritten, ranges).Some? && MergeRanges(AsWritten, ranges).value.count == 4
      && MergeRanges(Covering, ranges).Some? && MergeRanges(Covering, ranges).value.count == 3
  {
    var three := [DescriptorRange(0, 0, 0, 1, 1, Sampler, {}), DescriptorRange(1, 1, 0, 1, 1, Sampler, {}),
                  DescriptorRange(2, 2, 0, 1, 1, Sampler, {})];
    assert three[..2] == [three[0], three[1]];
    assert three[..2][..1] == [three[0]];
    var written, covered := JoinRange(AsWritten, three[0], three[1]), JoinRange(Covering, three[0], three[1]);
    assert written.count == 2 && covered.count == 2;
    assert MergeRanges(AsWritten, three[..2]) == Some(written);
    assert MergeRanges(Covering, three[..2]) == Some(covered);
  }

  /** The register index a range would have at binding 0, in 32-bit unsigned arithmetic. */
  function RegisterOffset(range: DescriptorRange): u32
  {
    Wrap32(range.dxRegisterIndex - range.binding)
  }

  /**
   * Whether a range can be merged with a descriptor set whose first range is
   * `first`: same type, a single descriptor per binding, register space 0, and
   * registers shifted from bindings by the same offset.
   */
  predicate AgreesWith(first: DescriptorRange, range: DescriptorRange)
  {
    && range.rangeType == first.rangeType && range.arraySize <= 1 && range.dxRegisterSpace == 0
    && RegisterOffset(range) == RegisterOffset(first)
  }

  /** Every range of a descriptor set agrees with its first one. */
  predicate AllAgree(ranges: seq<DescriptorRange>)
    requires |ranges| > 0
  {
    forall i :: 0 <= i < |ranges| ==> AgreesWith(ranges[0], ranges[i])
  }

  /** Adding a distance below 2^32 wraps to that distance exactly when the base is a multiple of 2^32. */
  lemma WrapShift(x: int, d: int)
    requires 0 <= d < TWO_32
    ensures Wrap32(x + d) == d <==> Wrap32(x) == 0
  {
  }

  /** Two integers are equal modulo 2^32 exactly when their difference is a multiple of it. */
  lemma WrapDifference(a: int, c: int)
    ensures Wrap32(a - c) == 0 <==> Wrap32(a) == Wrap32(c)
  {
  }

  /** Against a merged range that keeps the first range's type, space and offset, joining is agreeing. */
  lemma JoinableAgrees(first: DescriptorRange, merged: DescriptorRange, range: DescriptorRange)
    requires merged.rangeType == first.rangeType && merged.dxRegisterSpace == 0
    requires RegisterOffset(merged) == RegisterOffset(first)
    ensures Joinable(merged, range) <==> AgreesWith(first, range)
  {
    var a := range.dxRegisterIndex - range.binding;
    var c := merged.dxRegisterIndex - merged.binding;
    if range.binding >= merged.binding {
      WrapShift(a - c, range.binding - merged.binding);
      WrapDifference(a, c);
    } else {
      WrapShift(c - a, merged.binding - range.binding);
      WrapDifference(c, a);
    }
  }

  /** A joined range keeps the type, register space and register offset of the range it joined. */
  lemma JoinKeepsOffset(rule: CountRule, merged: DescriptorRange, range: DescriptorRange)
    requires Joinable(merged, range) && AgreesWith(merged, range)
    ensures var j := JoinRange(rule, merged, range);
      j.rangeType == merged.rangeType && j.dxRegisterSpace == merged.dxRegisterSpace && RegisterOffset(j) == RegisterOffset(merged)
  {
  }

  /** A descriptor set agrees throughout iff all but its last range do and the last one agrees too. */
  lemma AllAgreeSnoc(ranges: seq<DescriptorRange>)
    requires |ranges| > 1
    ensures AllAgree(ranges) <==> AllAgree(ranges[..|ranges| - 1]) && AgreesWith(ranges[0], ranges[|ranges| - 1])
  {
    var prefix := ranges[..|ranges| - 1];
    assert prefix[0] == ranges[0];
    if AllAgree(prefix) && AgreesWith(ranges[0], ranges[|ranges| - 1]) {
      forall i | 0 <= i < |ranges| ensures AgreesWith(ranges[0], ranges[i]) {
        if i < |prefix| {
          assert prefix[i] == ranges[i];
        }
      }
    }
  }

  /**
   * Which descriptor sets merge, in closed form: exactly those whose ranges
   * all agree with the first. The merged range keeps the first range's type
   * and register offset and has register space 0, whichever count rule is used.
   */
  lemma {:induction false} MergeAccepts(rule: CountRule, ranges: seq<DescriptorRange>)
    requires |ranges| > 0
    ensures MergeRanges(rule, ranges).Some? <==> AllAgree(ranges)
    ensures MergeRanges(rule, ranges).Some? ==>
              var m := MergeRanges(rule, ranges).value;
              m.rangeType == ranges[0].rangeType && m.dxRegisterSpace == 0 && RegisterOffset(m) == RegisterOffset(ranges[0])
    decreases |ranges|
  {
    if |ranges| > 1 {
      var prefix := ranges[..|ranges| - 1];
      var last := ranges[|ranges| - 1];
      MergeAccepts(rule, prefix);
      AllAgreeSnoc(ranges);
      assert prefix[0] == ranges[0];
      var merged := MergeRanges(rule, prefix);
      if merged.Some? {
        JoinableAgrees(ranges[0], merged.value, last);
        if Joinable(merged.value, last) {
          JoinKeepsOffset(rule, merged.value, last);
        }
      }
    } else {
      assert AllAgree(ranges) <==> AgreesWith(ranges[0], ranges[0]);
    }
  }

  /** The range a layout parameter becomes under a count rule, or `None` when it is rejected. */
  function MergedParam(rule: CountRule, p: LayoutParam): (r: Option<DescriptorRange>)
    ensures p.DescriptorSetParam? && |p.ranges| == 0 ==> r.None?
    ensures p.DescriptorSetParam? && |p.ranges| > 0 ==> (r.Some? <==> AllAgree(p.ranges))
    ensures p.PushDescriptors? ==> (r.Some? <==> p.range.dxRegisterSpace == 0)
    ensures p.PushDescriptors? && r.Some? ==> r.value == p.range
    ensures p.PushConstants? ==> (r.Some? <==> p.dxRegisterSpace == 0)
    ensures p.PushConstants? && r.Some? ==> r.value.dxRegisterIndex == p.dxRegisterIndex && r.value.count == 0
    ensures r.Some? ==> r.value.dxRegisterSpace == 0
    ensures p.DescriptorSetParam? && r.Some? ==>
              forall k :: k in r.value.visibility <==> exists i :: 0 <= i < |p.ranges| && k in p.ranges[i].visibility
  {
    match p
    case DescriptorSetParam(ranges) =>
      if |ranges| == 0 then None
      else
        MergeAccepts(rule, ranges);
        if MergeRanges(rule, ranges).Some? then
          MergeVisibility(rule, ranges);
          MergeRanges(rule, ranges)
        else None
    case PushDescriptors(range) => if range.dxRegisterSpace != 0 then None else Some(range)
    case PushConstants(index, space) =>
      if space != 0 then None else Some(ZeroDescriptorRange.(dxRegisterIndex := index, dxRegisterSpace := space))
    case OtherParam(_) => Some(ZeroDescriptorRange)
  }

  /** Joins a descriptor set's ranges into the first one, in place, with the given count rule. */
  method MergeDescriptorSet(rule: CountRule, ranges: seq<DescriptorRange>) returns (ok: bool, merged: DescriptorRange)
    requires |ranges| > 0
    ensures ok <==> MergeRanges(rule, ranges).Some?
    ensures ok ==> merged == MergeRanges(rule, ranges).value
  {
    merged := ranges[0];
    if !Leads(merged) {
      MergePrefixFails(rule, ranges, 1);
      return false, merged;
    }
    var k := 1;
    while k < |ranges|
      invariant 1 <= k <= |ranges|
      invariant MergeRanges(rule, ranges[..k]) == Some(merged)
    {
      assert ranges[..k + 1][..k] == ranges[..k];
      var range := ranges[k];
      if !Joinable(merged, range) {
        assert MergeRanges(rule, ranges[..k + 1]).None?;
        MergePrefixFails(rule, ranges, k + 1);
        return false, merged;
      }
      merged := JoinRange(rule, merged, range);
      k := k + 1;
    }
    assert ranges[..k] == ranges;
    return true, merged;
  }

  /** Once a prefix of the ranges is rejected, so are all of them. */
  lemma {:induction false} MergePrefixFails(rule: CountRule, ranges: seq<DescriptorRange>, n: nat)
    requires 0 < n <= |ranges| && MergeRanges(rule, ranges[..n]).None?
    ensures MergeRanges(rule, ranges).None?
    decreases |ranges| - n
  {
    if n < |ranges| {
      assert ranges[..n + 1][..n] == ranges[..n];
      MergePrefixFails(rule, ranges, n + 1);
    } else {
      assert ranges[..n] == ranges;
    }
  }

  /**
   * create_pipeline_layout: one merged range per parameter, or false with a
   * zero handle as soon as one parameter is rejected. `layout` is the address
   * of the new layout object. The code as written merges with
   * `CountRule.AsWritten`; `CountRule.Covering` gives the corrected layout.
   */
  method CreatePipelineLayout(rule: CountRule, params: seq<LayoutParam>, layout: ObjectPtr) returns (ok: bool, handle: u64, ranges: seq<DescriptorRange>)
    ensures CreateReturnContract(ok, handle)
    ensures ok <==> forall i :: 0 <= i < |params| ==> MergedParam(rule, params[i]).Some?
    ensures ok ==> handle == layout && |ranges| == |params|
                   && forall i :: 0 <= i < |params| ==> Some(ranges[i]) == MergedParam(rule, params[i])
  {
    ranges := seq(|params|, _ => ZeroDescriptorRange);
    var i := 0;
    while i < |params|
      invariant 0 <= i <= |params| && |ranges| == |params|
      invariant forall j :: 0 <= j < i ==> Some(ranges[j]) == MergedParam(rule, params[j])
    {
      var merged: DescriptorRange;
      match params[i] {
      case DescriptorSetParam(setRanges) =>
        if |setRanges| == 0 {
          return false, 0, ranges;
        }
        var accepted;
        accepted, merged := MergeDescriptorSet(rule, setRanges);
        if !accepted {
          return false, 0, ranges;
        }
      case PushDescriptors(range) =>
        merged := range;
        if merged.dxRegisterSpace != 0 {
          return false, 0, ranges;
        }
      case PushConstants(index, space) =>
        merged := ZeroDescriptorRange.(dxRegisterIndex := index, dxRegisterSpace := space);
        if merged.dxRegisterSpace != 0 {
          return false, 0, ranges;
        }
      case OtherParam(_) =>
        merged := ZeroDescriptorRange;
      }
      ranges := ranges[i := merged];
      i := i + 1;
    }
    return true, layout, ranges;
  }

  // ---------------------------------------------------------------------------
  // Descriptor sets
  // ---------------------------------------------------------------------------

  /** 64-bit words per descriptor: a sampler or view is one pointer, a buffer range is three words. */
  function Stride(t: DescriptorType): (s: nat)
    ensures s <= 3
  {
    match t
    case Sampler | ShaderResourceView => 1
    case ConstantBuffer => 3
    case _ => 0
  }

  /** `a` with the words from `at` on replaced by `v`. */
  function Overwrite(a: seq<u64>, at: nat, v: seq<u64>): (r: seq<u64>)
    requires at + |v| <= |a|
  {
    a[..at] + v + a[at + |v|..]
  }

  /** Overwrite changes exactly the words in [at, at + |v|), to v. */
  lemma OverwriteExactly(a: seq<u64>, at: nat, v: seq<u64>)
    requires at + |v| <= |a|
    ensures |Overwrite(a, at, v)| == |a|
    ensures forall j :: 0 <= j < |a| ==>
              Overwrite(a, at, v)[j] == if at <= j < at + |v| then v[j - at] else a[j]
  {
    var r := Overwrite(a, at, v);
    forall j | 0 <= j < |a|
      ensures r[j] == if at <= j < at + |v| then v[j - at] else a[j]
    {
      if j < at {
        assert r[j] == a[..at][j];
      } else if j < at + |v| {
        assert r[j] == (a[..at] + v)[j];
      } else {
        assert r[j] == a[at + |v|..][j - at - |v|];
      }
    }
  }

  /** The memcpy of `v` into `a` at word `at`. */
  method WriteWords(a: array<u64>, at: nat, v: seq<u64>)
    requires at + |v| <= a.Length
    modifies a
    ensures a[..] == Overwrite(old(a[..]), at, v)
  {
    var j := 0;
    while j < |v|
      invariant 0 <= j <= |v|
      invariant forall k :: 0 <= k < a.Length ==> a[k] == if at <= k < at + j then v[k - at] else old(a[k])
    {
      a[at + j] := v[j];
      j := j + 1;
    }
    OverwriteExactly(old(a[..]), at, v);
    assert a[..] == Overwrite(old(a[..]), at, v);
  }

  /** A descriptor set: its type, its descriptor count and the flat array of their words. */
  class DescriptorSet {
    const descriptorType: DescriptorType
    const count: u32
    const descriptors: array<u64>

    /** A set for a layout range: count descriptors of the range's type, all words zero. */
    constructor (range: DescriptorRange)
      ensures descriptorType == range.rangeType && count == range.count
      ensures descriptors.Length == Wrap32(range.count * Stride(range.rangeType))
      ensures forall j :: 0 <= j < descriptors.Length ==> descriptors[j] == 0
      ensures fresh(descriptors)
    {
      descriptorType := range.rangeType;
      count := range.count;
      descriptors := new u64[Wrap32(range.count * Stride(range.rangeType))](_ => 0);
    }

    /**
     * update_descriptor_sets for one update: `n` descriptors from `values`
     * written from `binding` on.
     */
    method Update(binding: u32, n: u32, values: seq<u64>)
      requires (binding + n) * Stride(descriptorType) <= descriptors.Length
      requires n * Stride(descriptorType) <= |values|
      modifies descriptors
      ensures descriptors[..] == Overwrite(old(descriptors[..]), binding * Stride(descriptorType), values[..n * Stride(descriptorType)])
    {
      var stride := Stride(descriptorType);
      assert (binding + n) * stride == binding * stride + n * stride;
      WriteWords(descriptors, binding * stride, values[..n * stride]);
    }

    /**
     * copy_descriptor_sets for one copy into this set: `n` descriptors of
     * `source` from `sourceBinding` on, written from `binding` on. The two
     * ranges of words must not overlap, as for memcpy.
     */
    method CopyFrom(source: DescriptorSet, sourceBinding: u32, binding: u32, n: u32)
      requires source.descriptorType == descriptorType
      requires (sourceBinding + n) * Stride(descriptorType) <= source.descriptors.Length
      requires (binding + n) * Stride(descriptorType) <= descriptors.Length
      requires source.descriptors == descriptors ==>
                 (sourceBinding + n) * Stride(descriptorType) <= binding * Stride(descriptorType)
                 || (binding + n) * Stride(descriptorType) <= sourceBinding * Stride(descriptorType)
      modifies descriptors
      ensures source.descriptors != descriptors ==> unchanged(source.descriptors)
      ensures descriptors[..] == Overwrite(old(descriptors[..]), binding * Stride(descriptorType),
                                           old(source.descriptors[sourceBinding * Stride(descriptorType)..(sourceBinding + n) * Stride(descriptorType)]))
    {
      var stride := Stride(descriptorType);
      assert (binding + n) * stride == binding * stride + n * stride;
      assert (sourceBinding + n) * stride == sourceBinding * stride + n * stride;
      var words := source.descriptors[sourceBinding * stride..(sourceBinding + n) * stride];
      WriteWords(descriptors, binding * stride, words);
    }
  }

  /**
   * The descriptor sets a device has handed out and not yet freed. A pipeline
   * layout is the list of its merged ranges.
   */
  class DescriptorSetPool {
    var live: set<DescriptorSet>

    constructor ()
      ensures live == {}
    {
      live := {};
    }

    /**
     * allocate_descriptor_sets: `count` new sets for the layout parameter, or,
     * without a layout, `count` null handles and false.
     */
    method Allocate(count: u32, layout: Option<seq<DescriptorRange>>, param: nat) returns (ok: bool, sets: seq<DescriptorSet?>)
      requires layout.Some? ==> param < |layout.value|
      modifies this
      ensures |sets| == count
      ensures ok <==> layout.Some?
      ensures !ok ==> live == old(live) && forall i :: 0 <= i < count ==> sets[i] == null
      ensures ok ==> forall i :: 0 <= i < count ==>
                       sets[i] != null && fresh(sets[i]) && fresh(sets[i].descriptors)
                       && sets[i].descriptorType == layout.value[param].rangeType && sets[i].count == layout.value[param].count
                       && sets[i].descriptors.Length == Wrap32(sets[i].count * Stride(sets[i].descriptorType))
                       && forall j :: 0 <= j < sets[i].descriptors.Length ==> sets[i].descriptors[j] == 0
      ensures ok ==> forall i, k :: 0 <= i < k < count ==> sets[i] != sets[k]
      ensures ok ==> live == old(live) + set s | s in sets
    {
      sets := [];
      if layout.None? {
        while |sets| < count
          invariant |sets| <= count && forall i :: 0 <= i < |sets| ==> sets[i] == null
        {
          sets := sets + [null];
        }
        return false, sets;
      }
      var range := layout.value[param];
      while |sets| < count
        invariant |sets| <= count
        invariant forall i :: 0 <= i < |sets| ==>
                    sets[i] != null && fresh(sets[i]) && fresh(sets[i].descriptors)
                    && sets[i].descriptorType == range.rangeType && sets[i].count == range.count
                    && sets[i].descriptors.Length == Wrap32(sets[i].count * Stride(sets[i].descriptorType))
                    && forall j :: 0 <= j < sets[i].descriptors.Length ==> sets[i].descriptors[j] == 0
        invariant forall i, k :: 0 <= i < k < |sets| ==> sets[i] != sets[k]
        invariant live == old(live) + set s | s in sets
      {
        var s := new DescriptorSet(range);
        assert (set x | x in sets + [s]) == (set x | x in sets) + {s};
        sets := sets + [s];
        live := live + {s};
      }
      return true, sets;
    }

    /** free_descriptor_sets: the given sets are gone; freeing a null handle does nothing. */
    method Free(sets: seq<DescriptorSet?>)
      modifies this
      ensures live == old(live) - set i | 0 <= i < |sets| && sets[i] != null :: sets[i]
    {
      var i := 0;
      while i < |sets|
        invariant 0 <= i <= |sets|
        invariant live == old(live) - set j | 0 <= j < i && sets[j] != null :: sets[j]
      {
        if sets[i] != null {
          live := live - {sets[i]};
        }
        i := i + 1;
      }
    }
  }

  /**
   * get_descriptor_pool_offset: there is no pool; a binding's descriptors
   * start at its own index, counted in descriptors.
   */
  function DescriptorPoolOffset(binding: u32): (r: (u64, u32))
    ensures r.0 == 0 && r.1 == binding
  {
    (0, binding)
  }

  // ---------------------------------------------------------------------------
  // Query pools
  // ---------------------------------------------------------------------------

  /**
   * create_query_pool: `size` queries created one after another (`results`
   * are the runtime's answers); at the first failure the queries created so
   * far are released and the handle is zero. `pool` is the address of the
   * new pool object.
   */
  method CreateQueryPool(size: u32, results: seq<Option<ObjectPtr>>, pool: ObjectPtr)
    returns (ok: bool, handle: u64, queries: seq<u64>, released: seq<u64>)
    requires |results| == size
    ensures CreateReturnContract(ok, handle)
    ensures ok <==> forall i :: 0 <= i < size ==> results[i].Some?
    ensures ok ==> handle == pool && released == [] && |queries| == size
                   && forall i :: 0 <= i < size ==> queries[i] == results[i].value
    ensures !ok ==> exists f :: 0 <= f < size && results[f].None? && (forall i :: 0 <= i < f ==> results[i].Some?)
                      && released == seq(f, i requires 0 <= i < f => results[i].value)
  {
    var created := new u64[size](_ => 0);
    var i := 0;
    while i < size
      invariant 0 <= i <= size
      invariant forall j :: 0 <= j < i ==> results[j].Some? && created[j] == results[j].value
    {
      if results[i].None? {
        released := created[..i];
        assert released == seq(i, j requires 0 <= j < i => results[j].value);
        return false, 0, [], released;
      }
      created[i] := results[i].value;
      i := i + 1;
    }
    return true, pool, created[..], [];
  }
}
