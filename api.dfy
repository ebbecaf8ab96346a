/**
 * The render-API-neutral vocabulary that every backend speaks: the integer
 * widths of the C++ interface, the resource_usage flag algebra, resource and
 * resource view descriptions (with their unions kept as the storage words they
 * are), subresource locations, opaque handles, the custom data table every API
 * object carries, and the return contract of the device's create calls.
 */
module Api {

  // ---------------------------------------------------------------------------
  // Integer widths
  // ---------------------------------------------------------------------------

  const TWO_16: int := 0x1_0000
  const TWO_32: int := 0x1_0000_0000
  const TWO_64: int := 0x1_0000_0000_0000_0000

  type u16 = x: int | 0 <= x < 0x1_0000
  type u32 = x: int | 0 <= x < 0x1_0000_0000
  type u64 = x: int | 0 <= x < 0x1_0000_0000_0000_0000

  const U32_MAX: u32 := 0xFFFF_FFFF

  /** primitive_topology::triangle_fan, which Direct3D 10 and 11 cannot draw. */
  const TopologyTriangleFan: u32 := 6

  /** An optional value: the answer of a native call that may fail, a pointer that may be null. */
  datatype Option<T> = None | Some(value: T)

  /** Storing a value into a uint32_t keeps it modulo 2^32. */
  function Wrap32(x: int): (r: u32)
    ensures 0 <= x < TWO_32 ==> r == x
  {
    x % TWO_32
  }

  /** A static_cast<uint16_t> keeps the low 16 bits. */
  function Wrap16(x: int): (r: u16)
    ensures 0 <= x < TWO_16 ==> r == x
  {
    x % TWO_16
  }

  lemma {:induction false} DivModUnique(x: int, y: int, l: int)
    requires 0 <= x < l && 0 <= y
    ensures (x + y * l) / l == y && (x + y * l) % l == x
  {
    var s := x + y * l;
    var q, r := s / l, s % l;
    assert s == q * l + r;
    assert (q - y) * l == x - r;
    if q > y { MulAtLeast(q - y, l); assert false; }
    if q < y { MulAtLeast(y - q, l); assert false; }
  }

  lemma MulAtLeast(a: int, l: int)
    requires a >= 1 && l > 0
    ensures a * l >= l
  {
    var k := a - 1;
    assert a * l == k * l + l;
    assert k * l >= 0;
  }

  // ---------------------------------------------------------------------------
  // Flag words
  // ---------------------------------------------------------------------------

  /** A bit position in a 32-bit flag word. */
  type Bit = k: int | 0 <= k < 32

  /**
   * A 32-bit flag word, as the set of positions of its one bits: position k
   * stands for the value 1 << k. The C++ operators become set operations:
   * `a | b` is `a + b`, `a & b` is `a * b`, `a & ~b` is `a - b`, and a word is
   * zero when its set is empty.
   */
  type FlagWord = set<Bit>

  /** The test `(word & flags) != 0`: some bit of `flags` is present in `word`. */
  predicate Overlaps(word: FlagWord, flags: FlagWord)
  {
    word * flags != {}
  }

  /** The test `(word & flags) == flags`: every bit of `flags` is present in `word`. */
  predicate Includes(word: FlagWord, flags: FlagWord)
  {
    flags <= word
  }

  /** `c ? flags : 0`. */
  function When(c: bool, flags: FlagWord): (r: FlagWord)
  {
    set k | k in flags && c
  }

  /** For a one-bit flag, `(word & flag) != 0` is the presence of that bit. */
  lemma OverlapsSingle(word: FlagWord, a: Bit)
    ensures Overlaps(word, {a}) <==> a in word
  {
    if a in word {
      assert a in word * {a};
    }
  }

  /** A word that overlaps some flags still does once bits are added to it. */
  lemma OverlapsSubset(word1: FlagWord, word2: FlagWord, flags: FlagWord)
    requires word1 <= word2
    ensures Overlaps(word1, flags) ==> Overlaps(word2, flags)
  {
    if Overlaps(word1, flags) {
      var k :| k in word1 * flags;
      assert k in word2 * flags;
    }
  }

  lemma OverlapsPair(word: FlagWord, a: Bit, b: Bit)
    ensures Overlaps(word, {a, b}) <==> a in word || b in word
  {
    if a in word {
      assert a in word * {a, b};
    }
    if b in word {
      assert b in word * {a, b};
    }
  }

  // ---------------------------------------------------------------------------
  // resource_usage
  // ---------------------------------------------------------------------------

  type ResourceUsage = FlagWord

  const Undefined: ResourceUsage := {}                   // 0
  const DepthStencil: ResourceUsage := {4, 5}            // 0x30
  const DepthStencilRead: ResourceUsage := {5}           // 0x20
  const DepthStencilWrite: ResourceUsage := {4}          // 0x10
  const RenderTarget: ResourceUsage := {2}               // 0x4
  const ShaderResource: ResourceUsage := {6, 7}          // 0xC0
  const ShaderResourcePixel: ResourceUsage := {7}        // 0x80
  const ShaderResourceNonPixel: ResourceUsage := {6}     // 0x40
  const UnorderedAccess: ResourceUsage := {3}            // 0x8
  const CopyDest: ResourceUsage := {10}                  // 0x400
  const CopySource: ResourceUsage := {11}                // 0x800
  const ResolveDest: ResourceUsage := {12}               // 0x1000
  const ResolveSource: ResourceUsage := {13}             // 0x2000
  const IndexBuffer: ResourceUsage := {1}                // 0x2
  const VertexBuffer: ResourceUsage := {0}               // 0x1
  const ConstantBuffer: ResourceUsage := {15}            // 0x8000

  /** The usages that name one kind of access each (composites and undefined left out). */
  const SingleUsages: seq<ResourceUsage> :=
    [DepthStencil, RenderTarget, ShaderResource, UnorderedAccess, CopyDest, CopySource,
     ResolveDest, ResolveSource, IndexBuffer, VertexBuffer, ConstantBuffer]

  /**
   * The two composite usages are exactly the union of their halves, and the
   * single-purpose usages occupy pairwise disjoint bits.
   */
  lemma UsageFlagLayout()
    ensures DepthStencil == DepthStencilRead + DepthStencilWrite && DepthStencilRead !! DepthStencilWrite
    ensures ShaderResource == ShaderResourcePixel + ShaderResourceNonPixel && ShaderResourcePixel !! ShaderResourceNonPixel
    ensures forall i, j :: 0 <= i < j < |SingleUsages| ==> SingleUsages[i] !! SingleUsages[j]
  {
  }

  /** `lhs | rhs`: the bits set in either operand. */
  function UsageOr(lhs: ResourceUsage, rhs: ResourceUsage): (r: ResourceUsage)
    ensures Includes(r, lhs) && Includes(r, rhs)
    ensures forall k: Bit :: k in r ==> k in lhs || k in rhs
  {
    lhs + rhs
  }

  /** `lhs & rhs`: the bits set in both operands. */
  function UsageAnd(lhs: ResourceUsage, rhs: ResourceUsage): (r: ResourceUsage)
    ensures Includes(lhs, r) && Includes(rhs, r)
    ensures forall k: Bit :: k in lhs && k in rhs ==> k in r
  {
    lhs * rhs
  }

  /** `lhs ^ rhs`: the bits set in exactly one operand. */
  function UsageXor(lhs: ResourceUsage, rhs: ResourceUsage): (r: ResourceUsage)
    ensures forall k: Bit :: k in r <==> (k in lhs) != (k in rhs)
  {
    (lhs - rhs) + (rhs - lhs)
  }

  /**
   * The laws the usage operators keep: `^` toggles (applying it twice
   * restores the left operand, and a usage cancels itself), `&` with a flag
   * is non-zero exactly when the flag overlaps, and `|` then `&` with the
   * same operand gives that operand back.
   */
  lemma UsageOperatorLaws(a: ResourceUsage, b: ResourceUsage)
    ensures UsageXor(UsageXor(a, b), b) == a
    ensures UsageXor(a, a) == Undefined
    ensures UsageAnd(UsageOr(a, b), b) == b
    ensures UsageAnd(a, b) != Undefined <==> Overlaps(a, b)
    ensures UsageOr(a, b) == UsageXor(UsageXor(a, b), UsageAnd(a, b))
  {
  }

  /**
   * A resource_usage variable, for the compound assignments `|=`, `&=` and
   * `^=`, which store the result of the plain operator into their left-hand
   * side and yield the stored value.
   */
  class UsageVariable {
    var value: ResourceUsage

    constructor (initial: ResourceUsage)
      ensures value == initial
    {
      value := initial;
    }

    method OrAssign(rhs: ResourceUsage) returns (r: ResourceUsage)
      modifies this
      ensures value == UsageOr(old(value), rhs) && r == value
    {
      value := UsageOr(value, rhs);
      r := value;
    }

    method AndAssign(rhs: ResourceUsage) returns (r: ResourceUsage)
      modifies this
      ensures value == UsageAnd(old(value), rhs) && r == value
    {
      value := UsageAnd(value, rhs);
      r := value;
    }

    method XorAssign(rhs: ResourceUsage) returns (r: ResourceUsage)
      modifies this
      ensures value == UsageXor(old(value), rhs) && r == value
    {
      value := UsageXor(value, rhs);
      r := value;
    }
  }

  /** resource_flags of a resource description. */
  type ResourceFlags = FlagWord

  const FlagsNone: ResourceFlags := {}                   // 0
  const FlagShared: ResourceFlags := {1}                 // 0x2
  const FlagSharedNtHandle: ResourceFlags := {11}        // 0x800

  // ---------------------------------------------------------------------------
  // Enumerations
  // ---------------------------------------------------------------------------

  datatype ResourceType = Unknown | Buffer | Texture1D | Texture2D | Texture3D | Surface

  datatype ResourceViewType =
    | Unknown | Buffer | Texture1D | Texture1DArray | Texture2D | Texture2DArray
    | Texture2DMultisample | Texture2DMultisampleArray | Texture3D | TextureCube | TextureCubeArray

  datatype MemoryHeap = Unknown | GpuOnly | CpuToGpu | GpuToCpu | CpuOnly

  /**
   * The integer part of sampler_desc: the filter and the three address modes,
   * each an enumeration value. The floating-point members (bias, anisotropy,
   * level-of-detail clamps) are not part of this model.
   */
  datatype SamplerDesc = SamplerDesc(filter: u32, addressU: u32, addressV: u32, addressW: u32)

  // ---------------------------------------------------------------------------
  // resource_desc
  // ---------------------------------------------------------------------------

  /**
   * The union of a resource description, kept as its texture member. The
   * buffer member's 64-bit size occupies the storage of width and height.
   */
  datatype TextureDesc = TextureDesc(width: u32, height: u32, depthOrLayers: u16, levels: u16, format: u32, samples: u16)

  datatype ResourceDesc = ResourceDesc(
    resourceType: ResourceType,
    texture: TextureDesc,
    heap: MemoryHeap,
    usage: ResourceUsage,
    flags: ResourceFlags)

  const ZeroTexture: TextureDesc := TextureDesc(0, 0, 0, 0, 0, 0)

  /** `desc.buffer.size`, read through the union. */
  function BufferSize(d: ResourceDesc): (size: u64)
    ensures size % TWO_32 == d.texture.width && size / TWO_32 == d.texture.height
  {
    DivModUnique(d.texture.width, d.texture.height, TWO_32);
    d.texture.width + d.texture.height * TWO_32
  }

  /** `desc.buffer.size = size`: overwrites width and height and nothing else. */
  function WithBufferSize(d: ResourceDesc, size: u64): (r: ResourceDesc)
    ensures BufferSize(r) == size
    ensures r.resourceType == d.resourceType && r.heap == d.heap && r.usage == d.usage && r.flags == d.flags
    ensures r.texture.depthOrLayers == d.texture.depthOrLayers && r.texture.levels == d.texture.levels
    ensures r.texture.format == d.texture.format && r.texture.samples == d.texture.samples
  {
    d.(texture := d.texture.(width := size % TWO_32, height := size / TWO_32))
  }

  /** `resource_desc()`: an unknown resource with every field zero. */
  function DefaultResourceDesc(): (d: ResourceDesc)
    ensures d.resourceType == ResourceType.Unknown && d.heap == MemoryHeap.Unknown
    ensures d.usage == Undefined && d.texture == ZeroTexture && BufferSize(d) == 0
  {
    ResourceDesc(ResourceType.Unknown, ZeroTexture, MemoryHeap.Unknown, Undefined, FlagsNone)
  }

  /** `resource_desc(size, heap, usage)`: a buffer. */
  function BufferResourceDesc(size: u64, heap: MemoryHeap, usage: ResourceUsage): (d: ResourceDesc)
    ensures d.resourceType == ResourceType.Buffer && BufferSize(d) == size
    ensures d.heap == heap && d.usage == usage
  {
    WithBufferSize(ResourceDesc(ResourceType.Buffer, ZeroTexture, heap, usage, FlagsNone), size)
  }

  /** `resource_desc(type, width, height, depth_or_layers, levels, format, samples, heap, usage)`. */
  function TypedResourceDesc(t: ResourceType, width: u32, height: u32, depthOrLayers: u16, levels: u16,
                             format: u32, samples: u16, heap: MemoryHeap, usage: ResourceUsage): (d: ResourceDesc)
    ensures d.resourceType == t && d.heap == heap && d.usage == usage
    ensures d.texture == TextureDesc(width, height, depthOrLayers, levels, format, samples)
  {
    ResourceDesc(t, TextureDesc(width, height, depthOrLayers, levels, format, samples), heap, usage, FlagsNone)
  }

  /** `resource_desc(width, height, layers, levels, format, samples, heap, usage)`. */
  function Texture2DResourceDesc(width: u32, height: u32, layers: u16, levels: u16,
                                 format: u32, samples: u16, heap: MemoryHeap, usage: ResourceUsage): (d: ResourceDesc)
    ensures d == TypedResourceDesc(ResourceType.Texture2D, width, height, layers, levels, format, samples, heap, usage)
  {
    ResourceDesc(ResourceType.Texture2D, TextureDesc(width, height, layers, levels, format, samples), heap, usage, FlagsNone)
  }

  // ---------------------------------------------------------------------------
  // resource_view_desc
  // ---------------------------------------------------------------------------

  /**
   * The union of a view description, kept as its texture member. The buffer
   * member's 64-bit offset occupies first_level and levels, its 64-bit size
   * occupies first_layer and layers.
   */
  datatype TextureRange = TextureRange(firstLevel: u32, levels: u32, firstLayer: u32, layers: u32)

  datatype ResourceViewDesc = ResourceViewDesc(viewType: ResourceViewType, format: u32, texture: TextureRange)

  const ZeroRange: TextureRange := TextureRange(0, 0, 0, 0)

  /** `desc.buffer.offset`, read through the union. */
  function BufferOffset(d: ResourceViewDesc): (offset: u64)
    ensures offset % TWO_32 == d.texture.firstLevel && offset / TWO_32 == d.texture.levels
  {
    DivModUnique(d.texture.firstLevel, d.texture.levels, TWO_32);
    d.texture.firstLevel + d.texture.levels * TWO_32
  }

  /** `desc.buffer.size` of a view, read through the union. */
  function BufferViewSize(d: ResourceViewDesc): (size: u64)
    ensures size % TWO_32 == d.texture.firstLayer && size / TWO_32 == d.texture.layers
  {
    DivModUnique(d.texture.firstLayer, d.texture.layers, TWO_32);
    d.texture.firstLayer + d.texture.layers * TWO_32
  }

  /** `desc.buffer.offset = offset; desc.buffer.size = size`. */
  function WithBufferRange(d: ResourceViewDesc, offset: u64, size: u64): (r: ResourceViewDesc)
    ensures BufferOffset(r) == offset && BufferViewSize(r) == size
    ensures r.viewType == d.viewType && r.format == d.format
  {
    d.(texture := TextureRange(offset % TWO_32, offset / TWO_32, size % TWO_32, size / TWO_32))
  }

  /** `resource_view_desc()`: an unknown view with every field zero. */
  function DefaultViewDesc(): (d: ResourceViewDesc)
    ensures d.viewType == ResourceViewType.Unknown && d.format == 0 && d.texture == ZeroRange
    ensures BufferOffset(d) == 0 && BufferViewSize(d) == 0
  {
    ResourceViewDesc(ResourceViewType.Unknown, 0, ZeroRange)
  }

  /** `resource_view_desc(format, offset, size)`: a buffer view. */
  function BufferViewDesc(format: u32, offset: u64, size: u64): (d: ResourceViewDesc)
    ensures d.viewType == ResourceViewType.Buffer && d.format == format
    ensures BufferOffset(d) == offset && BufferViewSize(d) == size
  {
    WithBufferRange(ResourceViewDesc(ResourceViewType.Buffer, format, ZeroRange), offset, size)
  }

  /** `resource_view_desc(type, format, first_level, levels, first_layer, layers)`. */
  function TypedViewDesc(t: ResourceViewType, format: u32, firstLevel: u32, levels: u32, firstLayer: u32, layers: u32): (d: ResourceViewDesc)
    ensures d.viewType == t && d.format == format
    ensures d.texture == TextureRange(firstLevel, levels, firstLayer, layers)
  {
    ResourceViewDesc(t, format, TextureRange(firstLevel, levels, firstLayer, layers))
  }

  /** `resource_view_desc(format, first_level, levels, first_layer, layers)`: a 2D texture view. */
  function Texture2DViewDesc(format: u32, firstLevel: u32, levels: u32, firstLayer: u32, layers: u32): (d: ResourceViewDesc)
    ensures d == TypedViewDesc(ResourceViewType.Texture2D, format, firstLevel, levels, firstLayer, layers)
  {
    ResourceViewDesc(ResourceViewType.Texture2D, format, TextureRange(firstLevel, levels, firstLayer, layers))
  }

  // ---------------------------------------------------------------------------
  // subresource_location
  // ---------------------------------------------------------------------------

  datatype SubresourceLocation =
    | Subresource(subresource: u32)
    | PlacedFootprint(offset: u64, rowPitch: u32, width: u32, height: u32, depthOrLayers: u32)

  /** The `type` tag of the location: 0 for a subresource index, 1 for a placed footprint. */
  function LocationType(l: SubresourceLocation): (t: u32)
    ensures t == 0 <==> l.Subresource?
    ensures t == 1 <==> l.PlacedFootprint?
  {
    if l.Subresource? then 0 else 1
  }

  /**
   * `subresource_location(level, layer, levels)`: the index `level + layer * levels`,
   * computed in uint32 arithmetic.
   */
  function SubresourceAt(level: u32, layer: u32, levels: u32): (l: SubresourceLocation)
    ensures LocationType(l) == 0
    ensures level + layer * levels < TWO_32 ==> l.subresource == level + layer * levels
  {
    Subresource(Wrap32(level + layer * levels))
  }

  /**
   * When the level lies inside the texture's level count and the index does
   * not overflow, the index decodes back to its level and its layer.
   */
  lemma {:induction false} SubresourceIndexDecodes(level: u32, layer: u32, levels: u32)
    requires level < levels
    requires level + layer * levels < TWO_32
    ensures SubresourceAt(level, layer, levels).subresource % levels == level
    ensures SubresourceAt(level, layer, levels).subresource / levels == layer
  {
    DivModUnique(level, layer, levels);
  }

  // ---------------------------------------------------------------------------
  // Handles
  // ---------------------------------------------------------------------------

  /** sampler_handle, resource_handle and resource_view_handle: a 64-bit value. */
  datatype Handle = Handle(handle: u64)

  const NullHandle: Handle := Handle(0)

  predicate HandleLess(a: Handle, b: Handle) { a.handle < b.handle }
  predicate HandleEquals(a: Handle, b: Handle) { a.handle == b.handle }
  predicate HandleEqualsValue(a: Handle, v: u64) { a.handle == v }

  /**
   * Handle equality (also against a plain 64-bit value) is equality of the
   * wrapped value, and `<` is a strict total order on handles.
   */
  lemma HandleComparisons(a: Handle, b: Handle, c: Handle)
    ensures HandleEquals(a, b) <==> a == b
    ensures HandleEquals(a, b) <==> HandleEqualsValue(a, b.handle)
    ensures !HandleLess(a, a)
    ensures HandleLess(a, b) && HandleLess(b, c) ==> HandleLess(a, c)
    ensures HandleLess(a, b) || HandleLess(b, a) || HandleEquals(a, b)
  {
  }

  /**
   * The device's create calls report failure only together with a zero
   * output handle.
   */
  predicate CreateReturnContract(ok: bool, handle: u64)
  {
    !ok ==> handle == 0
  }

  // ---------------------------------------------------------------------------
  // api_object custom data
  // ---------------------------------------------------------------------------

  type Guid = s: seq<bv8> | |s| == 16 witness [0, 0, 0, 0, 0, 0, 0, 0, 0, 0, 0, 0, 0, 0, 0, 0]

  /**
   * The custom data table every API object carries: a pointer per GUID. A null
   * pointer is never stored; setting one removes the entry.
   */
  class ApiObject {
    var data: map<Guid, u64>

    ghost predicate Valid()
      reads this
    {
      forall g :: g in data ==> data[g] != 0
    }

    constructor ()
      ensures Valid() && data == map[]
    {
      data := map[];
    }

    /** get_data: reports whether a pointer was set for `guid`, and yields it (null otherwise). */
    function GetData(guid: Guid): (r: (bool, u64))
      reads this
      requires Valid()
      ensures r.0 <==> guid in data
      ensures r.0 <==> r.1 != 0
      ensures r.0 ==> r.1 == data[guid]
    {
      if guid in data then (true, data[guid]) else (false, 0)
    }

    /** set_data: associates `ptr` with `guid`; a null `ptr` removes the association. */
    method SetData(guid: Guid, ptr: u64)
      requires Valid()
      modifies this
      ensures Valid()
      ensures GetData(guid) == (ptr != 0, ptr)
      ensures forall g :: g != guid ==> (g in data <==> g in old(data)) && (g in data ==> data[g] == old(data)[g])
      ensures data == if ptr == 0 then old(data) - {guid} else old(data)[guid := ptr]
    {
      if ptr == 0 {
        data := data - {guid};
      } else {
        data := data[guid := ptr];
      }
    }

    /**
     * create_data: stores a freshly allocated object (`allocation`, never null)
     * under `guid`. A pointer stored there before is replaced without being
     * deleted; `replaced` is that pointer (null when there was none).
     */
    method CreateData(guid: Guid, allocation: u64) returns (ptr: u64, replaced: u64)
      requires Valid() && allocation != 0
      modifies this
      ensures Valid()
      ensures ptr == allocation && GetData(guid) == (true, allocation)
      ensures replaced == old(GetData(guid)).1
      ensures data == old(data)[guid := allocation]
    {
      replaced := GetData(guid).1;
      SetData(guid, allocation);
      ptr := allocation;
    }

    /**
     * destroy_data: deletes the object stored under `guid` (`deleted`, null
     * when there was none) and removes the entry.
     */
    method DestroyData(guid: Guid) returns (deleted: u64)
      requires Valid()
      modifies this
      ensures Valid()
      ensures deleted == old(GetData(guid)).1
      ensures GetData(guid) == (false, 0)
      ensures data == old(data) - {guid}
    {
      deleted := GetData(guid).1;
      SetData(guid, 0);
    }
  }
}
