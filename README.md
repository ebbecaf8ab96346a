# ReShade add-on API layer: descriptors, D3D11 conversion, D3D10 emulation and Vulkan hooks

This project models the backend-neutral layer of a ReShade fork (nfs-tweaks) in Dafny. ReShade intercepts a game's
graphics API and exposes one neutral vocabulary to add-ons: resource usage flags, resource and view
descriptors, subresource locations, handles and a per-object data table. Each backend translates that
vocabulary to and from its own API. The model covers four parts of that layer.

- `api.dfy` (module `Api`) models the neutral vocabulary from `include/reshade_api.hpp`:
  - the `resource_usage` flag algebra and its compound operators;
  - the descriptor constructors;
  - the subresource index formula;
  - handle comparisons;
  - the `api_object` data table as a class over a `map`;
  - the "false means zero handle" creation contract.

  Flag words are sets of bit positions, so `|` is union, `&` is intersection and `& ~` is set difference.
- `d3d11_convert.dfy` (module `D3D11Convert`) models the Direct3D 11 descriptor translation in
  `source/d3d11/render_d3d11_utils.cpp`.
  - The neutral-to-native converters write into an existing native struct. They are modelled as functions
    from the old struct to the new one, so the fields they leave alone can be stated.
  - Round trips are proved in both directions for formats, heaps, usage and bind flags, samplers
    (their integer fields, and a native sampler iff its comparison is `ALWAYS`), resource descriptions,
    the four view descriptions, and cube counts. Blend factors are proved in one direction: reading back
    gives the factor Direct3D 11 applies. The pipeline-state enumerations
    and fill modes have injectivity and shape lemmas instead.
- `d3d10_device.dfy` (module `D3D10Device`) models the Direct3D 10 device emulation in
  `source/d3d10/d3d10_impl_device.cpp`. This covers:
  - capability and format support;
  - the shared-resource branch of resource creation;
  - pipeline creation with its low-bit handle tagging;
  - the pipeline-layout range merge;
  - descriptor sets as flat `array<u64>` buffers updated in place;
  - query pools.

  Native runtime calls are parameters that say whether each call succeeded and what it returned.
- `vulkan_hooks.dfy` (module `VulkanHooks`) models the decision rules inside the Vulkan layer hooks in
  `source/vulkan/vulkan_hooks_device.cpp`:
  - graphics-queue selection;
  - extension and feature negotiation;
  - swapchain create-info patching;
  - the clear-barrier range;
  - clear flags;
  - render-pass recording;
  - per-command-buffer render-pass state;
  - the wrapper tables, modelled as a `Table` class whose `Emplace` never overwrites.

Integer widths are explicit. `u16`, `u32` and `u64` are subset types, and a C++ `uint32_t` increment or
multiplication that can wrap is written with `Wrap32`.

## Model

| member | source | states |
|---|---|---|
| Api.UsageFlagLayout | include/reshade_api.hpp:160-178 | `depth_stencil` is the disjoint union of its read and write halves, `shader_resource` is the disjoint union of pixel and non-pixel, and the single-purpose flags are pairwise disjoint |
| Api.UsageOr | include/reshade_api.hpp:186 | `a \| b` includes both operands and holds no bit that is in neither |
| Api.UsageAnd | include/reshade_api.hpp:185 | `a & b` is included in both operands and holds every bit they share |
| Api.UsageXor | include/reshade_api.hpp:184 | a bit is in `a ^ b` exactly when it is in one operand but not the other |
| Api.UsageOperatorLaws | include/reshade_api.hpp:184-186 | xor with the same flags undoes itself; `a ^ a` is `undefined`; `(a \| b) & b == b`; `a & b` is non-empty iff the flags overlap; `\|` equals xor of xor and and |
| Api.UsageVariable.constructor | include/reshade_api.hpp:187-189 | a usage variable holds the initial flags |
| Api.UsageVariable.OrAssign | include/reshade_api.hpp:189 | `\|=` stores `old \| rhs` and returns the stored value |
| Api.UsageVariable.AndAssign | include/reshade_api.hpp:188 | `&=` stores `old & rhs` and returns the stored value |
| Api.UsageVariable.XorAssign | include/reshade_api.hpp:187 | `^=` stores `old ^ rhs` and returns the stored value |
| Api.BufferSize | include/reshade_api.hpp:208-233 | the 64-bit buffer size overlays width (low 32 bits) and height (high 32 bits) of the texture view of the union |
| Api.WithBufferSize | include/reshade_api.hpp:208-233 | writing the buffer size makes `BufferSize` return it and changes no field outside width and height |
| Api.DefaultResourceDesc | include/reshade_api.hpp:196-197 | the default descriptor has type unknown, heap unknown, usage undefined, all dimensions zero and buffer size zero |
| Api.BufferResourceDesc | include/reshade_api.hpp:198-199 | the (size, heap, usage) constructor gives a buffer of that size, heap and usage |
| Api.Texture2DResourceDesc | include/reshade_api.hpp:200-201 | the texture constructor without a type is the typed constructor with `texture_2d` |
| Api.TypedResourceDesc | include/reshade_api.hpp:202-203 | the typed constructor stores its type, heap, usage and every texture dimension |
| Api.BufferOffset | include/reshade_api.hpp:261-285 | the view's 64-bit offset overlays first_level (low) and levels (high) |
| Api.BufferViewSize | include/reshade_api.hpp:261-285 | the view's 64-bit size overlays first_layer (low) and layers (high) |
| Api.WithBufferRange | include/reshade_api.hpp:261-285 | writing offset and size makes them read back and keeps the view type and format |
| Api.DefaultViewDesc | include/reshade_api.hpp:246-247 | the default view has type unknown, format zero and every range field zero |
| Api.BufferViewDesc | include/reshade_api.hpp:248-249 | the (format, offset, size) constructor gives a buffer view with that offset and size |
| Api.TypedViewDesc | include/reshade_api.hpp:252-253 | the typed view constructor stores its type, format and level and layer range |
| Api.Texture2DViewDesc | include/reshade_api.hpp:250-251 | the five-argument view constructor is the typed one with `texture_2d` |
| Api.LocationType | include/reshade_api.hpp:305-312 | type 0 is a subresource index and type 1 a placed footprint |
| Api.SubresourceAt | include/reshade_api.hpp:309-310 | the (level, layer, levels) location has type 0 and index `level + layer * levels` when that fits in 32 bits |
| Api.SubresourceIndexDecodes | include/reshade_api.hpp:302-310 | for `level < levels` the index decodes back: `index % levels == level` and `index / levels == layer` |
| Api.HandleComparisons | include/reshade_api.hpp:333-373 | handle equality, also against a plain 64-bit value, is equality of the wrapped value, and `<` is a strict total order |
| Api.ApiObject.constructor | include/reshade_api.hpp:379-392 | a new object has no data entries |
| Api.ApiObject.GetData | include/reshade_api.hpp:382-386 | `get_data` returns true iff a pointer was set for the guid, and then yields that non-null pointer; otherwise it yields null |
| Api.ApiObject.SetData | include/reshade_api.hpp:387-392 | `set_data` with null removes the guid's entry and with a pointer stores it; every other guid is untouched |
| Api.ApiObject.CreateData | include/reshade_api.hpp:410-415 | `create_data` stores the new allocation for the guid and reports the pointer it replaced |
| Api.ApiObject.DestroyData | include/reshade_api.hpp:416-422 | `destroy_data` hands back the stored pointer for deletion and leaves no entry for the guid |
| D3D11Convert.FormatToNative | source/d3d11/render_d3d11_utils.cpp:9-15 | formats below 1000 pass through unchanged; any other value becomes `DXGI_FORMAT_UNKNOWN` |
| D3D11Convert.FormatFromNative | source/d3d11/render_d3d11_utils.cpp:16-19 | a native format converts back to itself iff it is below 1000 (`FormatRoundTrip` gives both directions) |
| D3D11Convert.FormatRoundTrip | source/d3d11/render_d3d11_utils.cpp:9-19 | neutral, then native, then neutral is the identity below 1000 and unknown above; native formats below 1000 round-trip exactly |
| D3D11Convert.HeapToNative | source/d3d11/render_d3d11_utils.cpp:21-41 | an unknown heap changes nothing; CPU-access bits are only ever added; WRITE is present iff the heap is cpu_to_gpu or cpu_only or it was already set, and READ likewise for gpu_to_cpu or cpu_only |
| D3D11Convert.HeapFromNative | source/d3d11/render_d3d11_utils.cpp:42-57 | a known `D3D11_USAGE` never reads back as unknown or cpu_only; an unknown usage leaves the heap unchanged |
| D3D11Convert.HeapRoundTrip | source/d3d11/render_d3d11_utils.cpp:21-57 | a known heap reads back as itself, except cpu_only, which comes back as gpu_to_cpu; `IMMUTABLE` reads back as gpu_only |
| D3D11Convert.HeapNativeRoundTrip | source/d3d11/render_d3d11_utils.cpp:21-57 | native usage and access flags survive native, then neutral, then native iff they are one of the combinations the forward conversion produces |
| D3D11Convert.UsageToBindFlags | source/d3d11/render_d3d11_utils.cpp:59-95 | each of the seven bind bits is set iff the usage overlaps its flag group; every other bind bit is left as it was |
| D3D11Convert.BindFlagsToUsage | source/d3d11/render_d3d11_utils.cpp:96-116 | the prior usage is kept and copy_dest and copy_source are added; each set bind flag adds its whole usage group (`BindFlagsToUsageMonotonic`, `UsageBindRoundTrip` and `BindUsageRoundTrip` relate it to the forward conversion) |
| D3D11Convert.BindFlagsToUsageMonotonic | source/d3d11/render_d3d11_utils.cpp:96-116 | more bind flags and more prior usage never give less usage |
| D3D11Convert.UsageBindRoundTrip | source/d3d11/render_d3d11_utils.cpp:59-116 | usage, then bind flags, then usage gives copy_dest and copy_source plus every group the original usage touched |
| D3D11Convert.BindUsageRoundTrip | source/d3d11/render_d3d11_utils.cpp:59-116 | bind flags, then usage (plus any resolve bits), then bind flags reproduce the seven managed bits exactly and leave the others untouched |
| D3D11Convert.SamplerToNative | source/d3d11/render_d3d11_utils.cpp:118-133 | the comparison function is always `ALWAYS` |
| D3D11Convert.SamplerFromNative | source/d3d11/render_d3d11_utils.cpp:134-146 | reading a native sampler and converting it back gives the same native sampler iff its comparison is `ALWAYS` |
| D3D11Convert.SamplerRoundTrip | source/d3d11/render_d3d11_utils.cpp:118-146 | the integer parts of a neutral sampler survive the round trip; a native sampler survives iff its comparison is `ALWAYS` |
| D3D11Convert.BufferDescToNative | source/d3d11/render_d3d11_utils.cpp:148-155 | the byte width is the size truncated to 32 bits; misc flags and stride are untouched |
| D3D11Convert.Texture1DDescToNative | source/d3d11/render_d3d11_utils.cpp:156-167 | the native format is below 1000 and misc flags are untouched |
| D3D11Convert.Texture2DDescToNative | source/d3d11/render_d3d11_utils.cpp:168-179 | the native format is below 1000; misc flags and sample quality are untouched |
| D3D11Convert.Texture3DDescToNative | source/d3d11/render_d3d11_utils.cpp:180-191 | the native format is below 1000 and misc flags are untouched |
| D3D11Convert.BufferDescFromNative | source/d3d11/render_d3d11_utils.cpp:192-200 | gives a buffer of the byte width, with no flags and with copy_dest and copy_source usage |
| D3D11Convert.Texture1DDescFromNative | source/d3d11/render_d3d11_utils.cpp:201-216 | gives a 1D texture with height 1 and samples 1, and array size and levels truncated to 16 bits |
| D3D11Convert.Texture2DDescFromNative | source/d3d11/render_d3d11_utils.cpp:217-233 | gives a 2D texture; resolve_source iff samples > 1 and resolve_dest otherwise |
| D3D11Convert.Texture3DDescFromNative | source/d3d11/render_d3d11_utils.cpp:234-249 | gives a 3D texture with samples 1 and depth as depth_or_layers |
| D3D11Convert.BufferDescRoundTrip | source/d3d11/render_d3d11_utils.cpp:148-200 | a buffer below 4 GiB reads back with its size, the read-back heap and the read-back usage |
| D3D11Convert.Texture1DDescRoundTrip | source/d3d11/render_d3d11_utils.cpp:156-216 | a 1D texture reads back with every dimension, the read-back heap and usage, and no flags |
| D3D11Convert.Texture2DDescRoundTrip | source/d3d11/render_d3d11_utils.cpp:168-233 | a 2D texture reads back with every dimension, the read-back heap, and the read-back usage plus the resolve bit its sample count implies |
| D3D11Convert.Texture3DDescRoundTrip | source/d3d11/render_d3d11_utils.cpp:180-249 | a 3D texture reads back with every dimension, the read-back heap and usage, and no flags |
| D3D11Convert.BufferDescNativeRoundTrip | source/d3d11/render_d3d11_utils.cpp:148-200 | a native buffer description with a usage the forward conversion produces survives native, then neutral, then native |
| D3D11Convert.Texture1DDescNativeRoundTrip | source/d3d11/render_d3d11_utils.cpp:156-216 | a native 1D description whose counts fit 16 bits survives the round trip |
| D3D11Convert.Texture2DDescNativeRoundTrip | source/d3d11/render_d3d11_utils.cpp:168-233 | a native 2D description whose counts fit 16 bits survives the round trip |
| D3D11Convert.Texture3DDescNativeRoundTrip | source/d3d11/render_d3d11_utils.cpp:180-249 | a native 3D description whose counts fit 16 bits survives the round trip |
| D3D11Convert.CubesFromLayers | source/d3d11/render_d3d11_utils.cpp:411-420 | the sentinel 0xFFFFFFFF stays the sentinel; otherwise the cube count is `layers / 6` |
| D3D11Convert.LayersFromCubes | source/d3d11/render_d3d11_utils.cpp:684-693 | the sentinel stays the sentinel; otherwise the layer count is `cubes * 6` when that fits in 32 bits |
| D3D11Convert.CubeLayersRoundTrip | source/d3d11/render_d3d11_utils.cpp:411-420 | a layer count round-trips iff it is the sentinel or a multiple of 6 |
| D3D11Convert.CubeCountRoundTrip | source/d3d11/render_d3d11_utils.cpp:684-693 | a cube count round-trips iff it is the sentinel or `cubes * 6` does not wrap |
| D3D11Convert.DsvToNative | source/d3d11/render_d3d11_utils.cpp:251-287 | converts the format, keeps the native flags, and leaves everything else unchanged for an unhandled view type |
| D3D11Convert.DsvFromNative | source/d3d11/render_d3d11_utils.cpp:519-557 | converts the format back, reads levels as 1, and gives a depth-stencil view type or unknown |
| D3D11Convert.DsvRoundTrip | source/d3d11/render_d3d11_utils.cpp:251-557 | a depth-stencil view reads back with its type, format and range, with levels forced to 1 |
| D3D11Convert.DsvNativeRoundTrip | source/d3d11/render_d3d11_utils.cpp:251-557 | a native DSV description survives native, then neutral, then native |
| D3D11Convert.RtvToNative | source/d3d11/render_d3d11_utils.cpp:288-329 | converts the format and leaves everything else unchanged for an unhandled view type |
| D3D11Convert.Rtv1ToNative | source/d3d11/render_d3d11_utils.cpp:330-356 | the DESC1 converter agrees with the DESC converter on every shared field |
| D3D11Convert.RtvFromNative | source/d3d11/render_d3d11_utils.cpp:558-601 | converts the format back, reads levels as 1, and gives a render-target view type or unknown |
| D3D11Convert.Rtv1FromNative | source/d3d11/render_d3d11_utils.cpp:602-630 | the DESC1 reader agrees with the DESC reader |
| D3D11Convert.RtvRoundTrip | source/d3d11/render_d3d11_utils.cpp:288-601 | a render-target view reads back with its type, format and range, with levels forced to 1 |
| D3D11Convert.RtvNativeRoundTrip | source/d3d11/render_d3d11_utils.cpp:288-601 | a native RTV description survives native, then neutral, then native |
| D3D11Convert.SrvToNative | source/d3d11/render_d3d11_utils.cpp:357-422 | converts the format, writes the cube count for cube arrays, and leaves the rest unchanged for an unhandled type |
| D3D11Convert.Srv1ToNative | source/d3d11/render_d3d11_utils.cpp:423-450 | the DESC1 converter writes the DESC part like the DESC converter and keeps its own extra field |
| D3D11Convert.SrvFromNative | source/d3d11/render_d3d11_utils.cpp:631-702 | `BUFFEREX` reads back with type unknown but offset and size filled; a cube array reads back `cubes * 6` layers |
| D3D11Convert.Srv1FromNative | source/d3d11/render_d3d11_utils.cpp:703-732 | the DESC1 reader agrees with the DESC reader |
| D3D11Convert.SrvRoundTrip | source/d3d11/render_d3d11_utils.cpp:357-702 | buffer views keep their 32-bit offset and size; other views keep type, format and range, with levels as written; cube arrays lose only the layers that are not a whole cube |
| D3D11Convert.SrvNativeRoundTrip | source/d3d11/render_d3d11_utils.cpp:357-702 | a native SRV description whose cube count does not wrap survives native, then neutral, then native |
| D3D11Convert.UavToNative | source/d3d11/render_d3d11_utils.cpp:451-491 | converts the format and leaves everything else unchanged for an unhandled view type |
| D3D11Convert.Uav1ToNative | source/d3d11/render_d3d11_utils.cpp:492-518 | the DESC1 converter agrees with the DESC converter |
| D3D11Convert.UavFromNative | source/d3d11/render_d3d11_utils.cpp:733-774 | a buffer view reads offset and size; a texture view reads levels as 1 |
| D3D11Convert.Uav1FromNative | source/d3d11/render_d3d11_utils.cpp:775-803 | the DESC1 reader agrees with the DESC reader |
| D3D11Convert.UavRoundTrip | source/d3d11/render_d3d11_utils.cpp:451-774 | buffer views keep their 32-bit offset and size; texture views keep type, format and range, with levels forced to 1 |
| D3D11Convert.UavNativeRoundTrip | source/d3d11/render_d3d11_utils.cpp:451-774 | a native UAV description survives native, then neutral, then native |
| D3D11Convert.OffsetEnumToNative | source/d3d11/render_d3d11_utils.cpp:805-808 | blend, cull, compare and stencil ops share one conversion (also at 872-884); the native value is zero only for the value that wraps |
| D3D11Convert.TopologyToNative | source/d3d11/render_d3d11_utils.cpp:885-889 | the caller must not pass a triangle fan, as the debug assertion demands, and none reaches Direct3D 11; `PipelineEnumConversions` proves the number is kept |
| D3D11Convert.PipelineEnumConversions | source/d3d11/render_d3d11_utils.cpp:805-889 | the four offset enumerations convert as value + 1 below `UINT32_MAX` and are injective; the topology conversion is the identity |
| D3D11Convert.BlendFactorToNative | source/d3d11/render_d3d11_utils.cpp:809-857 | every factor maps to a `D3D11_BLEND` value in 1..19, skipping the unused 12 and 13 |
| D3D11Convert.BlendFactorRoundTrip | source/d3d11/render_d3d11_utils.cpp:809-857 | reading back a converted factor gives the factor Direct3D 11 actually applies (the constant-alpha factors fold into blend-factor) |
| D3D11Convert.BlendFactorCollisions | source/d3d11/render_d3d11_utils.cpp:809-857 | two factors convert to the same native value iff they have the same effective factor |
| D3D11Convert.FillModeToNative | source/d3d11/render_d3d11_utils.cpp:858-871 | the result is wireframe iff the mode is wireframe, and solid otherwise |
| D3D10Device.CheckCapability | source/d3d10/d3d10_impl_device.cpp:71-116 | true exactly for the always-supported capabilities, and for geometry shaders at feature level 10_0 or above |
| D3D10Device.CheckFormatSupport | source/d3d10/d3d10_impl_device.cpp:117-137 | true iff the usage has no unordered-access bit, the native query succeeds, and every requested usage has its support bit |
| D3D10Device.FormatSupportMonotonic | source/d3d10/d3d10_impl_device.cpp:117-137 | asking for less usage, or having more support bits, never turns a supported format into an unsupported one |
| D3D10Device.CreateResource | source/d3d10/d3d10_impl_device.cpp:172-269 | false always comes with a zero handle; a shared request without a slot or with an NT handle fails before any call; a filled slot only opens; a new shareable resource whose handle cannot be exported is released |
| D3D10Device.MapTextureRegion | source/d3d10/d3d10_impl_device.cpp:446-481 | a missing output fails; the output is zeroed first, and a box, an unknown texture type or a failed map leave it zero and fail; success iff a 1D, 2D or 3D texture maps; then a 1D map fills only the pointer, a 2D map the pointer and row pitch, a 3D map all three fields |
| D3D10Device.MappedOutput | source/d3d10/d3d10_impl_device.cpp:466-478 | the fields each texture type's Map writes: pointer always, row pitch except for 1D, depth pitch only for 3D |
| D3D10Device.Wanted | source/d3d10/d3d10_impl_device.cpp:561-597 | the state objects a graphics pipeline always creates are always wanted |
| D3D10Device.FirstFailure | source/d3d10/d3d10_impl_device.cpp:561-597 | the index of the first wanted state object that could not be created; every earlier wanted creation succeeded |
| D3D10Device.Held | source/d3d10/d3d10_impl_device.cpp:561-597 | exactly the non-null objects created so far, which a failure releases |
| D3D10Device.CreateGraphicsPipeline | source/d3d10/d3d10_impl_device.cpp:550-600 | rejects hull or domain code, conservative rasterization, logic op and triangle fan; succeeds iff every wanted object is created; the handle is the record address with its low bit set; a failure returns false with a zero handle and releases exactly the non-null objects created before the first failing one |
| D3D10Device.StageSlot | source/d3d10/d3d10_impl_device.cpp:520-549 | a single-stage request names one of the seven state objects |
| D3D10Device.PipelineForStage | source/d3d10/d3d10_impl_device.cpp:520-549 | an unsupported stage fails; all graphics stages build the graphics pipeline; a single stage succeeds iff its state object was created, and then the handle is that object, with the low bit clear and no record |
| D3D10Device.CreatePipeline | source/d3d10/d3d10_impl_device.cpp:520-549 | any dynamic state other than primitive topology fails with a zero handle; otherwise the result is dispatched by stage |
| D3D10Device.DestroyPipeline | source/d3d10/d3d10_impl_device.cpp:735-741 | low bit set deletes the record at `handle - 1`; zero does nothing; anything else releases the object |
| D3D10Device.DestroyCreatedPipeline | source/d3d10/d3d10_impl_device.cpp:520-741 | destroying a handle that creation returned deletes the record for graphics pipelines, releases the object for single stages, and does nothing after a failure |
| D3D10Device.JoinRange | source/d3d10/d3d10_impl_device.cpp:771-791 | the merged range takes binding and register of the lower binding and ORs visibility; under the covering rule it spans from the lowest binding to the highest end |
| D3D10Device.BindingBounds | source/d3d10/d3d10_impl_device.cpp:751-792 | the lowest binding and the highest end bound every range and are reached by some range |
| D3D10Device.MergeCovers | source/d3d10/d3d10_impl_device.cpp:751-792 | the corrected merge starts at the lowest binding and ends at the highest range end |
| D3D10Device.MergeRulesAgree | source/d3d10/d3d10_impl_device.cpp:751-792 | the as-written and corrected merges reject the same inputs and differ only in count |
| D3D10Device.JoinRulesAgree | source/d3d10/d3d10_impl_device.cpp:771-791 | one join step under either rule accepts the same range and keeps every field but the count equal |
| D3D10Device.JoinableAgrees | source/d3d10/d3d10_impl_device.cpp:756-787 | against a merged range that keeps the first range's type, space and offset, a range can join iff it agrees with the first range |
| D3D10Device.JoinKeepsOffset | source/d3d10/d3d10_impl_device.cpp:770-790 | a join keeps the type, register space and register offset |
| D3D10Device.AllAgreeSnoc | source/d3d10/d3d10_impl_device.cpp:756-787 | a list agrees throughout iff its prefix does and its last range agrees with the first |
| D3D10Device.MergeAccepts | source/d3d10/d3d10_impl_device.cpp:751-792 | under either count rule, a descriptor set merges iff every range has the first's type, at most one element, register space 0 and the first's register offset modulo 2^32; the merged range keeps that type, space and offset |
| D3D10Device.MergeVisibility | source/d3d10/d3d10_impl_device.cpp:778-790 | under either count rule, a merged range is visible to a shader stage iff one of its ranges is |
| D3D10Device.MergeCountAsWritten | source/d3d10/d3d10_impl_device.cpp:770-790 | as written, ranges at bindings 0 (count 1) and 1 (count 4) merge to count 2 instead of 5, and three adjacent single ranges merge to count 4 instead of 3; the covering rule gives 5 and 3 |
| D3D10Device.MergedParam | source/d3d10/d3d10_impl_device.cpp:747-805 | an empty descriptor-set parameter fails and a non-empty one merges iff every range agrees with the first; push descriptors pass unchanged iff their register space is 0; push constants pass iff their space is 0, keeping the register index; every merged range has register space 0, and a merged descriptor set is visible to exactly the stages of its ranges |
| D3D10Device.MergeDescriptorSet | source/d3d10/d3d10_impl_device.cpp:751-792 | under the given count rule, the merge loop succeeds iff the merge accepts every range, and then returns the merged range |
| D3D10Device.MergePrefixFails | source/d3d10/d3d10_impl_device.cpp:751-792 | once a prefix of ranges fails to merge, the whole list fails |
| D3D10Device.CreatePipelineLayout | source/d3d10/d3d10_impl_device.cpp:743-813 | with `CountRule.AsWritten` this is the code as written (with `CountRule.Covering`, the corrected layout): succeeds iff every parameter merges, then returns one merged range per parameter, equal to `MergedParam` and so visible to exactly the stages of its ranges; false comes with a zero handle |
| D3D10Device.Stride | source/d3d10/d3d10_impl_device.cpp:833-844 | a descriptor takes 1 word for samplers and shader resource views, 3 for constant buffers, and never more than 3 |
| D3D10Device.OverwriteExactly | source/d3d10/d3d10_impl_device.cpp:876-930 | an overwrite replaces exactly the target slice and keeps every other element |
| D3D10Device.WriteWords | source/d3d10/d3d10_impl_device.cpp:876-930 | the in-place copy leaves the array equal to the overwrite of the old contents |
| D3D10Device.DescriptorSet.constructor | source/d3d10/d3d10_impl_device.cpp:829-844 | a new set has the range's type and count and `count * stride` zeroed words |
| D3D10Device.DescriptorSet.Update | source/d3d10/d3d10_impl_device.cpp:904-930 | overwrites exactly words `[binding*stride, (binding+count)*stride)` with the given descriptors |
| D3D10Device.DescriptorSet.CopyFrom | source/d3d10/d3d10_impl_device.cpp:876-903 | overwrites exactly the destination slice with the old source slice; a different source set is unchanged |
| D3D10Device.DescriptorSetPool.constructor | source/d3d10/d3d10_impl_device.cpp:821-866 | a new pool has no live sets |
| D3D10Device.DescriptorSetPool.Allocate | source/d3d10/d3d10_impl_device.cpp:821-861 | a null layout nulls every output and returns false; otherwise the sets are fresh and pairwise distinct, each with the parameter's type and count and `count * stride` zeroed words, and they join the live sets |
| D3D10Device.DescriptorSetPool.Free | source/d3d10/d3d10_impl_device.cpp:862-866 | removes exactly the given non-null sets from the live sets |
| D3D10Device.DescriptorPoolOffset | source/d3d10/d3d10_impl_device.cpp:868-874 | the pool is null and the offset is the binding |
| D3D10Device.CreateQueryPool | source/d3d10/d3d10_impl_device.cpp:932-953 | succeeds iff every query is created, then holds them in order; on failure the queries before the first failure are released and the handle is zero |
| VulkanHooks.FirstGraphicsFamily | source/vulkan/vulkan_hooks_device.cpp:85-100 | the family of the first create-info with queues on a graphics family, or `UINT32_MAX` iff there is none |
| VulkanHooks.SelectGraphicsQueueFamily | source/vulkan/vulkan_hooks_device.cpp:85-100 | the loop returns the first usable family, or `UINT32_MAX` iff no create-info is usable |
| VulkanHooks.ApplicationFeatures | source/vulkan/vulkan_hooks_device.cpp:102-108 | chained features take precedence over the plain pointer; none means all features off |
| VulkanHooks.RequestedExtensions | source/vulkan/vulkan_hooks_device.cpp:165-170 | exactly image_format_list and swapchain_mutable_format are required |
| VulkanHooks.Supported | source/vulkan/vulkan_hooks_device.cpp:136-158 | the appended extensions are exactly the requested ones the driver lists |
| VulkanHooks.AddExtension | source/vulkan/vulkan_hooks_device.cpp:136-158 | an extension is appended iff the driver lists it; a missing required one resets the graphics family |
| VulkanHooks.AddExtensions | source/vulkan/vulkan_hooks_device.cpp:165-170 | the calls append the supported requests in order and reset the family iff a required one is missing |
| VulkanHooks.Negotiated | source/vulkan/vulkan_hooks_device.cpp:110-170 | the application's extensions stay first and in order; the family is `UINT32_MAX` iff the swapchain extension is absent, no graphics family was found, or a required extension is missing; a device that keeps its family has the swapchain, image_format_list and swapchain_mutable_format extensions and both forced features |
| VulkanHooks.RequiredListed | source/vulkan/vulkan_hooks_device.cpp:165-170 | when no required extension is missing, both required extensions are appended |
| VulkanHooks.Negotiate | source/vulkan/vulkan_hooks_device.cpp:110-170 | the loop and calls compute the negotiated create-info: without the swapchain extension the family becomes `UINT32_MAX`; without a graphics family nothing changes; otherwise the supported extensions are appended and the two features forced on |
| VulkanHooks.RequiredExtensionsDecide | source/vulkan/vulkan_hooks_device.cpp:136-170 | the family is reset iff image_format_list or swapchain_mutable_format is missing; optional ones never matter |
| VulkanHooks.Table.constructor | source/vulkan/vulkan_hooks_device.cpp:15-19 | a new table is empty |
| VulkanHooks.Table.Emplace | source/vulkan/vulkan_hooks_device.cpp:1012-1017 | inserts iff the key is absent and never overwrites |
| VulkanHooks.Table.Erase | source/vulkan/vulkan_hooks_device.cpp:1024-1028 | returns the stored value if any and removes the key |
| VulkanHooks.CreateDevice | source/vulkan/vulkan_hooks_device.cpp:68-321 | no next layer gives `INITIALIZATION_FAILED` and changes nothing; otherwise the create-info passed down is the negotiation over the first usable graphics family and the application's features; a failing next result is returned unchanged with nothing registered; success registers the negotiated graphics family unless the device is already known |
| VulkanHooks.InsertUnique | source/vulkan/vulkan_hooks_device.cpp:411-412 | inserting into a strictly increasing list keeps it strictly increasing with the same values plus the new one |
| VulkanHooks.SortUnique | source/vulkan/vulkan_hooks_device.cpp:411-412 | sort and unique give a strictly increasing list with exactly the input's values |
| VulkanHooks.StrictlyIncreasingUnique | source/vulkan/vulkan_hooks_device.cpp:411-412 | two strictly increasing lists with the same values are equal, so the sorted unique list is determined by the value set |
| VulkanHooks.OtherFamilies | source/vulkan/vulkan_hooks_device.cpp:433-435 | the application's indices other than the graphics family, in order |
| VulkanHooks.ConcurrentFamilies | source/vulkan/vulkan_hooks_device.cpp:428-439 | the concurrent list is the graphics family followed by every other application index in order |
| VulkanHooks.PatchSwapchain | source/vulkan/vulkan_hooks_device.cpp:385-440 | no graphics family leaves the info unchanged; otherwise TRANSFER_SRC is added, MUTABLE_FORMAT iff the sRGB and normal formats differ, a chained list becomes sorted and unique with the two formats added, a new list is chained only if they differ, and concurrent sharing gets the graphics family first |
| VulkanHooks.PatchedFormatsCanonical | source/vulkan/vulkan_hooks_device.cpp:404-417 | format lists with the same values patch to the same list |
| VulkanHooks.ClearTransitionRange | source/vulkan/vulkan_hooks_device.cpp:1143-1157 | the barrier range ORs the aspect masks, takes the largest level and layer counts, and keeps base level and layer at 0 |
| VulkanHooks.ClearUnionShape | source/vulkan/vulkan_hooks_device.cpp:1150-1157 | the folded range contains every aspect of every range and no other, has bases 0, and has counts that are reached by some range |
| VulkanHooks.ClearUnionMissesCleared | source/vulkan/vulkan_hooks_device.cpp:1150-1157 | one range at mip level 2 gives a barrier over level 0 only, which misses the cleared level |
| VulkanHooks.ClearUnionCoversFromZero | source/vulkan/vulkan_hooks_device.cpp:1150-1157 | when every range starts at level 0 and layer 0, the as-written barrier covers every range |
| VulkanHooks.SpanBounds | source/vulkan/vulkan_hooks_device.cpp:1150-1157 | the lowest base and the highest end bound every span, and the end never passes the end of the image |
| VulkanHooks.AspectUnion | source/vulkan/vulkan_hooks_device.cpp:1152 | the corrected aspect mask includes every range's aspects |
| VulkanHooks.CoveringSpanCovers | source/vulkan/vulkan_hooks_device.cpp:1150-1157 | the corrected span covers every input span |
| VulkanHooks.CoveringTransitionCovers | source/vulkan/vulkan_hooks_device.cpp:1150-1157 | the corrected barrier range covers every cleared range, aspects, levels and layers |
| VulkanHooks.AspectClearFlags | source/vulkan/vulkan_hooks_device.cpp:1203-1205 | bit 0x1 iff the aspect has depth, bit 0x2 iff it has stencil, and nothing else |
| VulkanHooks.LoadOpClearFlags | source/vulkan/vulkan_hooks_device.cpp:881-883 | bit 0x1 iff the load op clears, bit 0x2 iff the stencil load op clears; empty iff neither clears |
| VulkanHooks.Recorded | source/vulkan/vulkan_hooks_device.cpp:862-868 | a used attachment reference is kept; an unused one becomes {UNUSED, UNDEFINED} |
| VulkanHooks.RecordedDepthStencil | source/vulkan/vulkan_hooks_device.cpp:870-876 | a missing or unused depth-stencil reference becomes {UNUSED, UNDEFINED} |
| VulkanHooks.RecordSubpass | source/vulkan/vulkan_hooks_device.cpp:856-877 | a recorded subpass has one recorded reference per colour attachment and the recorded depth-stencil reference |
| VulkanHooks.RecordClears | source/vulkan/vulkan_hooks_device.cpp:879-887 | the cleared list holds, in order, exactly the attachments whose load ops clear, with their flags and initial layouts |
| VulkanHooks.RecordRenderPass | source/vulkan/vulkan_hooks_device.cpp:852-887 | one recorded subpass per subpass with every colour reference and the depth-stencil reference as recorded, and the cleared list holding, in order, every attachment whose load ops clear |
| VulkanHooks.CreateRenderPass | source/vulkan/vulkan_hooks_device.cpp:837-890 | the driver's result is returned; render-pass data is recorded iff it is success, and then holds every subpass's recorded references and every clearing attachment, in order |
| VulkanHooks.SubpassTargets | source/vulkan/vulkan_hooks_device.cpp:1242-1250 | render targets are the framebuffer views of the used colour attachments, zero for unused ones, and the depth-stencil view likewise |
| VulkanHooks.CommandList.constructor | source/vulkan/vulkan_hooks_device.cpp:1014 | a new command-buffer wrapper belongs to its command buffer and is outside any render pass |
| VulkanHooks.CommandList.BeginRenderPass | source/vulkan/vulkan_hooks_device.cpp:1231-1250 | sets subpass 0, records the render pass and framebuffer, and binds subpass 0's targets |
| VulkanHooks.CommandList.NextSubpass | source/vulkan/vulkan_hooks_device.cpp:1337-1353 | increments the subpass with 32-bit wrap, keeps the handles and binds the new subpass's targets |
| VulkanHooks.CommandList.EndRenderPass | source/vulkan/vulkan_hooks_device.cpp:1371-1376 | resets the subpass to `UINT32_MAX` and both handles to null |
| VulkanHooks.Registered | source/vulkan/vulkan_hooks_device.cpp:1012-1017 | (specification) the handles registered after each emplace; the initial handles are never lost |
| VulkanHooks.RegisteredHandles | source/vulkan/vulkan_hooks_device.cpp:1012-1017 | the registered handles are exactly the initial ones plus every command buffer offered so far |
| VulkanHooks.Discards | source/vulkan/vulkan_hooks_device.cpp:1012-1017 | (specification) the handles, in order, whose emplace fails because they are already registered when they arrive; at most one per command buffer |
| VulkanHooks.AllocationAccounted | source/vulkan/vulkan_hooks_device.cpp:1012-1017 | every allocated wrapper is either registered under a new handle or discarded: the two counts add up to the number of command buffers |
| VulkanHooks.AllocateCommandBuffers | source/vulkan/vulkan_hooks_device.cpp:1004-1020 | a failing result is returned with the table unchanged; on success every buffer has an entry, existing entries are kept, new wrappers are fresh, outside a render pass and belong to their handle, and one fresh unregistered wrapper is discarded per handle in the discards, in order |
| VulkanHooks.Erased | source/vulkan/vulkan_hooks_device.cpp:1024-1028 | (specification) the wrappers freeing deletes: each registered handle's wrapper at its first occurrence; every registered freed wrapper is among them and nothing else |
| VulkanHooks.FreeCommandBuffers | source/vulkan/vulkan_hooks_device.cpp:1024-1028 | removes exactly the freed buffers' entries and hands back exactly the erased wrappers, in order |

## Left out

- Floating-point state is not modelled: sampler LOD, bias and anisotropy, blend constants, clear colour and depth values, and the queue-priority warning.
- Logging and the swapchain description dump are I/O and are not modelled. Debug assertions are not modelled either, except the few that become a `requires` (listed below).
- The Vulkan render-pass recording (`vulkan_hooks_device.cpp:852-889`), the command-buffer table (1011-1018 and 1024-1029), the clear barrier (1142-1177) and the render-pass and subpass tracking of the command lists (1230-1377) are the `RESHADE_ADDON` build. This model describes that build. Without it these hooks only call the driver: `VulkanHooks.CreateRenderPass` records nothing, `VulkanHooks.AllocateCommandBuffers` and `VulkanHooks.FreeCommandBuffers` touch no table, and the `VulkanHooks.CommandList` methods do not run. The debug-only extension request (168-170) is the `debugBuild` parameter of `VulkanHooks.Negotiated`.
- Resolving the next layer's `vkCreateDevice`, the loader's layer chain and the dispatch-table initialisation are foreign calls. The model keeps only whether a next function exists and what it returns.
- Native object creation and release (COM `Create*` and `Release`, `vk*` driver calls, `GetDesc`, `QueryInterface`, `GetSharedHandle`) are parameters that say whether each call succeeded and what it returned.
- `create_input_layout` and the other per-stage creators are represented only by their results.
- `lockfree_table` concurrency is not modelled. The wrapper tables are sequential maps.
- Event callbacks (`invoke_addon_event`) and add-on loading are not modelled. This includes the clear-value forwarding in `vkCmdBeginRenderPass` and the barrier that restores the old layout after a clear.
- `vkCreateRenderPass2`, `vkDestroyDevice`, queue-wrapper registration and the image, buffer and view hooks are outside this model.
- The render-pass and framebuffer tables that `vkCmdBeginRenderPass` and `vkCmdNextSubpass` read are passed in as values. The wrapper lookup that skips tracking when a command buffer is unknown is not modelled.
- `make_format_srgb` and `make_format_normal` are not part of this model. Their results are parameters of `VulkanHooks.PatchSwapchain`.
- Extension names are compared as whole strings. The 256-character truncation of `strncmp` is not modelled.
- `include/reshade_api.hpp` declares an older descriptor layout than the backends use. The descriptors follow the backends (`desc.texture`, `desc.buffer`, `desc.flags`); the header's flag values and contracts are kept.
- `include/reshade_api.hpp` does not declare `resource_flags::shared` or `shared_nt_handle`. They are modelled as two distinct bits, and only their presence is tested.
- `primitive_topology::triangle_fan` is taken as 6. Only the equality test against it matters.
- The copy and update entry points take batches of copies and updates. The model states one entry; the batch applies them in order.
- `DescriptorSetPool.Free` removes sets from the live set. The memory release of `delete` is not modelled.
- VulkanHooks.CommandList.constructor: the body of the `command_list_impl` constructor is not part of this model. A new wrapper keeps the command buffer it is given and is assumed to start outside a render pass, which is the state `vkCmdEndRenderPass` restores.
- VulkanHooks.CommandList.BeginRenderPass requires a first subpass and attachment indices inside the framebuffer. The source indexes both without checking, so other inputs have no defined behaviour.
- VulkanHooks.CommandList.NextSubpass requires the incremented subpass to exist. The source indexes the subpass list without a bounds check.
- VulkanHooks.SelectGraphicsQueueFamily requires every queue family index to be below the family count, which the source only asserts.
- D3D10Device.DescriptorSet.CopyFrom requires the source and destination slices not to overlap when they are the same set, because `memcpy` on overlapping memory is undefined.
- D3D11Convert.TopologyToNative requires the topology not to be a triangle fan, which the source only asserts.
- D3D11Convert.SamplerToNative covers only the integer fields: filter, the three address modes and the comparison function. The LOD bias, anisotropy, border colour and LOD range are floating point and are not modelled.

## Findings

| source | as written | input that shows it | evidently intended | confidence | as-written member | corrected member |
|---|---|---|---|---|---|---|
| source/d3d10/d3d10_impl_device.cpp:770-790 | merging a range into a descriptor-set range adds only the binding distance to the count and ignores the joining range's own count | ranges at binding 0 with count 1 and binding 1 with count 4 (same type, registers 0 and 1) merge to count 2; three single ranges at bindings 0, 1 and 2 merge to count 4, over-counting by one | the merged range spans from the lowest binding to the highest range end (counts 5 and 3) | not executed | D3D10Device.MergeCountAsWritten | D3D10Device.MergeCovers |
| source/vulkan/vulkan_hooks_device.cpp:1150-1157 | the clear barrier starts from a zeroed range, so `min` keeps base level and base layer at 0 while the counts are only the largest input counts | one colour range at mip level 2 with one level gives a barrier over mip level 0 only | the barrier covers every cleared level and layer (from the lowest base to the highest end) | not executed | VulkanHooks.ClearUnionMissesCleared | VulkanHooks.CoveringTransitionCovers |
