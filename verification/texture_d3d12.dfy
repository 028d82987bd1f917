/** A D3D12 texture: created as a description only, then given memory once. Renderable
    textures receive an optimized clear value whose kind follows the format. */
module D3d12Texture {
  import opened Common
  import D3d12Memory
  import D3d12Buffer

  datatype Texture = Texture(desc: TextureDesc, resource: nat)

  /** Wraps a caller resource; `derived` is the description read from it (None when it
      cannot be derived). */
  function CreateWrapped(derived: Option<TextureDesc>, resource: nat): (r: (Status, Option<Texture>))
    ensures derived.None? <==> r.0 == InvalidArgument
    ensures derived.None? ==> r.1.None?
    ensures derived.Some? ==> r.0 == Success && r.1 == Some(Texture(derived.value, resource))
  {
    if derived.None? then (InvalidArgument, None) else (Success, Some(Texture(derived.value, resource)))
  }

  datatype ClearKind = DepthStencilClear | ColorClear

  /** The optimized clear value: the typed format and which half of the union is used. */
  datatype ClearValue = ClearValue(format: nat, kind: ClearKind)

  /** The clear value handed to creation: only renderable surfaces get one, and it carries
      depth/stencil values exactly when the format has a depth or a stencil aspect. */
  function OptimizedClearValue(typedFormat: nat, isDepthOrStencil: bool, renderable: bool): (r: Option<ClearValue>)
    ensures r.Some? <==> renderable
    ensures r.Some? ==> r.value.format == typedFormat && (r.value.kind == DepthStencilClear <==> isDepthOrStencil)
  {
    if renderable then Some(ClearValue(typedFormat, if isDepthOrStencil then DepthStencilClear else ColorClear)) else None
  }

  /** Heap flags for textures: on memory tier 0 a heap holds either render-target and
      depth-stencil textures or other textures, never buffers. */
  function TextureHeapFlags(usage: set<TextureUsage>, memoryTier: nat): (r: set<HeapFlag>)
    ensures memoryTier != 0 ==> r == ALLOW_ALL_BUFFERS_AND_TEXTURES
    ensures memoryTier == 0 ==> DenyBuffers in r
    ensures memoryTier == 0 ==>
      (DenyNonRtDsTextures in r <==> (ColorAttachment in usage || DepthStencilAttachment in usage))
    ensures memoryTier == 0 ==> (DenyRtDsTextures in r <==> DenyNonRtDsTextures !in r)
  {
    if memoryTier != 0 then ALLOW_ALL_BUFFERS_AND_TEXTURES
    else if ColorAttachment in usage || DepthStencilAttachment in usage then ALLOW_ONLY_RT_DS_TEXTURES
    else ALLOW_ONLY_NON_RT_DS_TEXTURES
  }

  datatype PoolRequest = PoolRequest(heapType: HeapType, flags: set<AllocationFlag>, extraHeapFlags: set<HeapFlag>, clearValue: Option<ClearValue>)

  datatype Allocated = Allocated(status: Status, texture: Texture, request: PoolRequest)

  /** Creates the resource with memory of its own (in the COMMON state). `createCall` is
      the allocator's answer, `residencyCall` that of SetResidencyPriority. */
  function Allocate(t: Texture, committed: bool, memoryTier: nat, heapType: HeapType,
                    typedFormat: nat, isDepthOrStencil: bool, renderable: bool,
                    createCall: Outcome<Token>, residencyCall: Status): (r: Allocated)
    requires t.resource == 0
    ensures r.request == PoolRequest(heapType, ResourceAllocationFlags(committed, false), TextureHeapFlags(t.desc.usage, memoryTier),
                                     OptimizedClearValue(typedFormat, isDepthOrStencil, renderable))
    ensures r.texture.desc == t.desc
    ensures createCall.Err? ==> r.status == createCall.code && r.texture == t
    ensures createCall.Ok? ==> r.status == residencyCall && r.texture.resource == createCall.value
  {
    var request := PoolRequest(heapType, ResourceAllocationFlags(committed, false), TextureHeapFlags(t.desc.usage, memoryTier),
                               OptimizedClearValue(typedFormat, isDepthOrStencil, renderable));
    match createCall
    case Err(e) => Allocated(e, t, request)
    case Ok(h) => Allocated(residencyCall, t.(resource := h), request)
  }

  datatype BoundToMemory = BoundToMemory(status: Status, texture: Texture, placement: D3d12Buffer.Placement, clearValue: Option<ClearValue>)

  /** Creates the resource inside a memory object, in the COMMON state, committed when the
      memory is a dummy and placed otherwise, with the same DENY-free heap flags and
      offset rule as buffers. */
  function BindMemory(t: Texture, mem: D3d12Memory.Memory, offset: nat, zeroInit: bool,
                      typedFormat: nat, isDepthOrStencil: bool, renderable: bool,
                      createCall: Outcome<Token>, residencyCall: Status): (r: BoundToMemory)
    requires t.resource == 0
    ensures r.placement == D3d12Buffer.PlacementIn(mem, offset, zeroInit)
    ensures r.clearValue == OptimizedClearValue(typedFormat, isDepthOrStencil, renderable)
    ensures r.texture.desc == t.desc
    ensures createCall.Err? ==> r.status == createCall.code && r.texture == t
    ensures createCall.Ok? ==> r.status == residencyCall && r.texture.resource == createCall.value
  {
    var placement := D3d12Buffer.PlacementIn(mem, offset, zeroInit);
    var clear := OptimizedClearValue(typedFormat, isDepthOrStencil, renderable);
    match createCall
    case Err(e) => BoundToMemory(e, t, placement, clear)
    case Ok(h) => BoundToMemory(residencyCall, t.(resource := h), placement, clear)
  }

  /** A memory object that must be dedicated is a dummy, so a texture bound into it is a
      committed resource with the memory's heap type and no DENY heap flags. */
  lemma DedicatedMemoryMakesCommittedTexture(d: D3d12Memory.AllocateDesc, memZeroInit: bool,
                                             poolCall: Outcome<D3d12Memory.PooledAllocation>, heapCall: Outcome<Token>, memResidency: Status,
                                             t: Texture, offset: nat, zeroInit: bool,
                                             typedFormat: nat, isDepthOrStencil: bool, renderable: bool,
                                             createCall: Outcome<Token>, residencyCall: Status)
    requires d.info.mustBeDedicated && t.resource == 0
    ensures var mem := D3d12Memory.CreateAllocated(d, memZeroInit, poolCall, heapCall, memResidency).memory;
      var placement := BindMemory(t, mem, offset, zeroInit, typedFormat, isDepthOrStencil, renderable, createCall, residencyCall).placement;
      && placement.Committed?
      && placement.properties.heapType == d.info.heapType
      && placement.heapFlags * DENY_FLAGS == {}
  {
  }

  /** A pooled-allocator memory object places the texture at the sub-allocation's offset
      plus the caller's offset, inside the sub-allocation's heap. */
  lemma PooledMemoryPlacesTexture(d: D3d12Memory.AllocateDesc, memZeroInit: bool, a: D3d12Memory.PooledAllocation,
                                  heapCall: Outcome<Token>, memResidency: Status,
                                  t: Texture, offset: nat, zeroInit: bool,
                                  typedFormat: nat, isDepthOrStencil: bool, renderable: bool,
                                  createCall: Outcome<Token>, residencyCall: Status)
    requires !d.info.mustBeDedicated && d.useVma && t.resource == 0
    ensures var mem := D3d12Memory.CreateAllocated(d, memZeroInit, Ok(a), heapCall, memResidency).memory;
      BindMemory(t, mem, offset, zeroInit, typedFormat, isDepthOrStencil, renderable, createCall, residencyCall).placement
        == D3d12Buffer.Placed(a.heap, a.offset + offset)
  {
  }

  /** A texture asks the pooled allocator for the same allocation flags as a buffer in the
      same heap, for the flags of its usage on tier 0, and for a clear value exactly when
      it is renderable; on a higher tier both heaps admit everything. */
  lemma AllocateAsksLikeABuffer(t: Texture, b: D3d12Buffer.Buffer, location: MemoryLocation, committed: bool, memoryTier: nat,
                                heapType: HeapType, typedFormat: nat, isDepthOrStencil: bool, renderable: bool,
                                createCall: Outcome<Token>, residencyCall: Status, mapCall: Outcome<Token>)
    requires t.resource == 0 && b.resource == 0
    ensures var tr := Allocate(t, committed, memoryTier, heapType, typedFormat, isDepthOrStencil, renderable, createCall, residencyCall).request;
      var br := D3d12Buffer.Allocate(b, location, committed, memoryTier, heapType, createCall, residencyCall, mapCall).request;
      && tr.heapType == br.heapType && tr.flags == br.flags
      && (memoryTier != 0 ==> tr.extraHeapFlags == br.extraHeapFlags)
      && (tr.clearValue.Some? <==> renderable)
  {
  }

  /** A texture gets its resource once: after a successful creation, by either path, the
      texture holds a resource and neither `Allocate` nor `BindMemory` may be called again. */
  lemma TextureIsCreatedOnce(t: Texture, committed: bool, memoryTier: nat, heapType: HeapType,
                             mem: D3d12Memory.Memory, offset: nat, zeroInit: bool,
                             typedFormat: nat, isDepthOrStencil: bool, renderable: bool,
                             createCall: Outcome<Token>, residencyCall: Status)
    requires t.resource == 0 && createCall.Ok?
    ensures Allocate(t, committed, memoryTier, heapType, typedFormat, isDepthOrStencil, renderable, createCall, residencyCall).texture.resource != 0
    ensures BindMemory(t, mem, offset, zeroInit, typedFormat, isDepthOrStencil, renderable, createCall, residencyCall).texture.resource != 0
  {
  }

  /** A tier-0 texture heap never admits buffers and a buffer heap never admits textures,
      so the two kinds are never mixed in one pooled heap on that tier. */
  lemma TierZeroSeparatesBuffersAndTextures(usage: set<TextureUsage>)
    ensures DenyBuffers in TextureHeapFlags(usage, 0)
    ensures DenyRtDsTextures in D3d12Buffer.BufferHeapFlags(0) && DenyNonRtDsTextures in D3d12Buffer.BufferHeapFlags(0)
  {
  }
}
