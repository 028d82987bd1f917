/** A D3D12 buffer: created as a description only, then given memory once, either by
    the pooled allocator or by placing it in a memory object (committed when the memory
    object is a dummy). Upload and readback buffers are persistently mapped. */
module D3d12Buffer {
  import opened Common
  import D3d12Memory

  /** D3D12 resource states; COMMON is the empty set. */
  datatype ResourceState = GenericRead | CopyDest | RaytracingAccelerationStructure

  datatype Buffer = Buffer(desc: BufferDesc, resource: nat, mapped: nat)

  /** A buffer description without a resource. */
  function Create(desc: BufferDesc): (b: Buffer)
    ensures b.desc == desc && b.resource == 0 && b.mapped == 0
  {
    Buffer(desc, 0, 0)
  }

  /** Wraps a caller resource. The description is the caller's when given, otherwise the
      one derived from the resource (`derived`, None when it cannot be derived). */
  function CreateWrapped(explicit: Option<BufferDesc>, derived: Option<BufferDesc>, resource: nat): (r: (Status, Buffer))
    ensures explicit.Some? ==> r.0 == Success && r.1.desc == explicit.value && r.1.resource == resource
    ensures explicit.None? && derived.Some? ==> r.0 == Success && r.1.desc == derived.value && r.1.resource == resource
    ensures explicit.None? && derived.None? ==> r.0 == InvalidArgument && r.1.resource == 0
  {
    if explicit.Some? then (Success, Buffer(explicit.value, resource, 0))
    else if derived.Some? then (Success, Buffer(derived.value, resource, 0))
    else (InvalidArgument, Create(BufferDesc(0, 0, {})))
  }

  /** Heaps the CPU writes: upload heaps and write-combined custom heaps. */
  predicate IsUploadHeap(p: D3d12Memory.HeapProperties) {
    p.heapType == UploadHeap || (p.heapType == CustomHeap && p.cpuPage == WriteCombine)
  }

  /** Heaps the CPU reads: readback heaps and write-back custom heaps. */
  predicate IsReadbackHeap(p: D3d12Memory.HeapProperties) {
    p.heapType == ReadbackHeap || (p.heapType == CustomHeap && p.cpuPage == WriteBack)
  }


  /** Initial state of a buffer given its memory's CPU access: readable by the GPU when
      the CPU writes it, a copy destination when the CPU reads it, and the
      acceleration-structure state for acceleration-structure storage. */
  function InitialState(upload: bool, readback: bool, desc: BufferDesc): (r: set<ResourceState>)
    ensures GenericRead in r <==> upload
    ensures CopyDest in r <==> (readback && !upload)
    ensures RaytracingAccelerationStructure in r <==> AccelerationStructureStorage in desc.usage
  {
    (if upload then {GenericRead} else if readback then {CopyDest} else {})
      + (if AccelerationStructureStorage in desc.usage then {RaytracingAccelerationStructure} else {})
  }

  /** No heap is both an upload and a readback heap, so the initial state does not depend
      on which of the two the code tests first. */
  lemma InitialStateIgnoresCheckOrder(p: D3d12Memory.HeapProperties, desc: BufferDesc)
    ensures !(IsUploadHeap(p) && IsReadbackHeap(p))
    ensures InitialState(IsUploadHeap(p), IsReadbackHeap(p), desc)
         == (if IsReadbackHeap(p) then {CopyDest} else if IsUploadHeap(p) then {GenericRead} else {})
            + (if AccelerationStructureStorage in desc.usage then {RaytracingAccelerationStructure} else {})
  {
  }

  datatype MapResult = MapResult(status: Status, buffer: Buffer, readRange: Option<Range>)

  /** Applies the residency priority (`residencyCall`, Success when skipped), then maps
      upload and readback buffers persistently; only readback maps declare the whole
      buffer as read. */
  function SetPriorityAndPersistentlyMap(b: Buffer, p: D3d12Memory.HeapProperties, residencyCall: Status, mapCall: Outcome<Token>): (r: MapResult)
    ensures r.buffer.desc == b.desc && r.buffer.resource == b.resource
    ensures residencyCall != Success ==> r == MapResult(residencyCall, b, None)
    ensures residencyCall == Success ==>
      && (r.readRange.Some? <==> (IsUploadHeap(p) || IsReadbackHeap(p)))
      && (r.readRange.Some? ==> r.readRange.value == Range(0, if IsReadbackHeap(p) then b.desc.size else 0))
      && (r.readRange.None? ==> r.status == Success && r.buffer == b)
      && (r.readRange.Some? && mapCall.Ok? ==> r.status == Success && r.buffer.mapped == mapCall.value)
      && (r.readRange.Some? && mapCall.Err? ==> r.status == mapCall.code)
  {
    if residencyCall != Success then MapResult(residencyCall, b, None)
    else if IsUploadHeap(p) || IsReadbackHeap(p) then
      var readRange := Range(0, if IsReadbackHeap(p) then b.desc.size else 0);
      match mapCall
      case Ok(ptr) => MapResult(Success, b.(mapped := ptr), Some(readRange))
      case Err(e) => MapResult(e, b, Some(readRange))
    else MapResult(Success, b, None)
  }

  /** The request made to the pooled allocator when the buffer allocates for itself. */
  datatype PoolRequest = PoolRequest(heapType: HeapType, flags: set<AllocationFlag>, extraHeapFlags: set<HeapFlag>, initialState: set<ResourceState>)

  datatype Allocated = Allocated(status: Status, buffer: Buffer, request: PoolRequest, readRange: Option<Range>)

  /** Heap flags for buffers: on memory tier 0 heaps hold only buffers. */
  function BufferHeapFlags(memoryTier: nat): (r: set<HeapFlag>)
    ensures memoryTier == 0 ==> r == ALLOW_ONLY_BUFFERS && DenyBuffers !in r
    ensures memoryTier != 0 ==> r == ALLOW_ALL_BUFFERS_AND_TEXTURES
  {
    if memoryTier == 0 then ALLOW_ONLY_BUFFERS else ALLOW_ALL_BUFFERS_AND_TEXTURES
  }

  /** Creates the resource with memory of its own. `heapType` is the heap kind of the
      location, `createCall` the allocator's answer. The initial state follows the
      location, the mapping follows the heap kind. */
  function Allocate(b: Buffer, location: MemoryLocation, committed: bool, memoryTier: nat, heapType: HeapType,
                    createCall: Outcome<Token>, residencyCall: Status, mapCall: Outcome<Token>): (r: Allocated)
    requires b.resource == 0
    ensures r.request.heapType == heapType
    ensures r.request.flags == ResourceAllocationFlags(committed, false)
    ensures r.request.extraHeapFlags == BufferHeapFlags(memoryTier)
    ensures r.request.initialState ==
      InitialState(location == HostUpload || location == DeviceUpload, location == HostReadback, b.desc)
    ensures r.buffer.desc == b.desc
    ensures createCall.Err? ==> r.status == createCall.code && r.buffer == b && r.readRange.None?
    ensures createCall.Ok? ==>
      var created := b.(resource := createCall.value);
      var m := SetPriorityAndPersistentlyMap(created, D3d12Memory.HeapProperties(heapType, PageUnknown), residencyCall, mapCall);
      r.status == m.status && r.buffer == m.buffer && r.readRange == m.readRange && r.buffer.resource == createCall.value
  {
    var request := PoolRequest(heapType, ResourceAllocationFlags(committed, false), BufferHeapFlags(memoryTier),
                               InitialState(location == HostUpload || location == DeviceUpload, location == HostReadback, b.desc));
    match createCall
    case Err(e) => Allocated(e, b, request, None)
    case Ok(h) =>
      var m := SetPriorityAndPersistentlyMap(b.(resource := h), D3d12Memory.HeapProperties(heapType, PageUnknown), residencyCall, mapCall);
      Allocated(m.status, m.buffer, request, m.readRange)
  }

  /** Where a bound resource goes: a committed resource with its own implicit heap, or a
      placement at an offset inside a heap. */
  datatype Placement = Committed(properties: D3d12Memory.HeapProperties, heapFlags: set<HeapFlag>) | Placed(heap: nat, offset: nat)

  /** Heap flags for a committed resource created from a memory object's description:
      the DENY bits are dropped (D3D12 rejects them there), CREATE_NOT_ZEROED is added
      when zero initialization is disabled. */
  function CommittedHeapFlags(heapFlags: set<HeapFlag>, zeroInit: bool): (r: set<HeapFlag>)
    ensures r * DENY_FLAGS == {}
    ensures CreateNotZeroed in r <==> (!zeroInit || CreateNotZeroed in heapFlags)
    ensures forall f :: f in heapFlags && f !in DENY_FLAGS ==> f in r
    ensures forall f :: f in r && f != CreateNotZeroed ==> f in heapFlags
  {
    (heapFlags - DENY_FLAGS) + (if zeroInit then {} else {CreateNotZeroed})
  }

  /** Placement of a resource bound at `offset` inside `mem`. */
  function PlacementIn(mem: D3d12Memory.Memory, offset: nat, zeroInit: bool): (r: Placement)
    ensures D3d12Memory.IsDummy(mem) <==> r.Committed?
    ensures r.Committed? ==> r.properties == mem.heapDesc.properties && r.heapFlags == CommittedHeapFlags(mem.heapDesc.flags, zeroInit)
    ensures r.Placed? ==> r.heap == D3d12Memory.Heap(mem) && r.heap != 0 && r.offset == D3d12Memory.Offset(mem) + offset
  {
    if D3d12Memory.IsDummy(mem) then Committed(mem.heapDesc.properties, CommittedHeapFlags(mem.heapDesc.flags, zeroInit))
    else Placed(D3d12Memory.Heap(mem), D3d12Memory.Offset(mem) + offset)
  }

  datatype BoundToMemory = BoundToMemory(status: Status, buffer: Buffer, placement: Placement, initialState: set<ResourceState>, readRange: Option<Range>)

  /** Creates the resource inside a memory object; initial state and mapping follow the
      memory's heap properties. */
  function BindMemory(b: Buffer, mem: D3d12Memory.Memory, offset: nat, zeroInit: bool,
                      createCall: Outcome<Token>, residencyCall: Status, mapCall: Outcome<Token>): (r: BoundToMemory)
    requires b.resource == 0
    ensures r.placement == PlacementIn(mem, offset, zeroInit)
    ensures r.initialState == InitialState(IsUploadHeap(mem.heapDesc.properties), IsReadbackHeap(mem.heapDesc.properties), b.desc)
    ensures r.buffer.desc == b.desc
    ensures createCall.Err? ==> r.status == createCall.code && r.buffer == b && r.readRange.None?
    ensures createCall.Ok? ==>
      var m := SetPriorityAndPersistentlyMap(b.(resource := createCall.value), mem.heapDesc.properties, residencyCall, mapCall);
      r.status == m.status && r.buffer == m.buffer && r.readRange == m.readRange && r.buffer.resource == createCall.value
  {
    var placement := PlacementIn(mem, offset, zeroInit);
    var p := mem.heapDesc.properties;
    var state := InitialState(IsUploadHeap(p), IsReadbackHeap(p), b.desc);
    match createCall
    case Err(e) => BoundToMemory(e, b, placement, state, None)
    case Ok(h) =>
      var m := SetPriorityAndPersistentlyMap(b.(resource := h), p, residencyCall, mapCall);
      BoundToMemory(m.status, m.buffer, placement, state, m.readRange)
  }

  /** CPU address of byte `offset` of a mapped buffer. */
  function Map(b: Buffer, offset: nat): (p: nat)
    requires b.mapped != 0
    ensures p >= b.mapped && p - b.mapped == offset
  {
    b.mapped + offset
  }

  /** Memory allocated for a must-be-dedicated type is a dummy, so a buffer bound to it
      becomes a committed resource on the type's heap kind, with no DENY flags. */
  lemma DedicatedMemoryMakesCommittedBuffer(d: D3d12Memory.AllocateDesc, memZeroInit: bool,
                                            poolCall: Outcome<D3d12Memory.PooledAllocation>, heapCall: Outcome<Token>, memResidency: Status,
                                            b: Buffer, offset: nat, zeroInit: bool,
                                            createCall: Outcome<Token>, residencyCall: Status, mapCall: Outcome<Token>)
    requires d.info.mustBeDedicated && b.resource == 0
    ensures var mem := D3d12Memory.CreateAllocated(d, memZeroInit, poolCall, heapCall, memResidency).memory;
      var placement := BindMemory(b, mem, offset, zeroInit, createCall, residencyCall, mapCall).placement;
      && placement.Committed?
      && placement.properties.heapType == d.info.heapType
      && placement.heapFlags * DENY_FLAGS == {}
  {
  }

  /** A pooled-allocator memory object places the buffer at the sub-allocation's offset
      plus the caller's offset, inside the sub-allocation's heap. */
  lemma PooledMemoryPlacesBuffer(d: D3d12Memory.AllocateDesc, memZeroInit: bool, a: D3d12Memory.PooledAllocation,
                                 heapCall: Outcome<Token>, memResidency: Status,
                                 b: Buffer, offset: nat, zeroInit: bool,
                                 createCall: Outcome<Token>, residencyCall: Status, mapCall: Outcome<Token>)
    requires !d.info.mustBeDedicated && d.useVma && b.resource == 0
    ensures var mem := D3d12Memory.CreateAllocated(d, memZeroInit, Ok(a), heapCall, memResidency).memory;
      BindMemory(b, mem, offset, zeroInit, createCall, residencyCall, mapCall).placement == Placed(a.heap, a.offset + offset)
  {
  }

  /** A buffer bound into memory wrapped around a caller's heap is placed in that heap at
      the wrap's offset plus the bind offset. */
  lemma WrappedMemoryPlacesBuffer(heap: Token, memOffset: nat, heapDesc: D3d12Memory.HeapDesc,
                                  b: Buffer, offset: nat, zeroInit: bool,
                                  createCall: Outcome<Token>, residencyCall: Status, mapCall: Outcome<Token>)
    requires b.resource == 0
    ensures var mem := D3d12Memory.CreateWrapped(heap, memOffset, heapDesc);
      BindMemory(b, mem, offset, zeroInit, createCall, residencyCall, mapCall).placement == Placed(heap, memOffset + offset)
  {
  }

  /** A buffer gets its resource once: after a successful creation neither `Allocate` nor
      `BindMemory` may be called again. */
  lemma ResourceIsCreatedOnce(b: Buffer, mem: D3d12Memory.Memory, offset: nat, zeroInit: bool,
                              createCall: Outcome<Token>, residencyCall: Status, mapCall: Outcome<Token>)
    requires b.resource == 0 && createCall.Ok?
    ensures BindMemory(b, mem, offset, zeroInit, createCall, residencyCall, mapCall).buffer.resource != 0
  {
  }
}
