/** A D3D12 memory object: a heap of its own, a sub-allocation from the pooled allocator
    (D3D12MA), a caller heap it wraps, or a dummy standing for a committed resource. */
module D3d12Memory {
  import opened Common

  /** D3D12_DEFAULT_RESOURCE_PLACEMENT_ALIGNMENT (64 KiB). */
  const DEFAULT_PLACEMENT_ALIGNMENT: nat := 65536

  /** D3D12_DEFAULT_MSAA_RESOURCE_PLACEMENT_ALIGNMENT (4 MiB). */
  const MSAA_PLACEMENT_ALIGNMENT: nat := 4194304

  /** The pooled allocator only accepts sizes that are multiples of 64 KiB. */
  const POOL_GRANULARITY: nat := 65536

  datatype HeapProperties = HeapProperties(heapType: HeapType, cpuPage: CpuPageProperty)

  datatype HeapDesc = HeapDesc(size: nat, properties: HeapProperties, alignment: nat, flags: set<HeapFlag>)

  /** A sub-allocation: the heap it lives in and its offset inside it. */
  datatype PooledAllocation = PooledAllocation(heap: Token, offset: nat)

  datatype Memory = Memory(heap: nat, pooled: Option<PooledAllocation>, offset: nat, heapDesc: HeapDesc)

  const EMPTY_HEAP_DESC: HeapDesc := HeapDesc(0, HeapProperties(DefaultHeap, PageUnknown), 0, {})

  function Fresh(): (m: Memory)
    ensures IsDummy(m) && Offset(m) == 0 && Heap(m) == 0
  {
    Memory(0, None, 0, EMPTY_HEAP_DESC)
  }

  /** Memory with neither a heap nor a sub-allocation: resources bound to it are committed. */
  predicate IsDummy(m: Memory) {
    m.pooled.None? && m.heap == 0
  }

  /** The heap the object lives in (0 for a dummy). */
  function Heap(m: Memory): nat {
    if m.pooled.Some? then m.pooled.value.heap else m.heap
  }

  /** Offset of the object inside `Heap(m)`. */
  function Offset(m: Memory): nat {
    if m.pooled.Some? then m.pooled.value.offset else m.offset
  }

  /** Rounds a size up to the pooled allocator's granularity. */
  function AlignToPoolGranularity(size: nat): (r: nat)
    ensures r % POOL_GRANULARITY == 0
    ensures size <= r < size + POOL_GRANULARITY
  {
    ((size + POOL_GRANULARITY - 1) / POOL_GRANULARITY) * POOL_GRANULARITY
  }

  /** The heap flags a memory type asks for: its own flags without the NRI-private MSAA
      bit, plus CREATE_NOT_ZEROED when zero initialization is disabled. */
  function TypeHeapFlags(info: MemoryTypeInfo, zeroInit: bool): (r: set<HeapFlag>)
    ensures MsaaAlignment !in r
    ensures CreateNotZeroed in r <==> (!zeroInit || CreateNotZeroed in info.heapFlags)
    ensures forall f :: f in info.heapFlags && f != MsaaAlignment ==> f in r
    ensures forall f :: f in r && f != CreateNotZeroed ==> f in info.heapFlags
  {
    (info.heapFlags - {MsaaAlignment}) + (if zeroInit then {} else {CreateNotZeroed})
  }

  /** The heap description recorded for an allocation of `size` bytes of type `info`. */
  function AllocationHeapDesc(size: nat, info: MemoryTypeInfo, zeroInit: bool): (r: HeapDesc)
    ensures r.size == size && r.properties == HeapProperties(info.heapType, PageUnknown)
    ensures r.alignment == (if MsaaAlignment in info.heapFlags then MSAA_PLACEMENT_ALIGNMENT else DEFAULT_PLACEMENT_ALIGNMENT)
    ensures size == 0 ==> r.flags == {}
    ensures size != 0 ==> r.flags == TypeHeapFlags(info, zeroInit)
  {
    var alignment := if MsaaAlignment in info.heapFlags then MSAA_PLACEMENT_ALIGNMENT else DEFAULT_PLACEMENT_ALIGNMENT;
    HeapDesc(size, HeapProperties(info.heapType, PageUnknown), alignment, if size != 0 then TypeHeapFlags(info, zeroInit) else {})
  }

  /** A request to the pooled allocator. */
  datatype PoolRequest = PoolRequest(heapType: HeapType, flags: set<AllocationFlag>, extraHeapFlags: set<HeapFlag>, size: nat, alignment: nat)

  datatype Created = Created(status: Status, memory: Memory, poolRequest: Option<PoolRequest>)

  datatype AllocateDesc = AllocateDesc(size: nat, info: MemoryTypeInfo, useVma: bool)

  /** Allocates memory of the described type. `poolCall` is D3D12MA's answer, `heapCall`
      that of CreateHeap and `residencyCall` that of SetResidencyPriority (Success when the
      priority converts to 0 and the call is skipped). */
  function CreateAllocated(d: AllocateDesc, zeroInit: bool,
                           poolCall: Outcome<PooledAllocation>, heapCall: Outcome<Token>, residencyCall: Status): (r: Created)
    ensures r.memory.heapDesc == AllocationHeapDesc(d.size, d.info, zeroInit)
    ensures d.info.mustBeDedicated ==> r.status == Success && IsDummy(r.memory) && r.poolRequest.None?
    ensures !d.info.mustBeDedicated && d.useVma ==>
      && r.poolRequest == Some(PoolRequest(d.info.heapType, {MinMemory, CanAlias}, r.memory.heapDesc.flags,
                                           AlignToPoolGranularity(d.size), r.memory.heapDesc.alignment))
      && (poolCall.Ok? ==> r.status == Success && r.memory.pooled == Some(poolCall.value) && !IsDummy(r.memory))
      && (poolCall.Err? ==> r.status == poolCall.code && IsDummy(r.memory))
    ensures !d.info.mustBeDedicated && !d.useVma ==>
      && r.poolRequest.None? && r.memory.pooled.None? && Offset(r.memory) == 0
      && (heapCall.Ok? ==> Heap(r.memory) == heapCall.value && r.status == residencyCall)
      && (heapCall.Err? ==> r.status == heapCall.code && IsDummy(r.memory))
  {
    var m := Fresh().(heapDesc := AllocationHeapDesc(d.size, d.info, zeroInit));
    if d.info.mustBeDedicated then
      Created(Success, m, None)
    else if d.useVma then
      var request := PoolRequest(d.info.heapType, {MinMemory, CanAlias}, m.heapDesc.flags,
                                 AlignToPoolGranularity(d.size), m.heapDesc.alignment);
      match poolCall
      case Ok(a) => Created(Success, m.(pooled := Some(a)), Some(request))
      case Err(e) => Created(e, m, Some(request))
    else
      match heapCall
      case Err(e) => Created(e, m, None)
      case Ok(h) => Created(residencyCall, m.(heap := h), None)
  }

  /** Wraps a caller heap at an offset; the heap description is read back from the heap. */
  function CreateWrapped(heap: Token, offset: nat, heapDescOfHeap: HeapDesc): (m: Memory)
    ensures !IsDummy(m) && Heap(m) == heap && Offset(m) == offset && m.heapDesc == heapDescOfHeap
  {
    Memory(heap, None, offset, heapDescOfHeap)
  }

  /** The pooled request never asks for less than the caller's size, wastes less than one
      granule, and its placement alignment always divides by the default 64 KiB alignment. */
  lemma PoolRequestCoversSize(d: AllocateDesc, zeroInit: bool,
                              poolCall: Outcome<PooledAllocation>, heapCall: Outcome<Token>, residencyCall: Status)
    requires !d.info.mustBeDedicated && d.useVma
    ensures var req := CreateAllocated(d, zeroInit, poolCall, heapCall, residencyCall).poolRequest.value;
      && d.size <= req.size < d.size + POOL_GRANULARITY
      && req.size % POOL_GRANULARITY == 0
      && req.alignment % DEFAULT_PLACEMENT_ALIGNMENT == 0
  {
  }
}
