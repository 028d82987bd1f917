/** A D3D12 acceleration structure: a buffer with the acceleration-structure storage
    usage to which memory operations are forwarded. */
module D3d12AccelerationStructure {
  import opened Common
  import D3d12Memory
  import D3d12Buffer

  /** Sizes the device reports for a build. */
  datatype PrebuildInfo = PrebuildInfo(resultSize: nat, scratchSize: nat, updateScratchSize: nat)

  datatype AccelerationStructure = AccelerationStructure(prebuild: PrebuildInfo, flags: nat, buffer: Option<D3d12Buffer.Buffer>)

  /** Size of the storage: the device's size, lowered to the caller's optimized size when
      one is given. */
  function ResultSize(optimizedSize: nat, prebuild: PrebuildInfo): (r: nat)
    ensures r <= prebuild.resultSize
    ensures optimizedSize == 0 ==> r == prebuild.resultSize
    ensures optimizedSize != 0 ==> r <= optimizedSize && (r == optimizedSize || r == prebuild.resultSize)
  {
    if optimizedSize != 0 then Min(prebuild.resultSize, optimizedSize) else prebuild.resultSize
  }

  /** The description used both for the backing buffer and for the memory query. */
  function StorageDesc(a: AccelerationStructure): (r: BufferDesc)
    ensures r.size == a.prebuild.resultSize && r.usage == {AccelerationStructureStorage}
  {
    BufferDesc(a.prebuild.resultSize, 0, {AccelerationStructureStorage})
  }

  /** Creates the object and the description of its backing buffer. */
  function Create(optimizedSize: nat, flags: nat, prebuild: PrebuildInfo): (a: AccelerationStructure)
    ensures a.prebuild.resultSize == ResultSize(optimizedSize, prebuild)
    ensures a.prebuild.scratchSize == prebuild.scratchSize && a.prebuild.updateScratchSize == prebuild.updateScratchSize
    ensures a.buffer.Some? && a.buffer.value.resource == 0 && a.buffer.value.desc == StorageDesc(a)
  {
    var p := prebuild.(resultSize := ResultSize(optimizedSize, prebuild));
    var shell := AccelerationStructure(p, flags, None);
    shell.(buffer := Some(D3d12Buffer.Create(StorageDesc(shell))))
  }

  /** Wraps a caller resource; the buffer's description is derived from the resource
      (`derived`), and wrapping fails with InvalidArgument when it cannot be. */
  function CreateWrapped(size: nat, scratchSize: nat, updateScratchSize: nat, flags: nat,
                         resource: nat, derived: Option<BufferDesc>): (r: (Status, AccelerationStructure))
    ensures r.1.prebuild == PrebuildInfo(size, scratchSize, updateScratchSize)
    ensures r.0 == D3d12Buffer.CreateWrapped(None, derived, resource).0
    ensures derived.None? ==> r.0 == InvalidArgument && r.1.buffer.None?
    ensures derived.Some? ==> r.0 == Success && r.1.buffer == Some(D3d12Buffer.Buffer(derived.value, resource, 0))
  {
    var created := D3d12Buffer.CreateWrapped(None, derived, resource);
    var a := AccelerationStructure(PrebuildInfo(size, scratchSize, updateScratchSize), flags, None);
    if created.0 == Success then (Success, a.(buffer := Some(created.1))) else (created.0, a)
  }

  /** Allocation is the backing buffer's allocation. */
  function Allocate(a: AccelerationStructure, location: MemoryLocation, committed: bool, memoryTier: nat, heapType: HeapType,
                    createCall: Outcome<Token>, residencyCall: Status, mapCall: Outcome<Token>): (r: D3d12Buffer.Allocated)
    requires a.buffer.Some? && a.buffer.value.resource == 0
    ensures D3d12Buffer.RaytracingAccelerationStructure in r.request.initialState <==> AccelerationStructureStorage in a.buffer.value.desc.usage
    ensures r.request.extraHeapFlags == D3d12Buffer.BufferHeapFlags(memoryTier) && r.buffer.desc == a.buffer.value.desc
    ensures createCall.Err? ==> r.status == createCall.code
    ensures createCall.Ok? ==> r.buffer.resource == createCall.value
  {
    D3d12Buffer.Allocate(a.buffer.value, location, committed, memoryTier, heapType, createCall, residencyCall, mapCall)
  }

  /** Binding is the backing buffer's binding. */
  function BindMemory(a: AccelerationStructure, mem: D3d12Memory.Memory, offset: nat, zeroInit: bool,
                      createCall: Outcome<Token>, residencyCall: Status, mapCall: Outcome<Token>): (r: D3d12Buffer.BoundToMemory)
    requires a.buffer.Some? && a.buffer.value.resource == 0
    ensures D3d12Buffer.RaytracingAccelerationStructure in r.initialState <==> AccelerationStructureStorage in a.buffer.value.desc.usage
    ensures r.placement == D3d12Buffer.PlacementIn(mem, offset, zeroInit) && r.buffer.desc == a.buffer.value.desc
    ensures createCall.Err? ==> r.status == createCall.code
    ensures createCall.Ok? ==> r.buffer.resource == createCall.value
  {
    D3d12Buffer.BindMemory(a.buffer.value, mem, offset, zeroInit, createCall, residencyCall, mapCall)
  }

  /** A created structure's storage starts in the acceleration-structure state whichever
      way it gets memory, and its memory query uses exactly its buffer's description. */
  lemma CreatedStorageStartsInAccelerationStructureState(optimizedSize: nat, flags: nat, prebuild: PrebuildInfo,
                                                         location: MemoryLocation, committed: bool, memoryTier: nat, heapType: HeapType,
                                                         mem: D3d12Memory.Memory, offset: nat, zeroInit: bool,
                                                         createCall: Outcome<Token>, residencyCall: Status, mapCall: Outcome<Token>)
    ensures var a := Create(optimizedSize, flags, prebuild);
      && StorageDesc(a) == a.buffer.value.desc
      && D3d12Buffer.RaytracingAccelerationStructure in Allocate(a, location, committed, memoryTier, heapType, createCall, residencyCall, mapCall).request.initialState
      && D3d12Buffer.RaytracingAccelerationStructure in BindMemory(a, mem, offset, zeroInit, createCall, residencyCall, mapCall).initialState
  {
  }
}
