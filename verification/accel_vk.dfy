/** A Vulkan acceleration structure, always backed by a buffer with the
    acceleration-structure storage usage. */
module VkAccelerationStructure {
  import opened Common
  import VkMemory
  import VkBuffer

  datatype AccelerationStructure = AccelerationStructure(
    handle: nat,
    ownsNative: bool,
    buffer: Option<VkBuffer.Buffer>,
    buildScratchSize: nat,
    updateScratchSize: nat,
    flags: nat,
    deviceAddress: nat)

  /** The sizes the device reports for a build. */
  datatype BuildSizes = BuildSizes(accelerationStructureSize: nat, buildScratchSize: nat, updateScratchSize: nat)

  datatype Desc = Desc(optimizedSize: nat, flags: nat)

  /** Size of the storage: the device's size, lowered to the caller's optimized size
      (a compacted size) when one is given. */
  function StorageSize(d: Desc, sizes: BuildSizes): (r: nat)
    ensures r <= sizes.accelerationStructureSize
    ensures d.optimizedSize == 0 ==> r == sizes.accelerationStructureSize
    ensures d.optimizedSize != 0 ==> r <= d.optimizedSize && (r == d.optimizedSize || r == sizes.accelerationStructureSize)
  {
    if d.optimizedSize != 0 then Min(sizes.accelerationStructureSize, d.optimizedSize) else sizes.accelerationStructureSize
  }

  /** The description of the backing buffer. */
  function StorageBufferDesc(d: Desc, sizes: BuildSizes): (r: BufferDesc)
    ensures r.size == StorageSize(d, sizes) && r.usage == {AccelerationStructureStorage} && r.structureStride == 0
  {
    BufferDesc(StorageSize(d, sizes), 0, {AccelerationStructureStorage})
  }

  /** Creates the object and its backing buffer (`bufferCall` is vkCreateBuffer's
      outcome); the native structure is created when memory is bound. */
  function Create(d: Desc, sizes: BuildSizes, bufferCall: Outcome<Token>): (r: (Status, AccelerationStructure))
    ensures r.1.ownsNative && r.1.handle == 0
    ensures r.1.buildScratchSize == sizes.buildScratchSize && r.1.updateScratchSize == sizes.updateScratchSize
    ensures bufferCall.Ok? ==>
      && r.0 == Success && r.1.buffer.Some?
      && r.1.buffer.value.desc == StorageBufferDesc(d, sizes) && r.1.buffer.value.handle == bufferCall.value
    ensures bufferCall.Err? ==> r.0 == bufferCall.code && r.1.buffer.None?
  {
    var created := VkBuffer.Create(StorageBufferDesc(d, sizes), bufferCall);
    var a := AccelerationStructure(0, true, None, sizes.buildScratchSize, sizes.updateScratchSize, d.flags, 0);
    if created.0 == Success then (Success, a.(buffer := Some(created.1))) else (created.0, a)
  }

  /** Caller description of a native structure to wrap. */
  datatype WrapDesc = WrapDesc(accelerationStructure: nat, buffer: nat, bufferSize: nat,
                               buildScratchSize: nat, updateScratchSize: nat, flags: nat)

  /** Wraps a caller structure and its buffer without taking ownership of either;
      `addressQuery` is the structure's device address. */
  function CreateWrapped(d: WrapDesc, addressQuery: nat): (a: AccelerationStructure)
    ensures !a.ownsNative && a.handle == d.accelerationStructure && a.deviceAddress == addressQuery
    ensures a.buffer.Some? && !a.buffer.value.ownsNative && a.buffer.value.handle == d.buffer
    ensures a.buffer.value.desc.size == d.bufferSize
  {
    var b := VkBuffer.CreateWrapped(VkBuffer.WrapDesc(d.buffer, 0, 0, 0, d.bufferSize, 0));
    AccelerationStructure(d.accelerationStructure, false, Some(b), d.buildScratchSize, d.updateScratchSize, d.flags, addressQuery)
  }

  /** The native creation info: the backing buffer and its whole size. */
  datatype NativeCreateInfo = NativeCreateInfo(buffer: nat, size: nat)

  function CreateInfo(a: AccelerationStructure): (r: NativeCreateInfo)
    requires a.buffer.Some?
    ensures r.buffer == a.buffer.value.handle && r.size == a.buffer.value.desc.size
  {
    NativeCreateInfo(a.buffer.value.handle, a.buffer.value.desc.size)
  }

  /** A memory object to bind the backing buffer into, at `offset`, with the outcomes of
      the buffer bind's native calls (see `VkBuffer.BindMemory`). */
  datatype MemoryBinding = MemoryBinding(
    memory: VkMemory.Memory,
    offset: nat,
    dedicatedSize: nat,
    dedicatedCall: Outcome<Token>,
    dedicatedMap: Outcome<Token>,
    bindCall: Status,
    coherent: bool,
    bufferAddress: Option<nat>)

  predicate CanBindBuffer(a: AccelerationStructure, m: MemoryBinding) {
    a.buffer.Some? && a.buffer.value.handle != 0 && a.buffer.value.ownsNative && m.memory.memoryType.Typed?
  }

  /** The device's buffer bind of the backing buffer: a native bind into the memory object
      at the memory's own offset plus the requested one. */
  function BindBuffer(a: AccelerationStructure, m: MemoryBinding): (r: VkBuffer.BoundToMemory)
    requires CanBindBuffer(a, m)
    ensures r.buffer.handle == a.buffer.value.handle && r.buffer.desc == a.buffer.value.desc
    ensures r.memory.memoryType == m.memory.memoryType
    ensures r.bindOffset == Some(VkMemory.Offset(r.memory) + m.offset)
    ensures m.bindCall != Success ==> r.status == m.bindCall && r.buffer == a.buffer.value
    ensures m.bindCall == Success ==> r.status == Success
  {
    VkBuffer.BindMemory(a.buffer.value, m.memory, m.offset, true, m.dedicatedSize, m.dedicatedCall, m.dedicatedMap,
                        m.bindCall, m.coherent, m.bufferAddress)
  }

  /** The result of a bind: the status, the structure, and the memory object as the buffer
      bind leaves it (None when no memory object was given). */
  datatype Bound = Bound(status: Status, structure: AccelerationStructure, memory: Option<VkMemory.Memory>)

  /** Creates the native structure over the whole backing buffer and reads its device
      address; a zero device address is a failure. */
  function CreateNative(a: AccelerationStructure, createCall: Outcome<Token>, addressQuery: nat): (r: (Status, AccelerationStructure))
    ensures createCall.Err? ==> r == (createCall.code, a)
    ensures createCall.Ok? ==>
      && r.1 == a.(handle := createCall.value, deviceAddress := addressQuery)
      && (r.0 == Success <==> addressQuery != 0)
      && (r.0 != Success ==> r.0 == Failure)
  {
    match createCall
    case Err(e) => (e, a)
    case Ok(h) => (if addressQuery != 0 then Success else Failure, a.(handle := h, deviceAddress := addressQuery))
  }

  /** Binds the backing buffer into a memory object when one is given (stopping at a failed
      bind), then creates the native structure over the whole buffer and reads its device
      address. The buffer stays bound even when the creation that follows fails. */
  function BindMemory(a: AccelerationStructure, binding: Option<MemoryBinding>, createCall: Outcome<Token>, addressQuery: nat): (r: Bound)
    requires a.buffer.Some?
    requires binding.Some? ==> CanBindBuffer(a, binding.value)
    ensures r.structure.ownsNative == a.ownsNative && r.structure.buffer.Some?
    ensures binding.None? ==> r.memory.None? && r.structure.buffer == a.buffer
    ensures binding.Some? ==>
      var bound := BindBuffer(a, binding.value);
      && r.memory == Some(bound.memory)
      && r.structure.buffer == Some(bound.buffer)
      && (bound.status != Success ==> r.status == bound.status && r.structure == a.(buffer := Some(bound.buffer)))
    ensures (binding.None? || BindBuffer(a, binding.value).status == Success) ==>
      var withBuffer := a.(buffer := r.structure.buffer);
      && (createCall.Err? ==> r.status == createCall.code && r.structure == withBuffer)
      && (createCall.Ok? ==> r.structure == withBuffer.(handle := createCall.value, deviceAddress := addressQuery)
                             && (r.status == Success <==> addressQuery != 0)
                             && (r.status != Success ==> r.status == Failure))
  {
    match binding
    case None =>
      var created := CreateNative(a, createCall, addressQuery);
      Bound(created.0, created.1, None)
    case Some(m) =>
      var bound := BindBuffer(a, m);
      var withBuffer := a.(buffer := Some(bound.buffer));
      if bound.status != Success then Bound(bound.status, withBuffer, Some(bound.memory))
      else
        var created := CreateNative(withBuffer, createCall, addressQuery);
        Bound(created.0, created.1, Some(bound.memory))
  }

  /** Gives the backing buffer memory of its own, and only if that succeeded creates the
      native structure (as `BindMemory` with no memory object). */
  function AllocateAndBindMemory(a: AccelerationStructure, md: VkBuffer.MemoryDesc, committed: bool,
                                 poolCall: Outcome<VkMemory.PooledAllocation>, bindCall: Status,
                                 coherent: bool, bufferAddress: Option<nat>,
                                 createCall: Outcome<Token>, addressQuery: nat): (r: (Status, AccelerationStructure))
    requires a.buffer.Some? && a.buffer.value.handle != 0
    ensures var bound := VkBuffer.AllocateAndBindMemory(a.buffer.value, md, committed, poolCall, bindCall, coherent, bufferAddress);
      && r.1.buffer == Some(bound.buffer)
      && (bound.status != Success ==> r.0 == bound.status && r.1.handle == a.handle)
      && (bound.status == Success ==>
            var b := BindMemory(a.(buffer := Some(bound.buffer)), None, createCall, addressQuery);
            r == (b.status, b.structure))
  {
    var bound := VkBuffer.AllocateAndBindMemory(a.buffer.value, md, committed, poolCall, bindCall, coherent, bufferAddress);
    var withBuffer := a.(buffer := Some(bound.buffer));
    if bound.status != Success then (bound.status, withBuffer)
    else
      var b := BindMemory(withBuffer, None, createCall, addressQuery);
      (b.status, b.structure)
  }

  /** A successful bind leaves a structure with a non-zero device address whose native
      creation info names the backing buffer, bound into the memory object when one was
      given, over its whole size. */
  lemma BoundStructureNamesItsBuffer(a: AccelerationStructure, binding: Option<MemoryBinding>, createCall: Outcome<Token>, addressQuery: nat)
    requires a.buffer.Some?
    requires binding.Some? ==> CanBindBuffer(a, binding.value)
    ensures var r := BindMemory(a, binding, createCall, addressQuery);
      r.status == Success ==>
        && createCall.Ok? && r.structure.handle == createCall.value
        && r.structure.deviceAddress != 0
        && CreateInfo(r.structure) == NativeCreateInfo(a.buffer.value.handle, a.buffer.value.desc.size)
        && (binding.Some? ==> BindBuffer(a, binding.value).status == Success
                              && r.structure.buffer == Some(BindBuffer(a, binding.value).buffer))
  {
  }

  /** When the buffer bind succeeds but the native creation fails, the error is returned
      and the backing buffer keeps its bind: its CPU address is taken from the memory
      object (for host-visible memory). */
  lemma BufferStaysBoundWhenCreationFails(a: AccelerationStructure, m: MemoryBinding, e: ErrorStatus)
    requires CanBindBuffer(a, m) && m.bindCall == Success
    ensures var r := BindMemory(a, Some(m), Err(e), 0);
      var bound := BindBuffer(a, m);
      && r.status == e
      && r.structure.handle == a.handle
      && r.structure.buffer == Some(bound.buffer)
      && (VkMemory.IsHostVisibleType(m.memory) ==>
            r.structure.buffer.value.mapped == VkMemory.MappedBase(bound.memory) + m.offset)
  {
  }

  /** What the destructor releases: the native structure when owned, and in every case
      the backing buffer object (which releases its own native objects if it owns them). */
  datatype Release = Release(destroyNative: bool, buffer: Option<VkBuffer.Release>)

  function Destroy(a: AccelerationStructure): Release {
    Release(a.ownsNative, if a.buffer.Some? then Some(VkBuffer.Destroy(a.buffer.value)) else None)
  }

  /** A wrapped structure releases no native object at all: neither the structure nor
      the caller's buffer. */
  lemma WrappedStructureReleasesNothingNative(d: WrapDesc, addressQuery: nat)
    ensures Destroy(CreateWrapped(d, addressQuery)) == Release(false, Some(VkBuffer.KeepNative))
  {
  }

  /** A created structure always destroys its own buffer when the buffer exists. */
  lemma CreatedStructureDestroysItsBuffer(d: Desc, sizes: BuildSizes, bufferCall: Outcome<Token>)
    requires bufferCall.Ok?
    ensures Destroy(Create(d, sizes, bufferCall).1) == Release(true, Some(VkBuffer.DestroyBuffer(bufferCall.value)))
  {
  }
}
