/** A Vulkan buffer and the ways it obtains memory: its own pooled allocation, or a
    placement inside a memory object; plus the CPU mapping window and its flush range. */
module VkBuffer {
  import opened Common
  import VkMemory

  datatype Buffer = Buffer(
    handle: nat,
    ownsNative: bool,
    pooled: Option<VkMemory.PooledAllocation>,
    mapped: nat,
    nonCoherentMemory: nat,
    nonCoherentOffset: nat,
    deviceAddress: nat,
    desc: BufferDesc,
    mappedRange: Range)

  const NO_DESC: BufferDesc := BufferDesc(0, 0, {})

  function Fresh(): (b: Buffer)
    ensures b.handle == 0 && b.ownsNative && b.pooled.None? && b.mapped == 0 && b.nonCoherentMemory == 0
  {
    Buffer(0, true, None, 0, 0, 0, 0, NO_DESC, Range(0, 0))
  }

  /** Creates an owned buffer; `createCall` is vkCreateBuffer's outcome. */
  function Create(desc: BufferDesc, createCall: Outcome<Token>): (r: (Status, Buffer))
    ensures r.1.desc == desc && r.1.ownsNative && r.1.pooled.None? && r.1.mapped == 0
    ensures createCall.Ok? ==> r.0 == Success && r.1.handle == createCall.value
    ensures createCall.Err? ==> r.0 == createCall.code && r.1.handle == 0
  {
    var b := Fresh().(desc := desc);
    match createCall
    case Ok(h) => (Success, b.(handle := h))
    case Err(e) => (e, b)
  }

  /** Caller description of a native buffer to wrap. */
  datatype WrapDesc = WrapDesc(buffer: nat, mapped: nat, deviceMemory: nat, deviceAddress: nat, size: nat, structureStride: nat)

  /** Wraps a caller buffer without taking ownership. */
  function CreateWrapped(d: WrapDesc): (b: Buffer)
    ensures !b.ownsNative && b.handle == d.buffer && b.mapped == d.mapped
    ensures b.nonCoherentMemory == d.deviceMemory && b.nonCoherentOffset == 0 && b.deviceAddress == d.deviceAddress
    ensures b.desc.size == d.size && b.desc.structureStride == d.structureStride
    ensures Destroy(b) == KeepNative
  {
    Fresh().(ownsNative := false, handle := d.buffer, mapped := d.mapped, nonCoherentMemory := d.deviceMemory,
             deviceAddress := d.deviceAddress, desc := BufferDesc(d.size, d.structureStride, {}))
  }

  /** Alignment a buffer asks of its memory: the native requirement, raised to the
      device's scratch-buffer alignment for scratch buffers, for which Vulkan has no usage
      bit and so reports too small an alignment. */
  function RequiredAlignment(desc: BufferDesc, nativeAlignment: nat, scratchBufferOffset: nat): (r: nat)
    ensures r >= nativeAlignment
    ensures ScratchBuffer in desc.usage ==> r >= scratchBufferOffset && (r == nativeAlignment || r == scratchBufferOffset)
    ensures ScratchBuffer !in desc.usage ==> r == nativeAlignment
  {
    if ScratchBuffer in desc.usage then Max(nativeAlignment, scratchBufferOffset) else nativeAlignment
  }

  /** What the device reports a buffer needs: size, alignment and the chosen memory type. */
  datatype MemoryDesc = MemoryDesc(size: nat, alignment: nat, info: MemoryTypeInfo)

  /** The request made to the pooled allocator. */
  datatype PoolRequest = PoolRequest(size: nat, alignment: nat, typeIndices: set<nat>, flags: set<AllocationFlag>)

  /** The result of an allocation: the status, the buffer, and the request made to the pooled allocator. */
  datatype Bound = Bound(status: Status, buffer: Buffer, request: PoolRequest)

  /** The request made to the pooled allocator for a buffer of its own: a dedicated block
      when asked for or when the memory type demands it, otherwise an aliasable placement. */
  function AllocationRequest(md: MemoryDesc, committed: bool): (req: PoolRequest)
    ensures req.size == md.size && req.alignment == md.alignment && req.typeIndices == {md.info.index}
    ensures Dedicated in req.flags <==> (committed || md.info.mustBeDedicated)
    ensures Mapped in req.flags <==> IsHostVisible(md.info.location)
  {
    PoolRequest(md.size, md.alignment, {md.info.index},
                ResourceAllocationFlags(committed || md.info.mustBeDedicated, IsHostVisible(md.info.location)))
  }

  /** Gives the buffer memory of its own through the pooled allocator, asking for
      `AllocationRequest(md, committed)`. `poolCall` is the allocator's answer, `bindCall`
      the status of binding the buffer to it, `coherent` whether the memory type is
      host-coherent and `addressQuery` the device address when the device supports buffer
      device addresses. */
  function AllocateAndBindMemory(b: Buffer, md: MemoryDesc, committed: bool,
                                 poolCall: Outcome<VkMemory.PooledAllocation>, bindCall: Status,
                                 coherent: bool, addressQuery: Option<nat>): (r: Bound)
    requires b.handle != 0
    ensures r.request == AllocationRequest(md, committed)
    ensures r.buffer.handle == b.handle && r.buffer.ownsNative == b.ownsNative && r.buffer.desc == b.desc
    ensures poolCall.Err? ==> r.status == poolCall.code && r.buffer == b
    ensures poolCall.Ok? ==> r.buffer.pooled == Some(poolCall.value)
    ensures poolCall.Ok? && bindCall != Success ==> r.status == bindCall && r.buffer.mapped == b.mapped
    ensures poolCall.Ok? && bindCall == Success ==>
      && r.status == Success
      && (IsHostVisible(md.info.location) ==> r.buffer.mapped == poolCall.value.mapped)
      && (!IsHostVisible(md.info.location) ==> r.buffer.mapped == b.mapped)
      && (IsHostVisible(md.info.location) && !coherent ==>
            r.buffer.nonCoherentMemory == poolCall.value.block && r.buffer.nonCoherentOffset == poolCall.value.offset)
      && (addressQuery.Some? ==> r.buffer.deviceAddress == addressQuery.value)
  {
    var request := AllocationRequest(md, committed);
    match poolCall
    case Err(e) => Bound(e, b, request)
    case Ok(a) =>
      var withAllocation := b.(pooled := Some(a));
      if bindCall != Success then Bound(bindCall, withAllocation, request)
      else
        var hostVisible := IsHostVisible(md.info.location);
        var mapped := if hostVisible then withAllocation.(mapped := a.mapped) else withAllocation;
        var flushed := if hostVisible && !coherent then mapped.(nonCoherentMemory := a.block, nonCoherentOffset := a.offset) else mapped;
        Bound(Success, WithAddress(flushed, addressQuery), request)
  }

  function WithAddress(b: Buffer, addressQuery: Option<nat>): Buffer {
    if addressQuery.Some? then b.(deviceAddress := addressQuery.value) else b
  }

  /** What binding the buffer into a memory object does, including the updated memory
      object (a must-be-dedicated memory gets its block allocated first). */
  datatype BoundToMemory = BoundToMemory(status: Status, buffer: Buffer, memory: VkMemory.Memory, bindOffset: Option<nat>)

  /** Places the buffer at `offset` inside `mem`. When `bindMemory` is set the native bind
      is performed (after allocating the deferred block of a must-be-dedicated memory,
      whose status is not checked); the CPU address and flush range are then taken from
      the memory. */
  function BindMemory(b: Buffer, mem: VkMemory.Memory, offset: nat, bindMemory: bool,
                      dedicatedSize: nat, dedicatedCall: Outcome<Token>, dedicatedMap: Outcome<Token>,
                      bindCall: Status, coherent: bool, addressQuery: Option<nat>): (r: BoundToMemory)
    requires b.handle != 0 && b.ownsNative
    requires mem.memoryType.Typed?
    ensures r.buffer.handle == b.handle && r.buffer.pooled == b.pooled && r.buffer.desc == b.desc
    ensures r.memory.memoryType == mem.memoryType
    ensures !bindMemory ==> r.memory == mem && r.bindOffset.None?
    ensures bindMemory ==> r.bindOffset == Some(VkMemory.Offset(r.memory) + offset)
    ensures bindMemory && !mem.memoryType.info.mustBeDedicated ==> r.memory == mem
    ensures bindMemory && mem.memoryType.info.mustBeDedicated ==>
      r.memory == VkMemory.CreateDedicated(mem, dedicatedSize, dedicatedCall, dedicatedMap).memory
    ensures bindMemory && bindCall != Success ==> r.status == bindCall && r.buffer == b
    ensures (!bindMemory || bindCall == Success) ==>
      && r.status == Success
      && r.buffer.deviceAddress == (if addressQuery.Some? then addressQuery.value else b.deviceAddress)
      && (VkMemory.IsHostVisibleType(mem) ==> r.buffer.mapped == VkMemory.MappedBase(r.memory) + offset)
      && (!VkMemory.IsHostVisibleType(mem) ==> r.buffer.mapped == b.mapped && r.buffer.nonCoherentMemory == b.nonCoherentMemory)
      && (VkMemory.IsHostVisibleType(mem) && !coherent ==>
            r.buffer.nonCoherentMemory == VkMemory.Handle(r.memory)
            && r.buffer.nonCoherentOffset == VkMemory.Offset(r.memory) + offset)
  {
    var m := if bindMemory && mem.memoryType.info.mustBeDedicated
      then VkMemory.CreateDedicated(mem, dedicatedSize, dedicatedCall, dedicatedMap).memory
      else mem;
    var bindOffset := if bindMemory then Some(VkMemory.Offset(m) + offset) else None;
    if bindMemory && bindCall != Success then BoundToMemory(bindCall, b, m, bindOffset)
    else
      var hostVisible := IsHostVisible(mem.memoryType.info.location);
      var mapped := if hostVisible then b.(mapped := VkMemory.MappedBase(m) + offset) else b;
      var flushed := if hostVisible && !coherent
        then mapped.(nonCoherentMemory := VkMemory.Handle(m), nonCoherentOffset := VkMemory.Offset(m) + offset)
        else mapped;
      BoundToMemory(Success, WithAddress(flushed, addressQuery), m, bindOffset)
  }

  datatype Mapping = Mapping(pointer: nat, buffer: Buffer)

  /** Maps `size` bytes from `offset` (WHOLE_SIZE meaning the buffer's size) and remembers
      the window for the flush at unmap time. */
  function Map(b: Buffer, offset: nat, size: nat): (r: Mapping)
    requires b.mapped != 0
    ensures r.pointer - b.mapped == offset
    ensures r.buffer.mappedRange == Range(offset, if size == WHOLE_SIZE then b.desc.size else size)
    ensures r.buffer == b.(mappedRange := r.buffer.mappedRange)
  {
    var resolved := if size == WHOLE_SIZE then b.desc.size else size;
    Mapping(b.mapped + offset, b.(mappedRange := Range(offset, resolved)))
  }

  /** The range flushed when unmapping: the window last mapped, shifted to the buffer's
      place in its memory; nothing for host-coherent memory. */
  datatype FlushRange = FlushRange(memory: Token, range: Range)

  function Unmap(b: Buffer): (r: Option<FlushRange>)
    ensures r.Some? <==> b.nonCoherentMemory != 0
    ensures r.Some? ==>
      && r.value.memory == b.nonCoherentMemory
      && r.value.range == Range(b.nonCoherentOffset + b.mappedRange.offset, b.mappedRange.size)
  {
    if b.nonCoherentMemory != 0 then Some(FlushRange(b.nonCoherentMemory, Range(b.nonCoherentOffset + b.mappedRange.offset, b.mappedRange.size)))
    else None
  }

  /** What the destructor releases. */
  datatype Release = KeepNative | DestroyWithAllocation(handle: nat, allocation: VkMemory.PooledAllocation) | DestroyBuffer(handle: nat)

  function Destroy(b: Buffer): Release {
    if !b.ownsNative then KeepNative
    else if b.pooled.Some? then DestroyWithAllocation(b.handle, b.pooled.value)
    else DestroyBuffer(b.handle)
  }

  /** Mapping and flushing agree for a buffer placed in non-coherent host-visible memory:
      the pointer `Map` returns addresses byte `Offset(memory) + offset + o` of the memory
      (the memory's CPU base addresses byte `Offset(memory)`), and that is exactly where
      the flushed range starts, for the window's resolved size. */
  lemma {:induction false} BindMapUnmapAgree(b: Buffer, mem: VkMemory.Memory, offset: nat, bindMemory: bool,
                                             dedicatedSize: nat, dedicatedCall: Outcome<Token>, dedicatedMap: Outcome<Token>,
                                             addressQuery: Option<nat>, o: nat, size: nat)
    requires b.handle != 0 && b.ownsNative && mem.memoryType.Typed?
    requires VkMemory.IsHostVisibleType(mem)
    requires var r := BindMemory(b, mem, offset, bindMemory, dedicatedSize, dedicatedCall, dedicatedMap, Success, false, addressQuery);
      VkMemory.MappedBase(r.memory) != 0 && VkMemory.Handle(r.memory) != 0
    ensures var r := BindMemory(b, mem, offset, bindMemory, dedicatedSize, dedicatedCall, dedicatedMap, Success, false, addressQuery);
      var mapping := Map(r.buffer, o, size);
      && mapping.pointer == VkMemory.MappedBase(r.memory) + offset + o
      && Unmap(mapping.buffer) == Some(FlushRange(VkMemory.Handle(r.memory),
           Range(VkMemory.Offset(r.memory) + offset + o, if size == WHOLE_SIZE then b.desc.size else size)))
  {
    var r := BindMemory(b, mem, offset, bindMemory, dedicatedSize, dedicatedCall, dedicatedMap, Success, false, addressQuery);
    assert r.buffer.mapped == VkMemory.MappedBase(r.memory) + offset;
    assert r.buffer.nonCoherentOffset == VkMemory.Offset(r.memory) + offset;
  }

  /** The same agreement for a buffer with its own pooled allocation. */
  lemma AllocateMapUnmapAgree(b: Buffer, md: MemoryDesc, committed: bool, a: VkMemory.PooledAllocation,
                              addressQuery: Option<nat>, o: nat, size: nat)
    requires b.handle != 0 && IsHostVisible(md.info.location) && a.mapped != 0
    ensures var r := AllocateAndBindMemory(b, md, committed, Ok(a), Success, false, addressQuery);
      var mapping := Map(r.buffer, o, size);
      && mapping.pointer == a.mapped + o
      && Unmap(mapping.buffer) == Some(FlushRange(a.block, Range(a.offset + o, if size == WHOLE_SIZE then b.desc.size else size)))
  {
  }

  /** A memory type that must be dedicated always gets a dedicated block, whatever the
      caller asked for; otherwise the caller's choice decides between a dedicated block and
      an aliasable placement. */
  lemma MustBeDedicatedOverridesCommitted(b: Buffer, md: MemoryDesc, committed: bool,
                                          poolCall: Outcome<VkMemory.PooledAllocation>, bindCall: Status,
                                          coherent: bool, addressQuery: Option<nat>)
    requires b.handle != 0
    ensures var flags := AllocateAndBindMemory(b, md, committed, poolCall, bindCall, coherent, addressQuery).request.flags;
      && (md.info.mustBeDedicated ==> Dedicated in flags && CanAlias !in flags)
      && (!md.info.mustBeDedicated ==> (Dedicated in flags <==> committed) && (CanAlias in flags <==> !committed))
  {
  }

  /** A buffer that obtained a pooled allocation hands it back when destroyed, even when
      the bind that followed failed; a wrapped buffer releases nothing. */
  lemma PooledBufferReleasesAllocation(b: Buffer, md: MemoryDesc, committed: bool, a: VkMemory.PooledAllocation,
                                       bindCall: Status, coherent: bool, addressQuery: Option<nat>)
    requires b.handle != 0 && b.ownsNative
    ensures Destroy(AllocateAndBindMemory(b, md, committed, Ok(a), bindCall, coherent, addressQuery).buffer)
            == DestroyWithAllocation(b.handle, a)
  {
  }
}
