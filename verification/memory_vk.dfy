/** A Vulkan memory object: either a sub-allocation from the pooled allocator, a block
    of device memory of its own (allocated here or wrapped from the caller), or, for
    memory types that need a dedicated allocation, nothing until a resource is bound. */
module VkMemory {
  import opened Common

  /** What the pooled allocator reports about a sub-allocation: the device memory block
      it lives in, its offset inside that block and its CPU address (0 when unmapped). */
  datatype PooledAllocation = PooledAllocation(block: Token, offset: nat, mapped: nat)

  /** The packed memory type; `Unset` is the all-ones sentinel of a fresh object. */
  datatype MemoryType = Unset | Typed(info: MemoryTypeInfo)

  datatype Memory = Memory(
    handle: nat,
    pooled: Option<PooledAllocation>,
    offset: nat,
    mapped: nat,
    memoryType: MemoryType,
    ownsNative: bool)

  /** A freshly constructed memory object, before any `Create`. */
  function Fresh(): (m: Memory)
    ensures Handle(m) == 0 && Offset(m) == 0 && MappedBase(m) == 0
    ensures m.memoryType == Unset && m.ownsNative
  {
    Memory(0, None, 0, 0, Unset, true)
  }

  /** Device memory block the object lives in: the pooled block when sub-allocated. */
  function Handle(m: Memory): nat {
    if m.pooled.Some? then m.pooled.value.block else m.handle
  }

  /** Offset of the object inside `Handle(m)`. */
  function Offset(m: Memory): nat {
    if m.pooled.Some? then m.pooled.value.offset else m.offset
  }

  /** CPU address of byte `Offset(m)` of `Handle(m)`, or 0 when unmapped. */
  function MappedBase(m: Memory): nat {
    if m.pooled.Some? then m.pooled.value.mapped else m.mapped
  }

  predicate IsHostVisibleType(m: Memory) {
    m.memoryType.Typed? && IsHostVisible(m.memoryType.info.location)
  }

  /** Result of a creation: the status, the object in the state the source leaves it in,
      the request made to the pooled allocator and the range handed to vkMapMemory. */
  datatype Created = Created(status: Status, memory: Memory, poolRequest: Option<PoolRequest>, mapRange: Option<Range>)

  /** A request to the pooled allocator: size, alignment, the set of memory type indices
      it may choose from, and its flags. */
  datatype PoolRequest = PoolRequest(size: nat, alignment: nat, typeIndices: set<nat>, flags: set<AllocationFlag>)

  /** Caller description of a native memory block to wrap. */
  datatype WrapDesc = WrapDesc(deviceMemory: nat, offset: nat, size: nat, mapped: nat, typeIndex: nat)

  /** Wraps caller-owned device memory. `lookup` is the memory type found for the index
      (None when the catalog has none), `mapCall` the outcome of vkMapMemory. */
  function CreateWrapped(d: WrapDesc, lookup: Option<MemoryTypeInfo>, mapCall: Outcome<Token>): (r: Created)
    ensures lookup.None? ==> r.status == InvalidArgument && r.memory == Fresh() && r.mapRange.None?
    ensures lookup.Some? ==>
      && !r.memory.ownsNative
      && r.memory.memoryType == Typed(lookup.value)
      && Handle(r.memory) == d.deviceMemory
      && Offset(r.memory) == d.offset
      && r.poolRequest.None?
    ensures lookup.Some? && (d.mapped != 0 || !IsHostVisible(lookup.value.location)) ==>
      r.status == Success && MappedBase(r.memory) == d.mapped && r.mapRange.None?
    ensures lookup.Some? && d.mapped == 0 && IsHostVisible(lookup.value.location) ==>
      && r.mapRange == Some(Range(d.offset, d.size))
      && (mapCall.Ok? ==> r.status == Success && MappedBase(r.memory) == mapCall.value)
      && (mapCall.Err? ==> r.status == mapCall.code)
  {
    match lookup
    case None => Created(InvalidArgument, Fresh(), None, None)
    case Some(info) =>
      var m := Memory(d.deviceMemory, None, d.offset, d.mapped, Typed(info), false);
      if d.mapped == 0 && IsHostVisible(info.location) then
        match mapCall
        case Ok(p) => Created(Success, m.(mapped := p), None, Some(Range(d.offset, d.size)))
        case Err(e) => Created(e, m, None, Some(Range(d.offset, d.size)))
      else
        Created(Success, m, None, None)
  }

  /** Alignments and features of the device that the pooled path must respect. */
  datatype DeviceAlignment = DeviceAlignment(
    bufferShaderResourceOffset: nat,
    constantBufferOffset: nat,
    scratchBufferOffset: nat,
    shaderBindingTable: nat,
    accelerationStructureOffset: nat,
    micromapOffset: nat,
    rayTracing: bool,
    micromap: bool)

  /** The worst-case alignment of any resource that may be placed in pooled memory: the
      least value that is at least 1 and at least every alignment the enabled features use. */
  function WorstCaseAlignment(dev: DeviceAlignment): (r: nat)
    ensures r >= 1
    ensures r >= dev.bufferShaderResourceOffset && r >= dev.constantBufferOffset
    ensures dev.rayTracing ==>
      r >= dev.scratchBufferOffset && r >= dev.shaderBindingTable && r >= dev.accelerationStructureOffset
    ensures dev.micromap ==> r >= dev.micromapOffset
    ensures || r == 1
            || r == dev.bufferShaderResourceOffset
            || r == dev.constantBufferOffset
            || (dev.rayTracing && r == dev.scratchBufferOffset)
            || (dev.rayTracing && r == dev.shaderBindingTable)
            || (dev.rayTracing && r == dev.accelerationStructureOffset)
            || (dev.micromap && r == dev.micromapOffset)
  {
    var a := Max(Max(1, dev.bufferShaderResourceOffset), dev.constantBufferOffset);
    var b := if dev.rayTracing
      then Max(Max(Max(a, dev.scratchBufferOffset), dev.shaderBindingTable), dev.accelerationStructureOffset)
      else a;
    if dev.micromap then Max(b, dev.micromapOffset) else b
  }

  datatype AllocateDesc = AllocateDesc(size: nat, info: MemoryTypeInfo, useVma: bool)

  /** Allocates memory of the described type. `poolCall` is the pooled allocator's answer,
      `allocCall` and `mapCall` those of vkAllocateMemory and vkMapMemory. */
  function CreateAllocated(d: AllocateDesc, dev: DeviceAlignment,
                           poolCall: Outcome<PooledAllocation>, allocCall: Outcome<Token>, mapCall: Outcome<Token>): (r: Created)
    ensures r.memory.memoryType == Typed(d.info) && r.memory.ownsNative
    ensures d.info.mustBeDedicated ==>
      && r.status == Success
      && r.memory.pooled.None? && Handle(r.memory) == 0 && MappedBase(r.memory) == 0
      && r.poolRequest.None? && r.mapRange.None?
    ensures !d.info.mustBeDedicated && d.useVma ==>
      && r.poolRequest == Some(PoolRequest(d.size, WorstCaseAlignment(dev), {d.info.index},
                                           {MinMemory, CanAlias} + (if IsHostVisible(d.info.location) then {Mapped} else {})))
      && r.mapRange.None?
      && (poolCall.Ok? ==> r.status == Success && r.memory.pooled == Some(poolCall.value) && Offset(r.memory) == poolCall.value.offset)
      && (poolCall.Err? ==> r.status == poolCall.code && r.memory.pooled.None?)
    ensures !d.info.mustBeDedicated && !d.useVma ==>
      && r.poolRequest.None? && r.memory.pooled.None? && Offset(r.memory) == 0
      && (allocCall.Err? ==> r.status == allocCall.code && Handle(r.memory) == 0 && r.mapRange.None?)
      && (allocCall.Ok? ==> Handle(r.memory) == allocCall.value)
      && (allocCall.Ok? && !IsHostVisible(d.info.location) ==> r.status == Success && r.mapRange.None?)
      && (allocCall.Ok? && IsHostVisible(d.info.location) ==>
            && r.mapRange == Some(Range(0, d.size))
            && (mapCall.Ok? ==> r.status == Success && MappedBase(r.memory) == mapCall.value)
            && (mapCall.Err? ==> r.status == mapCall.code))
  {
    var m := Fresh().(memoryType := Typed(d.info));
    var hostVisible := IsHostVisible(d.info.location);
    if d.info.mustBeDedicated then
      Created(Success, m, None, None)
    else if d.useVma then
      var request := PoolRequest(d.size, WorstCaseAlignment(dev), {d.info.index},
                                 {MinMemory, CanAlias} + (if hostVisible then {Mapped} else {}));
      match poolCall
      case Ok(a) => Created(Success, m.(pooled := Some(a)), Some(request), None)
      case Err(e) => Created(e, m, Some(request), None)
    else
      match allocCall
      case Err(e) => Created(e, m, None, None)
      case Ok(h) =>
        var owned := m.(handle := h);
        if !hostVisible then Created(Success, owned, None, None)
        else match mapCall
          case Ok(p) => Created(Success, owned.(mapped := p), None, Some(Range(0, d.size)))
          case Err(e) => Created(e, owned, None, Some(Range(0, d.size)))
  }

  /** Allocates the deferred block of a must-be-dedicated memory object when a resource
      of `resourceSize` bytes is bound to it. */
  function CreateDedicated(m: Memory, resourceSize: nat, allocCall: Outcome<Token>, mapCall: Outcome<Token>): (r: Created)
    requires m.memoryType.Typed? && m.memoryType.info.mustBeDedicated
    ensures r.memory.memoryType == m.memoryType && r.memory.ownsNative == m.ownsNative
    ensures r.memory.pooled == m.pooled && r.memory.offset == m.offset && r.poolRequest.None?
    ensures allocCall.Err? ==> r.status == allocCall.code && r.memory == m && r.mapRange.None?
    ensures allocCall.Ok? ==> r.memory.handle == allocCall.value
    ensures allocCall.Ok? && !IsHostVisibleType(m) ==> r.status == Success && r.memory.mapped == m.mapped && r.mapRange.None?
    ensures allocCall.Ok? && IsHostVisibleType(m) ==>
      && r.mapRange == Some(Range(0, resourceSize))
      && (mapCall.Ok? ==> r.status == Success && r.memory.mapped == mapCall.value)
      && (mapCall.Err? ==> r.status == mapCall.code)
  {
    match allocCall
    case Err(e) => Created(e, m, None, None)
    case Ok(h) =>
      var owned := m.(handle := h);
      if !IsHostVisible(m.memoryType.info.location) then Created(Success, owned, None, None)
      else match mapCall
        case Ok(p) => Created(Success, owned.(mapped := p), None, Some(Range(0, resourceSize)))
        case Err(e) => Created(e, owned, None, Some(Range(0, resourceSize)))
  }

  /** What the destructor releases. */
  datatype Release = KeepNative | FreePooled(allocation: PooledAllocation) | FreeBlock(handle: Token)

  function Destroy(m: Memory): Release {
    if !m.ownsNative then KeepNative
    else if m.pooled.Some? then FreePooled(m.pooled.value)
    else if m.handle != 0 then FreeBlock(m.handle)
    else KeepNative
  }

  /** Wrapped memory is never released by the object, whatever its state. */
  lemma WrappedMemoryIsNeverFreed(d: WrapDesc, lookup: Option<MemoryTypeInfo>, mapCall: Outcome<Token>)
    requires lookup.Some?
    ensures Destroy(CreateWrapped(d, lookup, mapCall).memory) == KeepNative
  {
  }

  /** Allocated memory releases exactly what it obtained: the pooled sub-allocation, or
      its own block once vkAllocateMemory succeeded; a deferred dedicated object releases
      nothing until a block is allocated for it. */
  lemma AllocatedMemoryFreesWhatItObtained(d: AllocateDesc, dev: DeviceAlignment,
                                           poolCall: Outcome<PooledAllocation>, allocCall: Outcome<Token>, mapCall: Outcome<Token>)
    ensures var m := CreateAllocated(d, dev, poolCall, allocCall, mapCall).memory;
      && (d.info.mustBeDedicated ==> Destroy(m) == KeepNative)
      && (!d.info.mustBeDedicated && d.useVma && poolCall.Ok? ==> Destroy(m) == FreePooled(poolCall.value))
      && (!d.info.mustBeDedicated && !d.useVma && allocCall.Ok? ==> Destroy(m) == FreeBlock(allocCall.value))
      && (!d.info.mustBeDedicated && ((d.useVma && poolCall.Err?) || (!d.useVma && allocCall.Err?)) ==> Destroy(m) == KeepNative)
  {
  }

  /** Once the deferred block of a dedicated object is allocated, the object owns it and
      the destructor releases it. */
  lemma DedicatedBlockIsFreed(d: AllocateDesc, dev: DeviceAlignment, poolCall: Outcome<PooledAllocation>,
                              allocCall: Outcome<Token>, mapCall: Outcome<Token>,
                              resourceSize: nat, blockCall: Outcome<Token>, blockMap: Outcome<Token>)
    requires d.info.mustBeDedicated && blockCall.Ok?
    ensures var m := CreateAllocated(d, dev, poolCall, allocCall, mapCall).memory;
      Destroy(CreateDedicated(m, resourceSize, blockCall, blockMap).memory) == FreeBlock(blockCall.value)
  {
  }
}
