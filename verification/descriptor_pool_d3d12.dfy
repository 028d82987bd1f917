/** The D3D12 descriptor pool: shader-visible descriptor heaps sized from the pool
    description, descriptor handles as heap start plus offset times increment, and
    linear ("bump") allocation of descriptor sets with one cursor per heap. */
module D3d12DescriptorPool {
  import opened Common

  datatype DescriptorHeapType = ResourceHeap | SamplerHeap

  /** One value per descriptor heap type, as the source's two-element arrays hold them. */
  datatype PerHeap<T> = PerHeap(resource: T, sampler: T) {
    function Get(h: DescriptorHeapType): T {
      match h
      case ResourceHeap => resource
      case SamplerHeap => sampler
    }
  }

  /** Where a range of a set lives: its heap, its offset inside the set's part of that heap,
      and how many descriptors it holds. */
  datatype RangeMapping = RangeMapping(heapOffset: U32, descriptorNum: U32, rootParameterIndex: nat, heapType: DescriptorHeapType)

  /** The ranges of one set of a pipeline layout, and how many descriptors one instance of
      the set takes from each heap. */
  datatype SetMapping = SetMapping(ranges: seq<RangeMapping>, descriptorNum: PerHeap<U32>)

  datatype DescriptorPoolDesc = DescriptorPoolDesc(
    descriptorSetMaxNum: nat,
    samplerMaxNum: U32,
    constantBufferMaxNum: U32,
    textureMaxNum: U32,
    storageTextureMaxNum: U32,
    bufferMaxNum: U32,
    storageBufferMaxNum: U32,
    structuredBufferMaxNum: U32,
    storageStructuredBufferMaxNum: U32,
    accelerationStructureMaxNum: U32,
    mutableMaxNum: U32)

  /** What the pool knows of a heap: the native heap (0 when there is none), the CPU and GPU
      handles of its first descriptor, and the device's handle increment for its type. A
      heap that was not created keeps all four at zero. */
  datatype HeapBase = HeapBase(heap: nat, baseCPU: nat, baseGPU: nat, descriptorSize: nat)

  const NO_HEAP := HeapBase(0, 0, 0, 0)

  /** A heap as the device hands it back: its handle, its start handles and its type. */
  datatype NativeHeap = NativeHeap(heap: Token, baseCPU: nat, baseGPU: nat, heapType: DescriptorHeapType)

  /** A descriptor set: the heaps of its pool (the only part of the pool it reads), its
      mapping, and where its descriptors begin in each heap. */
  datatype DescriptorSet = DescriptorSet(heaps: PerHeap<HeapBase>, mapping: SetMapping, heapOffsets: PerHeap<U32>)

  /** The default-constructed set that fills the pool's set storage before allocation. */
  const EMPTY_SET := DescriptorSet(PerHeap(NO_HEAP, NO_HEAP), SetMapping([], PerHeap(0, 0)), PerHeap(0, 0))

  /** A pool: its heaps, the heaps it binds (in heap-type order), one allocation cursor per
      heap, its set storage (as long as the set capacity) and the number of sets handed out. */
  datatype Pool = Pool(heaps: PerHeap<HeapBase>, boundHeaps: seq<Token>, cursors: PerHeap<nat>, sets: seq<DescriptorSet>, setNum: nat)

  /** The sets handed out never exceed the storage. */
  predicate Valid(p: Pool) {
    p.setNum <= |p.sets|
  }

  // Creation

  /** The size of the resource heap: the nine non-sampler maxima, summed in 32 bits. */
  function ResourceHeapSize(d: DescriptorPoolDesc): (r: U32)
    ensures var sum := d.constantBufferMaxNum + d.textureMaxNum + d.storageTextureMaxNum + d.bufferMaxNum
                       + d.storageBufferMaxNum + d.structuredBufferMaxNum + d.storageStructuredBufferMaxNum
                       + d.accelerationStructureMaxNum + d.mutableMaxNum;
      sum < U32_LIMIT ==> r == sum
  {
    TruncateU32(d.constantBufferMaxNum + d.textureMaxNum + d.storageTextureMaxNum + d.bufferMaxNum
                + d.storageBufferMaxNum + d.structuredBufferMaxNum + d.storageStructuredBufferMaxNum
                + d.accelerationStructureMaxNum + d.mutableMaxNum)
  }

  /** The heap sizes of a pool description: resources in the resource heap, samplers in the
      sampler heap. */
  function HeapSizes(d: DescriptorPoolDesc): (r: PerHeap<U32>)
    ensures r.Get(ResourceHeap) == ResourceHeapSize(d)
    ensures r.Get(SamplerHeap) == d.samplerMaxNum
  {
    PerHeap(ResourceHeapSize(d), d.samplerMaxNum)
  }

  /** The heap of one type: none when its size is 0, otherwise the created heap (or the
      error of the creating call). */
  function CreateHeap(size: nat, call: Outcome<NativeHeap>, increment: nat): (r: Outcome<HeapBase>)
    ensures size == 0 ==> r == Ok(NO_HEAP)
    ensures size > 0 ==> (r.Err? <==> call.Err?)
    ensures size > 0 && call.Err? ==> r == Err(call.code)
    ensures r.Ok? && size > 0 ==> r.value.heap > 0 && r.value.heap == call.value.heap && r.value.descriptorSize == increment
  {
    if size == 0 then Ok(NO_HEAP)
    else if call.Err? then Err(call.code)
    else Ok(HeapBase(call.value.heap, call.value.baseCPU, call.value.baseGPU, increment))
  }

  /** The heaps that exist, in heap-type order: the list the pool binds. */
  function Existing(heaps: PerHeap<HeapBase>): (r: seq<Token>)
    ensures |r| == (if heaps.resource.heap > 0 then 1 else 0) + (if heaps.sampler.heap > 0 then 1 else 0)
    ensures heaps.resource.heap > 0 ==> r[0] == heaps.resource.heap
    ensures heaps.sampler.heap > 0 ==> r[|r| - 1] == heaps.sampler.heap
  {
    (if heaps.resource.heap > 0 then [heaps.resource.heap as Token] else [])
    + (if heaps.sampler.heap > 0 then [heaps.sampler.heap as Token] else [])
  }

  function NewPool(heaps: PerHeap<HeapBase>, setMaxNum: nat): (p: Pool)
    ensures Valid(p) && p.setNum == 0 && |p.sets| == setMaxNum
  {
    Pool(heaps, Existing(heaps), PerHeap(0, 0), seq(setMaxNum, _ => EMPTY_SET), 0)
  }

  /** Creates a pool with its own heaps. `calls` are the results of creating each heap and
      `increments` the device's handle increment per heap type; a heap of size 0 is not
      created and its call is not consulted. */
  function Create(d: DescriptorPoolDesc, calls: PerHeap<Outcome<NativeHeap>>, increments: PerHeap<nat>): (r: Outcome<Pool>)
    ensures HeapSizes(d).resource > 0 && calls.resource.Err? ==> r == Err(calls.resource.code)
    ensures r.Err? ==> exists h :: HeapSizes(d).Get(h) > 0 && calls.Get(h).Err? && r.code == calls.Get(h).code
    ensures (forall h :: HeapSizes(d).Get(h) > 0 ==> calls.Get(h).Ok?) ==> r.Ok?
    ensures r.Ok? ==>
      && Valid(r.value) && r.value.setNum == 0 && |r.value.sets| == d.descriptorSetMaxNum
      && r.value.cursors == PerHeap(0, 0)
      && (forall h :: r.value.heaps.Get(h).heap > 0 <==> HeapSizes(d).Get(h) > 0)
      && (forall h :: HeapSizes(d).Get(h) > 0 ==> r.value.heaps.Get(h).descriptorSize == increments.Get(h))
      && r.value.boundHeaps == Existing(r.value.heaps)
  {
    var sizes := HeapSizes(d);
    var resource := CreateHeap(sizes.resource, calls.resource, increments.resource);
    if resource.Err? then Err(resource.code)
    else
      var sampler := CreateHeap(sizes.sampler, calls.sampler, increments.sampler);
      if sampler.Err? then Err(sampler.code)
      else Ok(NewPool(PerHeap(resource.value, sampler.value), d.descriptorSetMaxNum))
  }

  /** The heap of one type for a pool over heaps the caller supplies: none when none is
      supplied, otherwise that heap with the increment of its own type. */
  function WrapHeap(supplied: Option<NativeHeap>, increments: PerHeap<nat>): (r: HeapBase)
    ensures supplied.None? ==> r == NO_HEAP
    ensures supplied.Some? ==> r.heap == supplied.value.heap && r.descriptorSize == increments.Get(supplied.value.heapType)
  {
    match supplied
    case None => NO_HEAP
    case Some(n) => HeapBase(n.heap, n.baseCPU, n.baseGPU, increments.Get(n.heapType))
  }

  /** Creates a pool over heaps the caller supplies; it cannot fail. */
  function CreateFromHeaps(setMaxNum: nat, supplied: PerHeap<Option<NativeHeap>>, increments: PerHeap<nat>): (p: Pool)
    ensures Valid(p) && p.setNum == 0 && |p.sets| == setMaxNum && p.cursors == PerHeap(0, 0)
    ensures forall h :: p.heaps.Get(h).heap > 0 <==> supplied.Get(h).Some?
    ensures p.boundHeaps == Existing(p.heaps)
  {
    NewPool(PerHeap(WrapHeap(supplied.resource, increments), WrapHeap(supplied.sampler, increments)), setMaxNum)
  }

  // Handles

  /** The CPU handle of the descriptor at `offset` in the heap of type `h`. */
  function DescriptorHandleCPU(heaps: PerHeap<HeapBase>, h: DescriptorHeapType, offset: nat): (r: nat)
    ensures r >= heaps.Get(h).baseCPU
    ensures offset == 0 ==> r == heaps.Get(h).baseCPU
  {
    heaps.Get(h).baseCPU + offset * heaps.Get(h).descriptorSize
  }

  /** The GPU handle of the descriptor at `offset` in the heap of type `h`. */
  function DescriptorHandleGPU(heaps: PerHeap<HeapBase>, h: DescriptorHeapType, offset: nat): (r: nat)
    ensures r >= heaps.Get(h).baseGPU
    ensures offset == 0 ==> r == heaps.Get(h).baseGPU
  {
    heaps.Get(h).baseGPU + offset * heaps.Get(h).descriptorSize
  }

  /** Consecutive descriptors are one increment apart, and distinct offsets of a heap with a
      non-zero increment have distinct handles, on the CPU side and on the GPU side. */
  lemma HandlesStepByIncrement(heaps: PerHeap<HeapBase>, h: DescriptorHeapType, offset: nat)
    ensures DescriptorHandleCPU(heaps, h, offset + 1) == DescriptorHandleCPU(heaps, h, offset) + heaps.Get(h).descriptorSize
    ensures DescriptorHandleGPU(heaps, h, offset + 1) == DescriptorHandleGPU(heaps, h, offset) + heaps.Get(h).descriptorSize
  {
  }

  lemma HandlesAreDistinct(heaps: PerHeap<HeapBase>, h: DescriptorHeapType, a: nat, b: nat)
    requires heaps.Get(h).descriptorSize > 0 && a < b
    ensures DescriptorHandleCPU(heaps, h, a) + heaps.Get(h).descriptorSize <= DescriptorHandleCPU(heaps, h, b)
    ensures DescriptorHandleGPU(heaps, h, a) + heaps.Get(h).descriptorSize <= DescriptorHandleGPU(heaps, h, b)
  {
    MulGrows(a, b, heaps.Get(h).descriptorSize);
  }

  /** Multiplying by the larger of two factors gives at least one more multiple. */
  lemma {:induction false} MulGrows(a: nat, b: nat, s: nat)
    requires a < b
    ensures a * s + s <= b * s
    decreases b - a
  {
    if a + 1 < b {
      MulGrows(a + 1, b, s);
    }
    assert (a + 1) * s == a * s + s;
  }

  // Allocation

  /** Where instance i of a batch starts in each heap: the cursor plus i times the set's
      descriptor count, or 0 in a heap the set takes nothing from. */
  function InstanceOffset(cursor: nat, num: nat, i: nat): (r: nat)
    ensures num == 0 ==> r == 0
    ensures num > 0 && i == 0 ==> r == cursor
    ensures num > 0 ==> r >= cursor
  {
    if num == 0 then 0 else cursor + i * num
  }

  /** Both heap offsets of instance i, truncated to the 32-bit offsets a set stores. */
  function InstanceOffsets(cursors: PerHeap<nat>, m: SetMapping, i: nat): (r: PerHeap<U32>)
    ensures forall h :: r.Get(h) == TruncateU32(InstanceOffset(cursors.Get(h), m.descriptorNum.Get(h), i))
  {
    PerHeap(TruncateU32(InstanceOffset(cursors.resource, m.descriptorNum.resource, i)),
            TruncateU32(InstanceOffset(cursors.sampler, m.descriptorNum.sampler, i)))
  }

  /** The cursors after one more instance: each grows by the set's descriptor count. */
  function Bump(cursors: PerHeap<nat>, m: SetMapping): (r: PerHeap<nat>)
    ensures forall h :: r.Get(h) == cursors.Get(h) + m.descriptorNum.Get(h)
  {
    PerHeap(cursors.resource + m.descriptorNum.resource, cursors.sampler + m.descriptorNum.sampler)
  }

  /** Whether a batch of `n` sets fits in the set storage. */
  predicate CanAllocate(p: Pool, n: nat) {
    p.setNum + n <= |p.sets|
  }

  /** Allocates `instanceNum` sets of one layout: OUT_OF_MEMORY, with the pool untouched,
      when they do not fit in the set storage; otherwise the sets take the next storage
      slots, instance i starting at each heap's cursor plus i times the set's descriptor
      count, and every cursor grows by `instanceNum` times that count. Heap capacity is
      not checked. */
  method AllocateDescriptorSets(p: Pool, m: SetMapping, instanceNum: nat) returns (status: Status, q: Pool, handedOut: seq<nat>)
    requires Valid(p)
    ensures status == OutOfMemory <==> !CanAllocate(p, instanceNum)
    ensures status == Success || status == OutOfMemory
    ensures status == OutOfMemory ==> q == p && handedOut == []
    ensures status == Success ==>
      && Valid(q) && q.heaps == p.heaps && q.boundHeaps == p.boundHeaps && |q.sets| == |p.sets|
      && q.setNum == p.setNum + instanceNum
      && |handedOut| == instanceNum
      && (forall i :: 0 <= i < instanceNum ==> handedOut[i] == p.setNum + i)
      && (forall i :: 0 <= i < instanceNum ==> q.sets[p.setNum + i] == DescriptorSet(p.heaps, m, InstanceOffsets(p.cursors, m, i)))
      && (forall k :: 0 <= k < |p.sets| && !(p.setNum <= k < p.setNum + instanceNum) ==> q.sets[k] == p.sets[k])
      && (forall h :: q.cursors.Get(h) == p.cursors.Get(h) + instanceNum * m.descriptorNum.Get(h))
  {
    if !CanAllocate(p, instanceNum) {
      return OutOfMemory, p, [];
    }
    q := p;
    handedOut := [];
    var i := 0;
    while i < instanceNum
      invariant 0 <= i <= instanceNum
      invariant q.heaps == p.heaps && q.boundHeaps == p.boundHeaps && |q.sets| == |p.sets|
      invariant q.setNum == p.setNum + i
      invariant |handedOut| == i && forall k :: 0 <= k < i ==> handedOut[k] == p.setNum + k
      invariant forall h :: q.cursors.Get(h) == p.cursors.Get(h) + i * m.descriptorNum.Get(h)
      invariant forall k :: 0 <= k < i ==> q.sets[p.setNum + k] == DescriptorSet(p.heaps, m, InstanceOffsets(p.cursors, m, k))
      invariant forall k :: 0 <= k < |p.sets| && !(p.setNum <= k < p.setNum + i) ==> q.sets[k] == p.sets[k]
    {
      var offsets: PerHeap<U32> := PerHeap(TruncateU32(if m.descriptorNum.resource == 0 then 0 else q.cursors.resource),
                             TruncateU32(if m.descriptorNum.sampler == 0 then 0 else q.cursors.sampler));
      assert offsets == InstanceOffsets(p.cursors, m, i) by {
        assert q.cursors.Get(ResourceHeap) == p.cursors.Get(ResourceHeap) + i * m.descriptorNum.Get(ResourceHeap);
        assert q.cursors.Get(SamplerHeap) == p.cursors.Get(SamplerHeap) + i * m.descriptorNum.Get(SamplerHeap);
      }
      var newSet := DescriptorSet(q.heaps, m, offsets);
      q := q.(cursors := Bump(q.cursors, m), sets := q.sets[q.setNum := newSet], setNum := q.setNum + 1);
      handedOut := handedOut + [p.setNum + i];
      forall h
        ensures q.cursors.Get(h) == p.cursors.Get(h) + (i + 1) * m.descriptorNum.Get(h)
      {
        assert (i + 1) * m.descriptorNum.Get(h) == i * m.descriptorNum.Get(h) + m.descriptorNum.Get(h);
      }
      i := i + 1;
    }
    status := Success;
  }

  /** The windows of two instances of one batch do not overlap in any heap, and none reaches
      below the cursor the batch started from. */
  lemma InstanceWindowsAreDisjoint(cursor: nat, num: nat, i: nat, j: nat)
    requires num > 0 && i < j
    ensures cursor <= InstanceOffset(cursor, num, i)
    ensures InstanceOffset(cursor, num, i) + num <= InstanceOffset(cursor, num, j)
  {
    MulGrows(i, j, num);
  }

  /** Forgets every allocation: all cursors and the set count return to 0; the storage keeps
      its contents. */
  function Reset(p: Pool): (q: Pool)
    ensures Valid(q) && q.setNum == 0 && q.cursors == PerHeap(0, 0)
    ensures q.heaps == p.heaps && q.boundHeaps == p.boundHeaps && q.sets == p.sets
  {
    p.(cursors := PerHeap(0, 0), setNum := 0)
  }

  /** After a reset a batch fits exactly when it fits in the whole storage, and the first
      instance of a batch starts at offset 0 of every heap. */
  lemma ResetFreesTheWholePool(p: Pool, m: SetMapping, n: nat)
    ensures CanAllocate(Reset(p), n) <==> n <= |p.sets|
    ensures InstanceOffsets(Reset(p).cursors, m, 0) == PerHeap(0, 0)
  {
  }
}
