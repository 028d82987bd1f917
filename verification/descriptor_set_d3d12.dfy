/** D3D12 descriptor sets: where a range's descriptors sit in the pool's heaps, and how
    updates and copies move descriptors into those heaps. */
module D3d12DescriptorSet {
  import opened Common
  import opened D3d12DescriptorPool

  /** Descriptor memory: the descriptor held at each CPU handle. A handle that was never
      written holds nothing. */
  type DescriptorMemory = map<nat, nat>

  function Read(mem: DescriptorMemory, a: nat): Option<nat> {
    if a in mem then Some(mem[a]) else None
  }

  /** Copies the descriptor at `src` to `dst`, as a one-element descriptor copy does. */
  function CopyOne(mem: DescriptorMemory, dst: nat, src: nat): (r: DescriptorMemory)
    ensures Read(r, dst) == Read(mem, src)
    ensures forall a :: a != dst ==> Read(r, a) == Read(mem, a)
  {
    if src in mem then mem[dst := mem[src]] else mem - {dst}
  }

  // Offsets and handles

  function RangeOf(s: DescriptorSet, rangeIndex: nat): RangeMapping
    requires rangeIndex < |s.mapping.ranges|
  {
    s.mapping.ranges[rangeIndex]
  }

  /** The heap offset of descriptor `base` of a range: the set's start in the range's heap,
      plus the range's offset inside the set, plus `base`, summed in 32 bits. */
  function DescriptorOffset(s: DescriptorSet, rangeIndex: nat, base: U32): (r: U32)
    requires rangeIndex < |s.mapping.ranges|
    ensures var m := RangeOf(s, rangeIndex);
      s.heapOffsets.Get(m.heapType) + m.heapOffset + base < U32_LIMIT ==> r == s.heapOffsets.Get(m.heapType) + m.heapOffset + base
  {
    var m := RangeOf(s, rangeIndex);
    TruncateU32(TruncateU32(s.heapOffsets.Get(m.heapType) + m.heapOffset) + base)
  }

  /** The GPU handle of descriptor `base` of a range, in the heap of the range's type. */
  function GetDescriptorHandleGPU(s: DescriptorSet, rangeIndex: nat, base: U32): (r: nat)
    requires rangeIndex < |s.mapping.ranges|
    ensures var m := RangeOf(s, rangeIndex);
            var heap := s.heaps.Get(m.heapType);
      s.heapOffsets.Get(m.heapType) + m.heapOffset + base < U32_LIMIT ==>
        r == heap.baseGPU + (s.heapOffsets.Get(m.heapType) + m.heapOffset + base) * heap.descriptorSize
  {
    DescriptorHandleGPU(s.heaps, RangeOf(s, rangeIndex).heapType, DescriptorOffset(s, rangeIndex, base))
  }

  /** Two descriptors of one range are as many increments apart as their indices. */
  lemma GpuHandlesFollowDescriptorOrder(s: DescriptorSet, rangeIndex: nat, a: U32, b: U32)
    requires rangeIndex < |s.mapping.ranges| && a < b
    requires var m := RangeOf(s, rangeIndex); s.heapOffsets.Get(m.heapType) + m.heapOffset + b < U32_LIMIT
    requires s.heaps.Get(RangeOf(s, rangeIndex).heapType).descriptorSize > 0
    ensures GetDescriptorHandleGPU(s, rangeIndex, a) < GetDescriptorHandleGPU(s, rangeIndex, b)
  {
    var m := RangeOf(s, rangeIndex);
    HandlesAreDistinct(s.heaps, m.heapType, DescriptorOffset(s, rangeIndex, a), DescriptorOffset(s, rangeIndex, b));
  }

  /** 32-bit sums of one offset with two different indices below 2^32 differ. */
  lemma TruncatedOffsetsDiffer(o: nat, k: nat, j: nat)
    requires k < j < U32_LIMIT
    ensures TruncateU32(o + k) != TruncateU32(o + j)
  {
  }

  // Update

  /** Writes `descriptors` (the CPU handles of the source descriptors) into a range of a
      set, starting at descriptor `baseDescriptor` of the range. */
  datatype UpdateDesc = UpdateDesc(descriptorSet: DescriptorSet, rangeIndex: nat, baseDescriptor: U32, descriptors: seq<nat>)

  /** The range exists and the descriptor count fits the 32-bit count the source passes. */
  predicate ValidUpdate(u: UpdateDesc) {
    u.rangeIndex < |u.descriptorSet.mapping.ranges| && |u.descriptors| < U32_LIMIT
  }

  /** The CPU handle descriptor j of an update is written to: offset + j, in 32 bits, in the
      heap of the range's type. */
  function UpdateTarget(u: UpdateDesc, j: nat): nat
    requires ValidUpdate(u)
  {
    var offset := DescriptorOffset(u.descriptorSet, u.rangeIndex, u.baseDescriptor);
    DescriptorHandleCPU(u.descriptorSet.heaps, RangeOf(u.descriptorSet, u.rangeIndex).heapType, TruncateU32(offset + j))
  }

  /** With a heap increment that is not 0, the descriptors of an update land on distinct handles. */
  lemma UpdateTargetsAreDistinct(u: UpdateDesc, k: nat, j: nat)
    requires ValidUpdate(u) && k < j < |u.descriptors|
    requires u.descriptorSet.heaps.Get(RangeOf(u.descriptorSet, u.rangeIndex).heapType).descriptorSize > 0
    ensures UpdateTarget(u, k) != UpdateTarget(u, j)
  {
    var offset := DescriptorOffset(u.descriptorSet, u.rangeIndex, u.baseDescriptor);
    var h := RangeOf(u.descriptorSet, u.rangeIndex).heapType;
    var a := TruncateU32(offset + k);
    var b := TruncateU32(offset + j);
    TruncatedOffsetsDiffer(offset, k, j);
    if a < b {
      HandlesAreDistinct(u.descriptorSet.heaps, h, a, b);
    } else {
      HandlesAreDistinct(u.descriptorSet.heaps, h, b, a);
    }
  }

  /** The update is well separated: its heap has an increment and no source descriptor lives
      where the update writes. */
  predicate Separated(u: UpdateDesc)
    requires ValidUpdate(u)
  {
    && u.descriptorSet.heaps.Get(RangeOf(u.descriptorSet, u.rangeIndex).heapType).descriptorSize > 0
    && forall j, k :: 0 <= j < |u.descriptors| && 0 <= k < |u.descriptors| ==> u.descriptors[k] != UpdateTarget(u, j)
  }

  /** Copies the descriptors of one update, one at a time. Only the handles the update
      targets change; when the update is separated, target j then holds source descriptor j. */
  method UpdateRange(mem: DescriptorMemory, u: UpdateDesc) returns (r: DescriptorMemory)
    requires ValidUpdate(u)
    ensures forall a :: (forall j :: 0 <= j < |u.descriptors| ==> a != UpdateTarget(u, j)) ==> Read(r, a) == Read(mem, a)
    ensures Separated(u) ==> forall j :: 0 <= j < |u.descriptors| ==> Read(r, UpdateTarget(u, j)) == Read(mem, u.descriptors[j])
  {
    r := mem;
    var j := 0;
    while j < |u.descriptors|
      invariant 0 <= j <= |u.descriptors|
      invariant forall a :: (forall k :: 0 <= k < j ==> a != UpdateTarget(u, k)) ==> Read(r, a) == Read(mem, a)
      invariant Separated(u) ==> forall k :: 0 <= k < j ==> Read(r, UpdateTarget(u, k)) == Read(mem, u.descriptors[k])
    {
      ghost var before := r;
      r := CopyOne(r, UpdateTarget(u, j), u.descriptors[j]);
      if Separated(u) {
        forall k | 0 <= k < j
          ensures Read(r, UpdateTarget(u, k)) == Read(mem, u.descriptors[k])
        {
          UpdateTargetsAreDistinct(u, k, j);
        }
        assert Read(before, u.descriptors[j]) == Read(mem, u.descriptors[j]);
      }
      j := j + 1;
    }
  }

  /** Applies a batch of updates in order; a handle no update targets keeps its descriptor. */
  method UpdateDescriptorRanges(mem: DescriptorMemory, updates: seq<UpdateDesc>) returns (r: DescriptorMemory)
    requires forall i :: 0 <= i < |updates| ==> ValidUpdate(updates[i])
    ensures forall a :: (forall i, j :: 0 <= i < |updates| && 0 <= j < |updates[i].descriptors| ==> a != UpdateTarget(updates[i], j)) ==>
      Read(r, a) == Read(mem, a)
  {
    r := mem;
    var i := 0;
    while i < |updates|
      invariant 0 <= i <= |updates|
      invariant forall a :: (forall n, j :: 0 <= n < i && 0 <= j < |updates[n].descriptors| ==> a != UpdateTarget(updates[n], j)) ==>
        Read(r, a) == Read(mem, a)
    {
      r := UpdateRange(r, updates[i]);
      i := i + 1;
    }
  }

  // Copy

  /** Copies descriptors from a range of one set to a range of another; a count of 0 means
      the whole source range. */
  datatype CopyDesc = CopyDesc(
    dst: DescriptorSet, dstRangeIndex: nat, dstBaseDescriptor: U32,
    src: DescriptorSet, srcRangeIndex: nat, srcBaseDescriptor: U32,
    descriptorNum: U32)

  predicate ValidCopy(c: CopyDesc) {
    c.dstRangeIndex < |c.dst.mapping.ranges| && c.srcRangeIndex < |c.src.mapping.ranges|
  }

  /** How many descriptors a copy moves: the given count, or the source range's size when
      the given count is 0. */
  function CopyCount(c: CopyDesc): (r: nat)
    requires ValidCopy(c)
    ensures c.descriptorNum != 0 ==> r == c.descriptorNum
    ensures c.descriptorNum == 0 ==> r == RangeOf(c.src, c.srcRangeIndex).descriptorNum
  {
    if c.descriptorNum == 0 then RangeOf(c.src, c.srcRangeIndex).descriptorNum else c.descriptorNum
  }

  /** The handle increment of the destination range's heap type, which the copy uses to
      step through both ranges. */
  function CopyStride(c: CopyDesc): nat
    requires ValidCopy(c)
  {
    c.dst.heaps.Get(RangeOf(c.dst, c.dstRangeIndex).heapType).descriptorSize
  }

  /** The first destination handle and the first source handle, each composed by the same
      rule in its own set. */
  function CopyDst(c: CopyDesc): nat
    requires ValidCopy(c)
  {
    DescriptorHandleCPU(c.dst.heaps, RangeOf(c.dst, c.dstRangeIndex).heapType, DescriptorOffset(c.dst, c.dstRangeIndex, c.dstBaseDescriptor))
  }

  function CopySrc(c: CopyDesc): nat
    requires ValidCopy(c)
  {
    DescriptorHandleCPU(c.src.heaps, RangeOf(c.src, c.srcRangeIndex).heapType, DescriptorOffset(c.src, c.srcRangeIndex, c.srcBaseDescriptor))
  }

  /** The two windows a copy touches do not overlap. */
  predicate CopyWindowsDisjoint(c: CopyDesc)
    requires ValidCopy(c)
  {
    CopyDst(c) + CopyCount(c) * CopyStride(c) <= CopySrc(c) || CopySrc(c) + CopyCount(c) * CopyStride(c) <= CopyDst(c)
  }

  /** The address step j of a copy starting at `base` reads or writes. */
  function Step(base: nat, j: nat, stride: nat): nat {
    base + j * stride
  }

  /** Distinct steps of a copy with a stride touch distinct addresses. */
  lemma StepsAreDistinct(base: nat, k: nat, j: nat, stride: nat)
    requires k < j && stride > 0
    ensures Step(base, k, stride) < Step(base, j, stride)
  {
    MulGrows(k, j, stride);
  }

  /** Every step of a copy of `count` descriptors stays below `count` strides from its start. */
  lemma StepInWindow(base: nat, j: nat, count: nat, stride: nat)
    requires j < count && stride > 0
    ensures Step(base, j, stride) + stride <= base + count * stride
  {
    MulGrows(j, count, stride);
  }

  /** Copies `count` descriptors, one at a time, from `src` to `dst`, stepping both by
      `stride`. */
  method CopySteps(mem: DescriptorMemory, dst: nat, src: nat, count: nat, stride: nat) returns (r: DescriptorMemory)
    ensures forall a :: (forall j :: 0 <= j < count ==> a != Step(dst, j, stride)) ==> Read(r, a) == Read(mem, a)
    ensures stride > 0 && (dst + count * stride <= src || src + count * stride <= dst) ==>
      forall j :: 0 <= j < count ==> Read(r, Step(dst, j, stride)) == Read(mem, Step(src, j, stride))
  {
    var separate := stride > 0 && (dst + count * stride <= src || src + count * stride <= dst);
    r := mem;
    var j := 0;
    while j < count
      invariant 0 <= j <= count
      invariant forall a :: (forall k :: 0 <= k < j ==> a != Step(dst, k, stride)) ==> Read(r, a) == Read(mem, a)
      invariant separate ==> forall k :: 0 <= k < j ==> Read(r, Step(dst, k, stride)) == Read(mem, Step(src, k, stride))
    {
      ghost var before := r;
      r := CopyOne(r, Step(dst, j, stride), Step(src, j, stride));
      if separate {
        forall k | 0 <= k < j
          ensures Read(r, Step(dst, k, stride)) == Read(mem, Step(src, k, stride))
        {
          StepsAreDistinct(dst, k, j, stride);
        }
        StepInWindow(src, j, count, stride);
        forall k | 0 <= k < j
          ensures Step(src, j, stride) != Step(dst, k, stride)
        {
          StepInWindow(dst, k, count, stride);
        }
        assert Read(before, Step(src, j, stride)) == Read(mem, Step(src, j, stride));
      }
      j := j + 1;
    }
  }

  /** Performs one copy. Only the destination window changes; when the windows are disjoint
      and the stride is not 0, destination j holds what source j held. */
  method CopyRange(mem: DescriptorMemory, c: CopyDesc) returns (r: DescriptorMemory)
    requires ValidCopy(c)
    ensures forall a :: (forall j :: 0 <= j < CopyCount(c) ==> a != Step(CopyDst(c), j, CopyStride(c))) ==> Read(r, a) == Read(mem, a)
    ensures CopyStride(c) > 0 && CopyWindowsDisjoint(c) ==>
      forall j :: 0 <= j < CopyCount(c) ==> Read(r, Step(CopyDst(c), j, CopyStride(c))) == Read(mem, Step(CopySrc(c), j, CopyStride(c)))
  {
    r := CopySteps(mem, CopyDst(c), CopySrc(c), CopyCount(c), CopyStride(c));
  }

  /** Performs a batch of copies in order; a handle outside every destination window keeps
      its descriptor. */
  method Copy(mem: DescriptorMemory, copies: seq<CopyDesc>) returns (r: DescriptorMemory)
    requires forall i :: 0 <= i < |copies| ==> ValidCopy(copies[i])
    ensures forall a :: (forall i, j :: 0 <= i < |copies| && 0 <= j < CopyCount(copies[i]) ==> a != Step(CopyDst(copies[i]), j, CopyStride(copies[i]))) ==>
      Read(r, a) == Read(mem, a)
  {
    r := mem;
    var i := 0;
    while i < |copies|
      invariant 0 <= i <= |copies|
      invariant forall a :: (forall n, j :: 0 <= n < i && 0 <= j < CopyCount(copies[n]) ==> a != Step(CopyDst(copies[n]), j, CopyStride(copies[n]))) ==>
        Read(r, a) == Read(mem, a)
    {
      r := CopyRange(r, copies[i]);
      i := i + 1;
    }
  }
}
