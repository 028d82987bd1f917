/** D3D11 descriptor sets: a set is a window of a flat array of descriptor pointers, and
    updates and copies overwrite parts of that array. */
module D3d11DescriptorSet {
  import opened Common

  /** A set of a pipeline layout: how many descriptors it holds and which of the layout's
      binding ranges are its own. */
  datatype BindingSet = BindingSet(descriptorNum: U32, startRange: U32, endRange: U32)

  /** A binding range of a layout: its first shader slot, its size, where its descriptors
      begin inside the set, its stages and its descriptor type. */
  datatype BindingRange = BindingRange(baseSlot: U32, descriptorNum: U32, descriptorOffset: U32, shaderStages: nat, descriptorType: nat)

  datatype PipelineLayout = PipelineLayout(bindingSets: seq<BindingSet>, bindingRanges: seq<BindingRange>)

  /** A descriptor set: its layout, its binding set and the index of its first descriptor
      pointer in descriptor memory. */
  datatype DescriptorSet = DescriptorSet(layout: PipelineLayout, bindingSet: BindingSet, descriptors: nat)

  /** The descriptor pointers every set's window lies in (0 stands for null). */
  type DescriptorMemory = seq<nat>

  /** The layout's index of range `rangeIndex` of a set, computed in 32 bits. */
  function LayoutRangeIndex(s: DescriptorSet, rangeIndex: U32): (r: U32)
    ensures s.bindingSet.startRange + rangeIndex < U32_LIMIT ==> r == s.bindingSet.startRange + rangeIndex
  {
    TruncateU32(s.bindingSet.startRange + rangeIndex)
  }

  predicate HasRange(s: DescriptorSet, rangeIndex: U32) {
    LayoutRangeIndex(s, rangeIndex) < |s.layout.bindingRanges|
  }

  function RangeOf(s: DescriptorSet, rangeIndex: U32): BindingRange
    requires HasRange(s, rangeIndex)
  {
    s.layout.bindingRanges[LayoutRangeIndex(s, rangeIndex)]
  }

  // Update

  /** Writes `descriptors` into a range of a set, starting at descriptor `baseDescriptor`. */
  datatype UpdateDesc = UpdateDesc(descriptorSet: DescriptorSet, rangeIndex: U32, baseDescriptor: U32, descriptors: seq<nat>)

  /** Where an update starts writing: the set's first pointer plus the range's offset plus
      the base descriptor, the last two summed in 32 bits. */
  function UpdateSlot(u: UpdateDesc): (r: nat)
    requires HasRange(u.descriptorSet, u.rangeIndex)
    ensures var offset := RangeOf(u.descriptorSet, u.rangeIndex).descriptorOffset + u.baseDescriptor;
      offset < U32_LIMIT ==> r == u.descriptorSet.descriptors + offset
  {
    u.descriptorSet.descriptors + TruncateU32(RangeOf(u.descriptorSet, u.rangeIndex).descriptorOffset + u.baseDescriptor)
  }

  /** The range exists and the window the update writes lies in descriptor memory. */
  predicate ValidUpdate(mem: DescriptorMemory, u: UpdateDesc) {
    HasRange(u.descriptorSet, u.rangeIndex) && UpdateSlot(u) + |u.descriptors| <= |mem|
  }

  /** Overwrites `|xs|` pointers from index `o` on with `xs`, as a memory copy does;
      nothing outside that window changes. */
  function Splice(mem: DescriptorMemory, o: nat, xs: seq<nat>): (r: DescriptorMemory)
    requires o + |xs| <= |mem|
    ensures |r| == |mem|
    ensures r[o..o + |xs|] == xs
    ensures forall k :: 0 <= k < |mem| && !(o <= k < o + |xs|) ==> r[k] == mem[k]
  {
    mem[..o] + xs + mem[o + |xs|..]
  }

  /** Splices into windows that do not overlap can be applied in either order. */
  lemma SplicesCommute(mem: DescriptorMemory, o1: nat, xs: seq<nat>, o2: nat, ys: seq<nat>)
    requires o1 + |xs| <= |mem| && o2 + |ys| <= |mem|
    requires o1 + |xs| <= o2 || o2 + |ys| <= o1
    ensures Splice(Splice(mem, o1, xs), o2, ys) == Splice(Splice(mem, o2, ys), o1, xs)
  {
    var a := Splice(Splice(mem, o1, xs), o2, ys);
    var b := Splice(Splice(mem, o2, ys), o1, xs);
    forall k | 0 <= k < |mem|
      ensures a[k] == b[k]
    {
      if o1 <= k < o1 + |xs| {
        assert Splice(mem, o1, xs)[o1..o1 + |xs|][k - o1] == xs[k - o1];
        assert b[o1..o1 + |xs|][k - o1] == xs[k - o1];
      } else if o2 <= k < o2 + |ys| {
        assert a[o2..o2 + |ys|][k - o2] == ys[k - o2];
        assert Splice(mem, o2, ys)[o2..o2 + |ys|][k - o2] == ys[k - o2];
      }
    }
  }

  /** Splicing the same window twice is splicing it once. */
  lemma SpliceIsIdempotent(mem: DescriptorMemory, o: nat, xs: seq<nat>)
    requires o + |xs| <= |mem|
    ensures Splice(Splice(mem, o, xs), o, xs) == Splice(mem, o, xs)
  {
    var a := Splice(Splice(mem, o, xs), o, xs);
    var b := Splice(mem, o, xs);
    forall k | 0 <= k < |mem|
      ensures a[k] == b[k]
    {
      if o <= k < o + |xs| {
        assert a[o..o + |xs|][k - o] == b[o..o + |xs|][k - o];
      }
    }
  }

  /** Overwrites the update's window with its descriptors, in order; nothing else changes. */
  function UpdateRange(mem: DescriptorMemory, u: UpdateDesc): (r: DescriptorMemory)
    requires ValidUpdate(mem, u)
    ensures |r| == |mem|
    ensures r[UpdateSlot(u)..UpdateSlot(u) + |u.descriptors|] == u.descriptors
    ensures forall k :: 0 <= k < |mem| && !InWindow(u, k) ==> r[k] == mem[k]
  {
    Splice(mem, UpdateSlot(u), u.descriptors)
  }

  /** Two updates whose windows do not overlap give the same memory whichever is applied
      first. */
  lemma DisjointUpdatesCommute(mem: DescriptorMemory, u: UpdateDesc, v: UpdateDesc)
    requires ValidUpdate(mem, u) && ValidUpdate(mem, v)
    requires UpdateSlot(u) + |u.descriptors| <= UpdateSlot(v) || UpdateSlot(v) + |v.descriptors| <= UpdateSlot(u)
    ensures UpdateRange(UpdateRange(mem, u), v) == UpdateRange(UpdateRange(mem, v), u)
  {
    SplicesCommute(mem, UpdateSlot(u), u.descriptors, UpdateSlot(v), v.descriptors);
  }

  /** Applying the same update twice is applying it once. */
  lemma UpdateIsIdempotent(mem: DescriptorMemory, u: UpdateDesc)
    requires ValidUpdate(mem, u)
    ensures UpdateRange(UpdateRange(mem, u), u) == UpdateRange(mem, u)
  {
    SpliceIsIdempotent(mem, UpdateSlot(u), u.descriptors);
  }

  predicate ValidUpdates(mem: DescriptorMemory, updates: seq<UpdateDesc>) {
    forall i :: 0 <= i < |updates| ==> ValidUpdate(mem, updates[i])
  }

  /** Whether an index lies in the window of one of the updates. */
  predicate Covered(updates: seq<UpdateDesc>, k: nat) {
    exists i :: 0 <= i < |updates| && InWindow(updates[i], k)
  }

  predicate InWindow(u: UpdateDesc, k: nat) {
    HasRange(u.descriptorSet, u.rangeIndex) && UpdateSlot(u) <= k < UpdateSlot(u) + |u.descriptors|
  }

  /** Applies a batch of updates in order; a pointer outside every window is unchanged, and
      the window of the last update holds its descriptors. */
  method UpdateDescriptorRanges(mem: DescriptorMemory, updates: seq<UpdateDesc>) returns (r: DescriptorMemory)
    requires ValidUpdates(mem, updates)
    ensures UpdatedThrough(mem, updates, |updates|, r)
    ensures LastWritersHold(updates, |updates|, r)
  {
    r := mem;
    var i := 0;
    while i < |updates|
      invariant 0 <= i <= |updates|
      invariant UpdatedThrough(mem, updates, i, r)
      invariant LastWritersHold(updates, i, r)
    {
      UpdateStep(mem, updates, i, r);
      LastWritersStep(mem, updates, i, r);
      r := UpdateRange(r, updates[i]);
      i := i + 1;
    }
  }

  /** No update after update `j` and before update `i` writes pointer `k`. */
  predicate NotOverwritten(updates: seq<UpdateDesc>, j: nat, i: nat, k: nat)
    requires j < i <= |updates|
  {
    forall n :: j < n < i ==> !InWindow(updates[n], k)
  }

  /** After the first `i` updates, every pointer of `r` that one of them wrote holds what
      the last of them to write it put there. */
  predicate LastWritersHold(updates: seq<UpdateDesc>, i: nat, r: DescriptorMemory)
    requires i <= |updates|
  {
    forall j, k :: 0 <= j < i && 0 <= k < |r| && InWindow(updates[j], k) && NotOverwritten(updates, j, i, k) ==>
      r[k] == updates[j].descriptors[k - UpdateSlot(updates[j])]
  }

  lemma LastWritersStep(mem: DescriptorMemory, updates: seq<UpdateDesc>, i: nat, r: DescriptorMemory)
    requires ValidUpdates(mem, updates) && i < |updates| && |r| == |mem|
    requires LastWritersHold(updates, i, r)
    ensures ValidUpdate(r, updates[i]) && LastWritersHold(updates, i + 1, UpdateRange(r, updates[i]))
  {
    var u := updates[i];
    assert ValidUpdate(mem, u);
    var next := UpdateRange(r, u);
    forall j, k | 0 <= j < i + 1 && 0 <= k < |next| && InWindow(updates[j], k) && NotOverwritten(updates, j, i + 1, k)
      ensures next[k] == updates[j].descriptors[k - UpdateSlot(updates[j])]
    {
      if j == i {
        assert next[UpdateSlot(u)..UpdateSlot(u) + |u.descriptors|][k - UpdateSlot(u)] == next[k];
      } else {
        assert !InWindow(updates[i], k);
        assert NotOverwritten(updates, j, i, k);
      }
    }
  }

  /** What the first `i` updates of a batch leave in memory: only their windows changed,
      and the last of them holds its descriptors. */
  predicate UpdatedThrough(mem: DescriptorMemory, updates: seq<UpdateDesc>, i: nat, r: DescriptorMemory)
    requires i <= |updates|
  {
    && |r| == |mem|
    && (forall k :: 0 <= k < |mem| && !Covered(updates[..i], k) ==> r[k] == mem[k])
    && (i > 0 ==> LastUpdateWritten(r, updates[i - 1]))
  }

  lemma UpdateStep(mem: DescriptorMemory, updates: seq<UpdateDesc>, i: nat, r: DescriptorMemory)
    requires ValidUpdates(mem, updates) && i < |updates| && UpdatedThrough(mem, updates, i, r)
    ensures ValidUpdate(r, updates[i]) && UpdatedThrough(mem, updates, i + 1, UpdateRange(r, updates[i]))
  {
    assert ValidUpdate(mem, updates[i]);
    var next := UpdateRange(r, updates[i]);
    forall k | 0 <= k < |mem| && !Covered(updates[..i + 1], k)
      ensures next[k] == mem[k]
    {
      UncoveredByPrefix(updates, i, k);
    }
  }

  /** An index outside the windows of the first `i + 1` updates is outside the windows of
      the first `i` and outside the window of update `i`. */
  lemma UncoveredByPrefix(updates: seq<UpdateDesc>, i: nat, k: nat)
    requires i < |updates| && !Covered(updates[..i + 1], k)
    ensures !Covered(updates[..i], k) && !InWindow(updates[i], k)
  {
    assert updates[..i + 1][i] == updates[i];
    forall n | 0 <= n < i
      ensures !InWindow(updates[..i][n], k)
    {
      assert updates[..i][n] == updates[..i + 1][n];
    }
  }

  /** The window of an update holds the update's descriptors. */
  predicate LastUpdateWritten(mem: DescriptorMemory, u: UpdateDesc) {
    && HasRange(u.descriptorSet, u.rangeIndex)
    && UpdateSlot(u) + |u.descriptors| <= |mem|
    && mem[UpdateSlot(u)..UpdateSlot(u) + |u.descriptors|] == u.descriptors
  }

  // Copy

  /** Copies descriptors from a range of one set to a range of another; a count of 0 means
      the whole source range. */
  datatype CopyDesc = CopyDesc(
    dst: DescriptorSet, dstRangeIndex: U32, dstBaseDescriptor: U32,
    src: DescriptorSet, srcRangeIndex: U32, srcBaseDescriptor: U32,
    descriptorNum: U32)

  predicate HasRanges(c: CopyDesc) {
    HasRange(c.dst, c.dstRangeIndex) && HasRange(c.src, c.srcRangeIndex)
  }

  /** How many pointers a copy moves: the given count, or the source range's size when the
      given count is 0. */
  function CopyCount(c: CopyDesc): (r: nat)
    requires HasRanges(c)
    ensures c.descriptorNum != 0 ==> r == c.descriptorNum
    ensures c.descriptorNum == 0 ==> r == RangeOf(c.src, c.srcRangeIndex).descriptorNum
  {
    if c.descriptorNum == 0 then RangeOf(c.src, c.srcRangeIndex).descriptorNum else c.descriptorNum
  }

  /** Where a copy writes and where it reads: each set's first pointer plus its range's
      offset plus its base descriptor. */
  function CopyDstSlot(c: CopyDesc): nat
    requires HasRanges(c)
  {
    c.dst.descriptors + RangeOf(c.dst, c.dstRangeIndex).descriptorOffset + c.dstBaseDescriptor
  }

  function CopySrcSlot(c: CopyDesc): nat
    requires HasRanges(c)
  {
    c.src.descriptors + RangeOf(c.src, c.srcRangeIndex).descriptorOffset + c.srcBaseDescriptor
  }

  /** Both windows lie in descriptor memory and, as a memory copy requires, do not overlap. */
  predicate ValidCopy(mem: DescriptorMemory, c: CopyDesc) {
    && HasRanges(c)
    && CopyDstSlot(c) + CopyCount(c) <= |mem| && CopySrcSlot(c) + CopyCount(c) <= |mem|
    && (CopyDstSlot(c) + CopyCount(c) <= CopySrcSlot(c) || CopySrcSlot(c) + CopyCount(c) <= CopyDstSlot(c))
  }

  predicate ValidCopies(mem: DescriptorMemory, copies: seq<CopyDesc>) {
    forall i :: 0 <= i < |copies| ==> ValidCopy(mem, copies[i])
  }

  /** Whether an index lies in the destination window of a copy. */
  predicate InDstWindow(c: CopyDesc, k: nat) {
    HasRanges(c) && CopyDstSlot(c) <= k < CopyDstSlot(c) + CopyCount(c)
  }

  /** Copies the source window over the destination window; only the destination window
      changes, so the source window still holds what it held. */
  function CopyRange(mem: DescriptorMemory, c: CopyDesc): (r: DescriptorMemory)
    requires ValidCopy(mem, c)
    ensures |r| == |mem|
    ensures r[CopyDstSlot(c)..CopyDstSlot(c) + CopyCount(c)] == mem[CopySrcSlot(c)..CopySrcSlot(c) + CopyCount(c)]
    ensures forall k :: 0 <= k < |mem| && !InDstWindow(c, k) ==> r[k] == mem[k]
    ensures r[CopySrcSlot(c)..CopySrcSlot(c) + CopyCount(c)] == mem[CopySrcSlot(c)..CopySrcSlot(c) + CopyCount(c)]
  {
    var s := CopySrcSlot(c);
    Splice(mem, CopyDstSlot(c), mem[s..s + CopyCount(c)])
  }

  /** Updating a source window and then copying it elsewhere leaves the update's
      descriptors in the destination window. */
  lemma CopyCarriesAnUpdate(mem: DescriptorMemory, u: UpdateDesc, c: CopyDesc)
    requires ValidUpdate(mem, u) && ValidCopy(mem, c)
    requires UpdateSlot(u) == CopySrcSlot(c) && |u.descriptors| == CopyCount(c)
    ensures CopyRange(UpdateRange(mem, u), c)[CopyDstSlot(c)..CopyDstSlot(c) + CopyCount(c)] == u.descriptors
  {
    var r := CopyRange(UpdateRange(mem, u), c);
    var d := CopyDstSlot(c);
    assert forall j :: 0 <= j < CopyCount(c) ==> r[d..d + CopyCount(c)][j] == u.descriptors[j];
  }

  /** After a copy its destination window holds what its source window holds. */
  predicate LastCopyWritten(mem: DescriptorMemory, c: CopyDesc) {
    && HasRanges(c)
    && CopyDstSlot(c) + CopyCount(c) <= |mem| && CopySrcSlot(c) + CopyCount(c) <= |mem|
    && mem[CopyDstSlot(c)..CopyDstSlot(c) + CopyCount(c)] == mem[CopySrcSlot(c)..CopySrcSlot(c) + CopyCount(c)]
  }

  /** Performs a batch of copies in order; a pointer outside every destination window is
      unchanged, and the destination window of the last copy holds what its source window
      holds. Each copy must be valid on the memory the earlier copies leave. */
  method Copy(mem: DescriptorMemory, copies: seq<CopyDesc>) returns (r: DescriptorMemory)
    requires ValidCopies(mem, copies)
    ensures |r| == |mem|
    ensures forall k :: 0 <= k < |mem| && (forall i :: 0 <= i < |copies| ==> !InDstWindow(copies[i], k)) ==> r[k] == mem[k]
    ensures |copies| > 0 ==> LastCopyWritten(r, copies[|copies| - 1])
  {
    r := mem;
    var i := 0;
    while i < |copies|
      invariant 0 <= i <= |copies| && |r| == |mem|
      invariant UnchangedOutside(r, mem, copies, i)
      invariant i > 0 ==> LastCopyWritten(r, copies[i - 1])
    {
      assert ValidCopy(mem, copies[i]);
      UnchangedOutsideStep(r, mem, copies, i);
      r := CopyRange(r, copies[i]);
      i := i + 1;
    }
  }

  /** `r` agrees with `mem` on every pointer outside the destination windows of the first
      `n` copies. */
  predicate UnchangedOutside(r: DescriptorMemory, mem: DescriptorMemory, copies: seq<CopyDesc>, n: nat)
    requires n <= |copies|
  {
    && |r| == |mem|
    && forall k :: 0 <= k < |mem| && (forall j :: 0 <= j < n ==> !InDstWindow(copies[j], k)) ==> r[k] == mem[k]
  }

  lemma UnchangedOutsideStep(r: DescriptorMemory, mem: DescriptorMemory, copies: seq<CopyDesc>, n: nat)
    requires n < |copies| && UnchangedOutside(r, mem, copies, n)
    requires ValidCopy(r, copies[n])
    ensures UnchangedOutside(CopyRange(r, copies[n]), mem, copies, n + 1)
  {
  }
}
