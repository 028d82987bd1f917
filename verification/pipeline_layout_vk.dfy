/** The Vulkan binding-layout compiler: how a pipeline layout description (descriptor sets
    of ranges, root constants, root descriptors and root samplers) becomes descriptor set
    layouts placed by register space, push-constant ranges, and the binding info the
    command buffers later consult. */
module VkPipelineLayout {
  import opened Common

  datatype DescriptorType =
    | SamplerKind
    | ConstantBufferKind
    | TextureKind
    | StorageTextureKind
    | BufferKind
    | StorageBufferKind
    | StructuredBufferKind
    | StorageStructuredBufferKind
    | AccelerationStructureKind

  /** The HLSL register class a descriptor type is declared in: s, b, t or u. */
  datatype RegisterClass = SRegister | BRegister | TRegister | URegister

  function RegisterClassOf(t: DescriptorType): RegisterClass {
    match t
    case SamplerKind => SRegister
    case ConstantBufferKind => BRegister
    case StorageTextureKind => URegister
    case StorageBufferKind => URegister
    case StorageStructuredBufferKind => URegister
    case _ => TRegister
  }

  /** The device's global SPIR-V binding shifts, one per register class. */
  datatype BindingOffsets = BindingOffsets(samplerOffset: nat, constantBufferOffset: nat, textureOffset: nat, storageTextureAndBufferOffset: nat)

  function ClassOffset(o: BindingOffsets, c: RegisterClass): nat {
    match c
    case SRegister => o.samplerOffset
    case BRegister => o.constantBufferOffset
    case TRegister => o.textureOffset
    case URegister => o.storageTextureAndBufferOffset
  }

  /** The binding shift of a descriptor type, as the per-type table assigns it; all shifts
      are 0 when the layout opts out of the global offsets. */
  function BindingOffset(o: BindingOffsets, ignoreGlobal: bool, t: DescriptorType): (r: nat)
    ensures ignoreGlobal ==> r == 0
    ensures !ignoreGlobal ==> r == ClassOffset(o, RegisterClassOf(t))
  {
    if ignoreGlobal then 0
    else
      match t
      case SamplerKind => o.samplerOffset
      case ConstantBufferKind => o.constantBufferOffset
      case TextureKind => o.textureOffset
      case StorageTextureKind => o.storageTextureAndBufferOffset
      case BufferKind => o.textureOffset
      case StorageBufferKind => o.storageTextureAndBufferOffset
      case StructuredBufferKind => o.textureOffset
      case StorageStructuredBufferKind => o.storageTextureAndBufferOffset
      case AccelerationStructureKind => o.textureOffset
  }

  datatype RangeFlag = Array | VariableSizedArray | PartiallyBound | AllowUpdateAfterSet | Mutable

  datatype DescriptorRange = DescriptorRange(
    baseRegisterIndex: nat,
    descriptorNum: nat,
    descriptorType: DescriptorType,
    flags: set<RangeFlag>,
    shaderStages: nat)

  /** A descriptor set: its register space, its ranges and whether it allows update after set. */
  datatype DescriptorSetDesc = DescriptorSetDesc(registerSpace: nat, ranges: seq<DescriptorRange>, allowUpdateAfterSet: bool)

  datatype RootConstant = RootConstant(registerIndex: nat, size: nat, shaderStages: nat)

  datatype RootDescriptor = RootDescriptor(registerIndex: nat, descriptorType: DescriptorType, shaderStages: nat)

  /** A root sampler; its sampler state is not part of this model. */
  datatype RootSampler = RootSampler(registerIndex: nat, shaderStages: nat)

  datatype PipelineLayoutDesc = PipelineLayoutDesc(
    sets: seq<DescriptorSetDesc>,
    rootConstants: seq<RootConstant>,
    rootDescriptors: seq<RootDescriptor>,
    rootSamplers: seq<RootSampler>,
    rootRegisterSpace: nat,
    ignoreGlobalSpirvOffsets: bool)

  /** What the compiler reads from the device. */
  datatype Device = Device(offsets: BindingOffsets, rayTracing: bool, bindlessTier: nat, mutableDescriptorType: bool)

  // Flattening the ranges of all sets

  /** A register shifted by its type's binding offset, in 32-bit arithmetic. */
  function Shift(register: nat, o: BindingOffsets, ignoreGlobal: bool, t: DescriptorType): (r: nat)
    ensures r < U32_LIMIT
    ensures register + BindingOffset(o, ignoreGlobal, t) < U32_LIMIT ==> r == register + BindingOffset(o, ignoreGlobal, t)
  {
    TruncateU32(register + BindingOffset(o, ignoreGlobal, t))
  }

  /** A range with its base register shifted by its type's binding offset. */
  function Remap(r: DescriptorRange, o: BindingOffsets, ignoreGlobal: bool): DescriptorRange {
    r.(baseRegisterIndex := Shift(r.baseRegisterIndex, o, ignoreGlobal, r.descriptorType))
  }

  /** The number of ranges in the sets before set `i`: where set i's ranges begin once all
      ranges are laid out back to back. */
  function RangeStart(sets: seq<DescriptorSetDesc>, i: nat): nat
    requires i <= |sets|
  {
    if i == 0 then 0 else RangeStart(sets, i - 1) + |sets[i - 1].ranges|
  }

  /** The number of ranges in `sets`. */
  function RangeCount(sets: seq<DescriptorSetDesc>): nat {
    RangeStart(sets, |sets|)
  }

  /** Remaps each range of a list. */
  function RemapAll(rs: seq<DescriptorRange>, o: BindingOffsets, ignoreGlobal: bool): (r: seq<DescriptorRange>)
    ensures |r| == |rs|
    ensures forall j :: 0 <= j < |rs| ==> r[j] == Remap(rs[j], o, ignoreGlobal)
  {
    seq(|rs|, j requires 0 <= j < |rs| => Remap(rs[j], o, ignoreGlobal))
  }

  /** The remapped ranges of the first `n` sets, in declaration order. */
  function FlatPrefix(sets: seq<DescriptorSetDesc>, n: nat, o: BindingOffsets, ignoreGlobal: bool): (r: seq<DescriptorRange>)
    requires n <= |sets|
    ensures |r| == RangeStart(sets, n)
  {
    if n == 0 then [] else FlatPrefix(sets, n - 1, o, ignoreGlobal) + RemapAll(sets[n - 1].ranges, o, ignoreGlobal)
  }

  /** The remapped ranges of all sets, in declaration order. */
  function Flat(sets: seq<DescriptorSetDesc>, o: BindingOffsets, ignoreGlobal: bool): (r: seq<DescriptorRange>)
    ensures |r| == RangeCount(sets)
  {
    FlatPrefix(sets, |sets|, o, ignoreGlobal)
  }

  /** The ranges of set i, remapped, sit right after the ranges of the sets before it. */
  lemma {:induction false} FlatWindow(sets: seq<DescriptorSetDesc>, n: nat, o: BindingOffsets, ignoreGlobal: bool, i: nat)
    requires i < n <= |sets|
    ensures RangeStart(sets, i) + |sets[i].ranges| <= RangeStart(sets, n)
    ensures FlatPrefix(sets, n, o, ignoreGlobal)[RangeStart(sets, i)..RangeStart(sets, i) + |sets[i].ranges|] == RemapAll(sets[i].ranges, o, ignoreGlobal)
    decreases n
  {
    var head := FlatPrefix(sets, n - 1, o, ignoreGlobal);
    var tail := RemapAll(sets[n - 1].ranges, o, ignoreGlobal);
    if i < n - 1 {
      FlatWindow(sets, n - 1, o, ignoreGlobal, i);
      SliceOfFirstPart(head, tail, RangeStart(sets, i), RangeStart(sets, i) + |sets[i].ranges|);
    } else {
      SliceOfSecondPart(head, tail);
    }
  }

  lemma SliceOfFirstPart<T>(head: seq<T>, tail: seq<T>, a: nat, e: nat)
    requires a <= e <= |head|
    ensures (head + tail)[a..e] == head[a..e]
  {
    assert forall k :: a <= k < e ==> (head + tail)[k] == head[k];
  }

  lemma SliceOfSecondPart<T>(head: seq<T>, tail: seq<T>)
    ensures (head + tail)[|head|..|head| + |tail|] == tail
  {
  }

  /** Appends the remapped `rs` to `ranges`, one range at a time. */
  method AppendRemapped(ranges: seq<DescriptorRange>, rs: seq<DescriptorRange>, o: BindingOffsets, ignoreGlobal: bool)
    returns (r: seq<DescriptorRange>)
    ensures r == ranges + RemapAll(rs, o, ignoreGlobal)
  {
    r := ranges;
    var j := 0;
    while j < |rs|
      invariant 0 <= j <= |rs|
      invariant r == ranges + RemapAll(rs[..j], o, ignoreGlobal)
    {
      assert RemapAll(rs[..j + 1], o, ignoreGlobal) == RemapAll(rs[..j], o, ignoreGlobal) + [Remap(rs[j], o, ignoreGlobal)];
      r := r + [Remap(rs[j], o, ignoreGlobal)];
      j := j + 1;
    }
    assert rs[..j] == rs;
  }

  /** `starts` holds where each of the first `n` sets' ranges begin. */
  predicate StartsOf(starts: seq<nat>, sets: seq<DescriptorSetDesc>, n: nat)
    requires n <= |sets|
  {
    |starts| == n && forall k :: 0 <= k < n ==> starts[k] == RangeStart(sets, k)
  }

  lemma StartsStep(starts: seq<nat>, sets: seq<DescriptorSetDesc>, n: nat)
    requires n < |sets| && StartsOf(starts, sets, n)
    ensures StartsOf(starts + [RangeStart(sets, n)], sets, n + 1)
  {
  }

  /** Copies the ranges of all sets, in declaration order, into one list with remapped base
      registers; `starts[i]` is where set i's ranges begin. */
  method FlattenRanges(sets: seq<DescriptorSetDesc>, o: BindingOffsets, ignoreGlobal: bool)
    returns (ranges: seq<DescriptorRange>, starts: seq<nat>)
    ensures ranges == Flat(sets, o, ignoreGlobal)
    ensures |starts| == |sets| && forall i :: 0 <= i < |sets| ==> starts[i] == RangeStart(sets, i)
  {
    ranges := [];
    starts := [];
    var i := 0;
    while i < |sets|
      invariant 0 <= i <= |sets|
      invariant ranges == FlatPrefix(sets, i, o, ignoreGlobal)
      invariant StartsOf(starts, sets, i)
    {
      assert FlatPrefix(sets, i + 1, o, ignoreGlobal) == ranges + RemapAll(sets[i].ranges, o, ignoreGlobal);
      StartsStep(starts, sets, i);
      starts := starts + [|ranges|];
      ranges := AppendRemapped(ranges, sets[i].ranges, o, ignoreGlobal);
      i := i + 1;
    }
    assert ranges == FlatPrefix(sets, |sets|, o, ignoreGlobal);
  }

  // Push constants

  datatype PushConstantRange = PushConstantRange(stages: nat, offset: nat, size: nat)

  /** Total size of the constants in `cs`, accumulated in 32-bit arithmetic. */
  function SizeSum(cs: seq<RootConstant>): (r: nat)
    ensures r < U32_LIMIT
  {
    if |cs| == 0 then 0 else TruncateU32(SizeSum(cs[..|cs| - 1]) + cs[|cs| - 1].size)
  }

  /** Lays root constants out back to back: constant i starts where constant i - 1 ends,
      modulo 2^32. */
  method PushConstantRanges(cs: seq<RootConstant>) returns (r: seq<PushConstantRange>)
    ensures |r| == |cs|
    ensures forall i :: 0 <= i < |cs| ==> r[i] == PushConstantRange(cs[i].shaderStages, SizeSum(cs[..i]), cs[i].size)
    ensures |cs| > 0 ==> r[0].offset == 0
    ensures Chained(r)
  {
    r := [];
    var offset := 0;
    var i := 0;
    while i < |cs|
      invariant 0 <= i <= |cs| && offset == SizeSum(cs[..i])
      invariant LaidOut(r, cs, i)
    {
      LaidOutStep(r, cs, i);
      r := r + [PushConstantRange(cs[i].shaderStages, offset, cs[i].size)];
      SizeSumStep(cs, i);
      offset := TruncateU32(offset + cs[i].size);
      i := i + 1;
    }
    LaidOutChains(r, cs);
  }

  /** Each range starts where the one before it ends, modulo 2^32. */
  predicate Chained(r: seq<PushConstantRange>) {
    forall i :: 0 <= i < |r| - 1 ==> TruncateU32(r[i].offset + r[i].size) == r[i + 1].offset
  }

  /** The first `i` push-constant ranges, each at the sum of the sizes before it. */
  predicate LaidOut(r: seq<PushConstantRange>, cs: seq<RootConstant>, i: nat)
    requires i <= |cs|
  {
    |r| == i && forall k :: 0 <= k < i ==> r[k] == PushConstantRange(cs[k].shaderStages, SizeSum(cs[..k]), cs[k].size)
  }

  lemma LaidOutStep(r: seq<PushConstantRange>, cs: seq<RootConstant>, i: nat)
    requires i < |cs| && LaidOut(r, cs, i)
    ensures LaidOut(r + [PushConstantRange(cs[i].shaderStages, SizeSum(cs[..i]), cs[i].size)], cs, i + 1)
  {
  }

  /** Ranges laid out by the size sums follow one another. */
  lemma LaidOutChains(r: seq<PushConstantRange>, cs: seq<RootConstant>)
    requires LaidOut(r, cs, |cs|)
    ensures Chained(r)
  {
    forall i | 0 <= i < |cs| - 1
      ensures TruncateU32(r[i].offset + r[i].size) == r[i + 1].offset
    {
      SizeSumStep(cs, i);
    }
  }

  /** The sum over one more constant adds that constant's size, modulo 2^32. */
  lemma SizeSumStep(cs: seq<RootConstant>, i: nat)
    requires i < |cs|
    ensures SizeSum(cs[..i + 1]) == TruncateU32(SizeSum(cs[..i]) + cs[i].size)
  {
    assert cs[..i + 1][..i] == cs[..i];
  }

  // The push (root) set

  predicate HasRootSet(d: PipelineLayoutDesc) {
    |d.rootDescriptors| + |d.rootSamplers| > 0
  }

  /** The registers of the push set, in push-descriptor order: root descriptors shifted by
      their type's offset, then root samplers shifted by the sampler offset. */
  function PushDescriptors(d: PipelineLayoutDesc, o: BindingOffsets): (r: seq<nat>)
    ensures |r| == |d.rootDescriptors| + |d.rootSamplers|
    ensures forall i :: 0 <= i < |d.rootDescriptors| ==>
      r[i] == Shift(d.rootDescriptors[i].registerIndex, o, d.ignoreGlobalSpirvOffsets, d.rootDescriptors[i].descriptorType)
    ensures forall i :: 0 <= i < |d.rootSamplers| ==>
      r[|d.rootDescriptors| + i] == Shift(d.rootSamplers[i].registerIndex, o, d.ignoreGlobalSpirvOffsets, SamplerKind)
  {
    seq(|d.rootDescriptors|, i requires 0 <= i < |d.rootDescriptors| =>
          Shift(d.rootDescriptors[i].registerIndex, o, d.ignoreGlobalSpirvOffsets, d.rootDescriptors[i].descriptorType))
    + seq(|d.rootSamplers|, i requires 0 <= i < |d.rootSamplers| =>
          Shift(d.rootSamplers[i].registerIndex, o, d.ignoreGlobalSpirvOffsets, SamplerKind))
  }

  /** The set the root descriptors form: one single-descriptor range per root descriptor. */
  function RootSet(d: PipelineLayoutDesc): (s: DescriptorSetDesc)
    ensures s.registerSpace == d.rootRegisterSpace && |s.ranges| == |d.rootDescriptors| && !s.allowUpdateAfterSet
    ensures forall i :: 0 <= i < |s.ranges| ==>
      && s.ranges[i].descriptorNum == 1 && s.ranges[i].flags == {}
      && s.ranges[i].baseRegisterIndex == d.rootDescriptors[i].registerIndex
      && s.ranges[i].descriptorType == d.rootDescriptors[i].descriptorType
  {
    DescriptorSetDesc(d.rootRegisterSpace,
                      seq(|d.rootDescriptors|, i requires 0 <= i < |d.rootDescriptors| =>
                            DescriptorRange(d.rootDescriptors[i].registerIndex, 1, d.rootDescriptors[i].descriptorType, {}, d.rootDescriptors[i].shaderStages)),
                      false)
  }

  // Set layouts

  datatype BindingFlag = PartiallyBoundBit | UpdateAfterBindBit | VariableDescriptorCountBit

  /** The Vulkan descriptor type of a binding: a mutable binding with the number of types
      in its type list, a plain descriptor type, or an immutable sampler. */
  datatype VkDescriptorType = MutableDescriptor(typeCount: nat) | Plain(t: DescriptorType) | ImmutableSampler

  datatype LayoutBinding = LayoutBinding(binding: nat, descriptorCount: nat, descriptorType: VkDescriptorType, flags: set<BindingFlag>, stages: nat)

  datatype LayoutFlag = UpdateAfterBindPool | PushDescriptor

  /** A descriptor set layout: its bindings and flags, and whether the per-binding flags and
      the mutable type lists reach the driver (they are chained only when the device
      supports bindless, and the lists only with mutable descriptors too). */
  datatype SetLayout = SetLayout(bindings: seq<LayoutBinding>, flags: set<LayoutFlag>, bindingFlagsChained: bool, mutableListsChained: bool)

  predicate IsArray(r: DescriptorRange) {
    Array in r.flags || VariableSizedArray in r.flags
  }

  /** The number of bindings a range expands into. */
  function BindingsOfRange(r: DescriptorRange): nat {
    if IsArray(r) then 1 else r.descriptorNum
  }

  /** The declared binding count: root samplers plus the bindings of every range. */
  function BindingCount(ranges: seq<DescriptorRange>, rootSamplerNum: nat): nat {
    if |ranges| == 0 then rootSamplerNum else BindingsOfRange(ranges[0]) + BindingCount(ranges[1..], rootSamplerNum)
  }

  function RangeBindingFlags(r: DescriptorRange): (f: set<BindingFlag>)
    ensures PartiallyBoundBit in f <==> PartiallyBound in r.flags
    ensures UpdateAfterBindBit in f <==> AllowUpdateAfterSet in r.flags
    ensures VariableDescriptorCountBit in f <==> VariableSizedArray in r.flags
  {
    (if PartiallyBound in r.flags then {PartiallyBoundBit} else {})
    + (if AllowUpdateAfterSet in r.flags then {UpdateAfterBindBit} else {})
    + (if IsArray(r) && VariableSizedArray in r.flags then {VariableDescriptorCountBit} else {})
  }

  /** The Vulkan type of a range's bindings: mutable ranges list seven types with ray
      tracing and six without. */
  function RangeDescriptorType(r: DescriptorRange, rayTracing: bool): VkDescriptorType {
    if Mutable in r.flags then MutableDescriptor(if rayTracing then 7 else 6) else Plain(r.descriptorType)
  }

  /** The bindings of one range: an array range is one binding holding all its
      descriptors; any other range is one single-descriptor binding per register. */
  function ExpandRange(r: DescriptorRange, o: BindingOffsets, ignoreGlobal: bool, rayTracing: bool): (b: seq<LayoutBinding>)
    ensures |b| == BindingsOfRange(r)
    ensures IsArray(r) ==> b == [LayoutBinding(Remap(r, o, ignoreGlobal).baseRegisterIndex, r.descriptorNum,
                                               RangeDescriptorType(r, rayTracing), RangeBindingFlags(r), r.shaderStages)]
    ensures !IsArray(r) ==> forall j :: 0 <= j < |b| ==>
      b[j] == LayoutBinding(TruncateU32(Remap(r, o, ignoreGlobal).baseRegisterIndex + j), 1, RangeDescriptorType(r, rayTracing), RangeBindingFlags(r), r.shaderStages)
  {
    var base := Remap(r, o, ignoreGlobal).baseRegisterIndex;
    if IsArray(r) then [LayoutBinding(base, r.descriptorNum, RangeDescriptorType(r, rayTracing), RangeBindingFlags(r), r.shaderStages)]
    else seq(r.descriptorNum, j requires 0 <= j < r.descriptorNum =>
               LayoutBinding(TruncateU32(base + j), 1, RangeDescriptorType(r, rayTracing), RangeBindingFlags(r), r.shaderStages))
  }

  /** The bindings of all ranges, range after range. */
  function ExpandRanges(ranges: seq<DescriptorRange>, o: BindingOffsets, ignoreGlobal: bool, rayTracing: bool): seq<LayoutBinding> {
    if |ranges| == 0 then [] else ExpandRange(ranges[0], o, ignoreGlobal, rayTracing) + ExpandRanges(ranges[1..], o, ignoreGlobal, rayTracing)
  }

  /** The immutable-sampler bindings of the root samplers. */
  function SamplerBindings(samplers: seq<RootSampler>, o: BindingOffsets, ignoreGlobal: bool): (b: seq<LayoutBinding>)
    ensures |b| == |samplers|
    ensures forall i :: 0 <= i < |b| ==>
      b[i] == LayoutBinding(Shift(samplers[i].registerIndex, o, ignoreGlobal, SamplerKind), 1, ImmutableSampler, {}, samplers[i].shaderStages)
  {
    seq(|samplers|, i requires 0 <= i < |samplers| =>
          LayoutBinding(Shift(samplers[i].registerIndex, o, ignoreGlobal, SamplerKind), 1, ImmutableSampler, {}, samplers[i].shaderStages))
  }

  /** The bindings the ranges emit are exactly as many as the declared count says. */
  lemma {:induction false} ExpandedRangesMatchCount(ranges: seq<DescriptorRange>, o: BindingOffsets, ignoreGlobal: bool, rayTracing: bool)
    ensures |ExpandRanges(ranges, o, ignoreGlobal, rayTracing)| == BindingCount(ranges, 0)
    decreases |ranges|
  {
    if |ranges| > 0 {
      ExpandedRangesMatchCount(ranges[1..], o, ignoreGlobal, rayTracing);
    }
  }

  /** Adding root samplers to the count adds that many bindings. */
  lemma {:induction false} BindingCountAddsSamplers(ranges: seq<DescriptorRange>, rootSamplerNum: nat)
    ensures BindingCount(ranges, rootSamplerNum) == BindingCount(ranges, 0) + rootSamplerNum
    decreases |ranges|
  {
    if |ranges| > 0 {
      BindingCountAddsSamplers(ranges[1..], rootSamplerNum);
    }
  }

  /** Builds a set layout: the range bindings, then the root-sampler bindings; the pool
      flag follows the set's update-after-set flag and the push flag marks the root set. */
  function CreateSetLayout(s: DescriptorSetDesc, samplers: seq<RootSampler>, dev: Device, ignoreGlobal: bool, isPush: bool): (l: SetLayout)
    ensures |l.bindings| == BindingCount(s.ranges, 0) + |samplers| == BindingCount(s.ranges, |samplers|)
    ensures l.bindings[..BindingCount(s.ranges, 0)] == ExpandRanges(s.ranges, dev.offsets, ignoreGlobal, dev.rayTracing)
    ensures l.bindings[|l.bindings| - |samplers|..] == SamplerBindings(samplers, dev.offsets, ignoreGlobal)
    ensures UpdateAfterBindPool in l.flags <==> s.allowUpdateAfterSet
    ensures PushDescriptor in l.flags <==> isPush
    ensures l.bindingFlagsChained <==> dev.bindlessTier != 0
    ensures l.mutableListsChained <==> dev.bindlessTier != 0 && dev.mutableDescriptorType
  {
    ExpandedRangesMatchCount(s.ranges, dev.offsets, ignoreGlobal, dev.rayTracing);
    BindingCountAddsSamplers(s.ranges, |samplers|);
    var ranges := ExpandRanges(s.ranges, dev.offsets, ignoreGlobal, dev.rayTracing);
    var bindings := ranges + SamplerBindings(samplers, dev.offsets, ignoreGlobal);
    assert bindings[..|ranges|] == ranges;
    assert bindings[|bindings| - |samplers|..] == SamplerBindings(samplers, dev.offsets, ignoreGlobal);
    SetLayout(bindings,
              (if s.allowUpdateAfterSet then {UpdateAfterBindPool} else {}) + (if isPush then {PushDescriptor} else {}),
              dev.bindlessTier != 0,
              dev.bindlessTier != 0 && dev.mutableDescriptorType)
  }

  /** The push set's bindings are exactly the push-descriptor registers, in order. */
  lemma PushLayoutMatchesPushDescriptors(d: PipelineLayoutDesc, dev: Device)
    ensures var l := CreateSetLayout(RootSet(d), d.rootSamplers, dev, d.ignoreGlobalSpirvOffsets, true);
            var p := PushDescriptors(d, dev.offsets);
      && |l.bindings| == |p|
      && forall i :: 0 <= i < |p| ==> l.bindings[i].binding == p[i] && l.bindings[i].descriptorCount == 1
  {
    var root := RootSet(d);
    var ig := d.ignoreGlobalSpirvOffsets;
    var l := CreateSetLayout(root, d.rootSamplers, dev, ig, true);
    var ranges := ExpandRanges(root.ranges, dev.offsets, ig, dev.rayTracing);
    var samplers := SamplerBindings(d.rootSamplers, dev.offsets, ig);
    RootRangesExpandOneToOne(root.ranges, d.rootDescriptors, dev, ig);
    ExpandedRangesMatchCount(root.ranges, dev.offsets, ig, dev.rayTracing);
    BindingsOfTwoParts(l.bindings, ranges, samplers, PushDescriptors(d, dev.offsets));
  }

  /** A binding list made of two parts, each matching its part of a register list one
      register per binding, matches the whole list. */
  lemma BindingsOfTwoParts(bs: seq<LayoutBinding>, first: seq<LayoutBinding>, second: seq<LayoutBinding>, p: seq<nat>)
    requires |bs| == |first| + |second| == |p|
    requires bs[..|first|] == first && bs[|bs| - |second|..] == second
    requires forall i :: 0 <= i < |first| ==> first[i].binding == p[i] && first[i].descriptorCount == 1
    requires forall i :: 0 <= i < |second| ==> second[i].binding == p[|first| + i] && second[i].descriptorCount == 1
    ensures forall i :: 0 <= i < |p| ==> bs[i].binding == p[i] && bs[i].descriptorCount == 1
  {
    forall i | 0 <= i < |p|
      ensures bs[i].binding == p[i] && bs[i].descriptorCount == 1
    {
      if i < |first| {
        assert bs[..|first|][i] == bs[i];
      } else {
        assert bs[|bs| - |second|..][i - |first|] == bs[i];
      }
    }
  }

  /** Single-descriptor, flagless ranges expand into one binding each, at their shifted register. */
  lemma {:induction false} RootRangesExpandOneToOne(ranges: seq<DescriptorRange>, rds: seq<RootDescriptor>, dev: Device, ignoreGlobal: bool)
    requires |ranges| == |rds|
    requires forall i :: 0 <= i < |ranges| ==>
      && ranges[i].descriptorNum == 1 && ranges[i].flags == {}
      && ranges[i].baseRegisterIndex == rds[i].registerIndex && ranges[i].descriptorType == rds[i].descriptorType
    ensures var b := ExpandRanges(ranges, dev.offsets, ignoreGlobal, dev.rayTracing);
      && |b| == |ranges|
      && forall i :: 0 <= i < |b| ==>
        b[i].binding == Shift(rds[i].registerIndex, dev.offsets, ignoreGlobal, rds[i].descriptorType) && b[i].descriptorCount == 1
    decreases |ranges|
  {
    if |ranges| > 0 {
      assert forall i :: 0 <= i < |ranges| - 1 ==> ranges[1..][i] == ranges[i + 1] && rds[1..][i] == rds[i + 1];
      RootRangesExpandOneToOne(ranges[1..], rds[1..], dev, ignoreGlobal);
      var rest := ExpandRanges(ranges[1..], dev.offsets, ignoreGlobal, dev.rayTracing);
      var head := ExpandRange(ranges[0], dev.offsets, ignoreGlobal, dev.rayTracing);
      assert !IsArray(ranges[0]) && |head| == 1;
      var b := head + rest;
      assert b == ExpandRanges(ranges, dev.offsets, ignoreGlobal, dev.rayTracing);
      forall i | 0 <= i < |b|
        ensures b[i].binding == Shift(rds[i].registerIndex, dev.offsets, ignoreGlobal, rds[i].descriptorType) && b[i].descriptorCount == 1
      {
        if i > 0 {
          assert b[i] == rest[i - 1] && rds[1..][i - 1] == rds[i];
        }
      }
    }
  }

  // Register spaces

  /** The largest register space of `sets` (0 when there is none). */
  function MaxSpace(sets: seq<DescriptorSetDesc>): (m: nat)
    ensures forall i :: 0 <= i < |sets| ==> sets[i].registerSpace <= m
    ensures m == 0 || exists i :: 0 <= i < |sets| && sets[i].registerSpace == m
  {
    if |sets| == 0 then 0
    else
      var rest := MaxSpace(sets[1..]);
      assert forall i :: 1 <= i < |sets| ==> sets[i] == sets[1..][i - 1];
      Max(sets[0].registerSpace, rest)
  }

  /** The dense set count: one past the largest register space in use. */
  function SetNum(d: PipelineLayoutDesc): (n: nat)
    ensures n >= 1
    ensures forall i :: 0 <= i < |d.sets| ==> d.sets[i].registerSpace < n
    ensures HasRootSet(d) ==> d.rootRegisterSpace < n
  {
    (if HasRootSet(d) then Max(MaxSpace(d.sets), d.rootRegisterSpace) else MaxSpace(d.sets)) + 1
  }

  /** The slot count is tight: unless it is 1, its last slot is a used space. */
  lemma SetNumIsTight(d: PipelineLayoutDesc)
    ensures var n := SetNum(d);
      n == 1 || (exists i :: 0 <= i < |d.sets| && d.sets[i].registerSpace == n - 1) || (HasRootSet(d) && d.rootRegisterSpace == n - 1)
  {
  }

  /** The register spaces the sets declare. */
  function SpacesOf(sets: seq<DescriptorSetDesc>): (s: set<nat>)
    ensures forall x :: x in s <==> exists i :: 0 <= i < |sets| && sets[i].registerSpace == x
  {
    if |sets| == 0 then {}
    else
      var rest := SpacesOf(sets[..|sets| - 1]);
      assert forall i :: 0 <= i < |sets| - 1 ==> sets[..|sets| - 1][i] == sets[i];
      rest + {sets[|sets| - 1].registerSpace}
  }

  /** Every register space some set (or the push set) occupies. */
  function UsedSpaces(d: PipelineLayoutDesc): set<nat> {
    SpacesOf(d.sets) + (if HasRootSet(d) then {d.rootRegisterSpace} else {})
  }

  // Slot filling

  /** Index of the push set's layout, and of the shared empty layout, among the created layouts. */
  function RootLayoutIndex(d: PipelineLayoutDesc): nat {
    |d.sets|
  }

  function DummyLayoutIndex(d: PipelineLayoutDesc): nat {
    |d.sets| + (if HasRootSet(d) then 1 else 0)
  }

  /** Writes, in declaration order, the layout index of each of the first `n` sets into the
      slot of its register space; a later set in the same space overwrites an earlier one. */
  function PlaceSets(slots: seq<Option<nat>>, sets: seq<DescriptorSetDesc>, n: nat): (r: seq<Option<nat>>)
    requires n <= |sets|
    requires forall i :: 0 <= i < |sets| ==> sets[i].registerSpace < |slots|
    ensures |r| == |slots|
  {
    if n == 0 then slots else PlaceSets(slots, sets, n - 1)[sets[n - 1].registerSpace := Some(n - 1)]
  }

  /** A slot of a space some of the first `n` sets declare holds one of those sets; every
      other slot keeps its previous content. */
  lemma {:induction false} PlaceSetsFills(slots: seq<Option<nat>>, sets: seq<DescriptorSetDesc>, n: nat, k: nat)
    requires n <= |sets|
    requires forall i :: 0 <= i < |sets| ==> sets[i].registerSpace < |slots|
    requires k < |slots|
    ensures (exists i :: 0 <= i < n && sets[i].registerSpace == k) ==>
      && PlaceSets(slots, sets, n)[k].Some?
      && PlaceSets(slots, sets, n)[k].value < n
      && sets[PlaceSets(slots, sets, n)[k].value].registerSpace == k
    ensures (forall i :: 0 <= i < n ==> sets[i].registerSpace != k) ==> PlaceSets(slots, sets, n)[k] == slots[k]
    decreases n
  {
    if n > 0 {
      PlaceSetsFills(slots, sets, n - 1, k);
    }
  }

  /** The slot table for a given gap rule: when gaps are assumed every slot starts with the
      shared empty layout, otherwise slots start unwritten; then every set, and then the
      push set, writes its slot. */
  function SlotsWith(d: PipelineLayoutDesc, gaps: bool): (r: seq<Option<nat>>)
    ensures |r| == SetNum(d)
  {
    var n := SetNum(d);
    var initial := seq(n, _ => if gaps then Some(DummyLayoutIndex(d)) else None);
    var placed := PlaceSets(initial, d.sets, |d.sets|);
    if HasRootSet(d) then placed[d.rootRegisterSpace := Some(RootLayoutIndex(d))] else placed
  }

  /** The gap rule as written: gaps exist when there are more slots than declared sets. */
  predicate HasGapsAsWritten(d: PipelineLayoutDesc) {
    SetNum(d) > |d.sets| + (if HasRootSet(d) then 1 else 0)
  }

  /** The slot table as written. */
  function SlotsAsWritten(d: PipelineLayoutDesc): (r: seq<Option<nat>>)
    ensures |r| == SetNum(d)
  {
    SlotsWith(d, HasGapsAsWritten(d))
  }

  /** The corrected gap rule: gaps exist when some slot's register space is used by no set. */
  predicate HasGaps(d: PipelineLayoutDesc) {
    |UsedSpaces(d)| < SetNum(d)
  }

  function Slots(d: PipelineLayoutDesc): (r: seq<Option<nat>>)
    ensures |r| == SetNum(d)
  {
    SlotsWith(d, HasGaps(d))
  }


  /** The set {0, ..., n - 1}. */
  function Below(n: nat): (s: set<nat>)
    ensures forall x: nat :: x in s <==> x < n
    ensures |s| == n
  {
    if n == 0 then {} else Below(n - 1) + {n - 1}
  }

  lemma SubsetCardinality(a: set<nat>, b: set<nat>)
    requires a <= b
    ensures |a| <= |b|
  {
    assert b == a + (b - a);
  }

  /** A slot whose register space no set uses is a gap under the corrected rule. */
  lemma UnusedSpaceIsAGap(d: PipelineLayoutDesc, k: nat)
    requires k < SetNum(d) && k !in UsedSpaces(d)
    ensures HasGaps(d)
  {
    var rest := Below(SetNum(d)) - {k};
    assert |rest| == SetNum(d) - 1;
    assert UsedSpaces(d) <= rest;
    SubsetCardinality(UsedSpaces(d), rest);
  }

  /** What a slot holds under either rule: the push set's layout in the push set's space,
      otherwise a set declared in that space, otherwise the initial content. */
  lemma SlotContent(d: PipelineLayoutDesc, gaps: bool, k: nat)
    requires k < SetNum(d)
    ensures var slot := SlotsWith(d, gaps)[k];
      && (HasRootSet(d) && k == d.rootRegisterSpace ==> slot == Some(RootLayoutIndex(d)))
      && (!(HasRootSet(d) && k == d.rootRegisterSpace) && k in SpacesOf(d.sets) ==>
            slot.Some? && slot.value < |d.sets| && d.sets[slot.value].registerSpace == k)
      && (k !in UsedSpaces(d) ==> slot == (if gaps then Some(DummyLayoutIndex(d)) else None))
  {
    var initial := seq(SetNum(d), _ => if gaps then Some(DummyLayoutIndex(d)) else None);
    PlaceSetsFills(initial, d.sets, |d.sets|, k);
  }

  /** Under the corrected rule every slot holds a layout. */
  lemma SlotsAreAllFilled(d: PipelineLayoutDesc)
    ensures forall k :: 0 <= k < SetNum(d) ==> Slots(d)[k].Some?
  {
    forall k | 0 <= k < SetNum(d)
      ensures Slots(d)[k].Some?
    {
      SlotContent(d, HasGaps(d), k);
      if k !in UsedSpaces(d) {
        UnusedSpaceIsAGap(d, k);
      }
    }
  }

  /** Distinct register spaces count as many spaces as sets. */
  lemma {:induction false} DistinctSpacesCount(sets: seq<DescriptorSetDesc>)
    requires forall i, j :: 0 <= i < j < |sets| ==> sets[i].registerSpace != sets[j].registerSpace
    ensures |SpacesOf(sets)| == |sets|
    decreases |sets|
  {
    if |sets| > 0 {
      var prefix := sets[..|sets| - 1];
      DistinctSpacesCount(prefix);
      assert sets[|sets| - 1].registerSpace !in SpacesOf(prefix);
    }
  }

  /** When no two sets (nor the push set) share a register space, the rule as written and
      the corrected rule agree. */
  lemma GapRulesAgreeOnDistinctSpaces(d: PipelineLayoutDesc)
    requires forall i, j :: 0 <= i < j < |d.sets| ==> d.sets[i].registerSpace != d.sets[j].registerSpace
    requires HasRootSet(d) ==> d.rootRegisterSpace !in SpacesOf(d.sets)
    ensures HasGapsAsWritten(d) <==> HasGaps(d)
  {
    DistinctSpacesCount(d.sets);
  }

  /** Three sets in spaces 0, 0 and 2 and no push set: the rule as written sees no gap, so
      slot 1 is never written; the corrected rule fills it with the empty layout. */
  lemma DuplicateSpaceLeavesSlotUnwritten()
    ensures var empty := DescriptorSetDesc(0, [], false);
            var d := PipelineLayoutDesc([empty, empty, empty.(registerSpace := 2)], [], [], [], 0, false);
      && SetNum(d) == 3
      && !HasGapsAsWritten(d) && SlotsAsWritten(d)[1].None?
      && HasGaps(d) && Slots(d)[1] == Some(DummyLayoutIndex(d))
  {
    var empty := DescriptorSetDesc(0, [], false);
    var last := empty.(registerSpace := 2);
    var d := PipelineLayoutDesc([empty, empty, last], [], [], [], 0, false);
    assert d.sets[2].registerSpace == 2;
    assert MaxSpace(d.sets) >= 2;
    assert forall i :: 0 <= i < |d.sets| ==> d.sets[i].registerSpace <= 2;
    assert MaxSpace(d.sets) == 2;
    assert 1 !in UsedSpaces(d);
    SlotContent(d, false, 1);
    UnusedSpaceIsAGap(d, 1);
    SlotContent(d, true, 1);
  }

  // The pipeline layout

  /** A set as recorded in the binding info: its description and where its remapped ranges
      begin in the flattened range list. */
  datatype SetBinding = SetBinding(desc: DescriptorSetDesc, rangeStart: nat)

  datatype BindingInfo = BindingInfo(
    ranges: seq<DescriptorRange>,
    sets: seq<SetBinding>,
    pushConstants: seq<PushConstantRange>,
    pushDescriptors: seq<nat>,
    rootRegisterSpace: nat,
    rootSamplerBindingOffset: nat)

  /** A created pipeline layout: its binding info, the set layouts it created, the layout
      index placed in each register space's slot (None for a slot nothing wrote), and its
      push-constant ranges. */
  datatype PipelineLayout = PipelineLayout(
    bindingInfo: BindingInfo,
    setLayouts: seq<SetLayout>,
    slots: seq<Option<nat>>,
    pushConstantRanges: seq<PushConstantRange>)

  function EmptySetLayout(d: PipelineLayoutDesc, dev: Device): (l: SetLayout)
    ensures l.bindings == [] && l.flags == {}
  {
    CreateSetLayout(DescriptorSetDesc(0, [], false), [], dev, d.ignoreGlobalSpirvOffsets, false)
  }

  /** Declared layouts, then the optional push layout, then the optional empty layout. */
  function Assemble<T>(declared: seq<T>, push: Option<T>, dummy: Option<T>): (l: seq<T>)
    ensures |l| == |declared| + (if push.Some? then 1 else 0) + (if dummy.Some? then 1 else 0)
    ensures forall i :: 0 <= i < |declared| ==> l[i] == declared[i]
    ensures push.Some? ==> l[|declared|] == push.value
    ensures dummy.Some? ==> l[|l| - 1] == dummy.value
  {
    declared + (if push.Some? then [push.value] else []) + (if dummy.Some? then [dummy.value] else [])
  }

  /** The set layouts of the corrected creation: one per declared set, then the push set's,
      then one shared empty layout when some slot's register space is unused. */
  function SetLayouts(d: PipelineLayoutDesc, dev: Device): (l: seq<SetLayout>)
    ensures |l| == DummyLayoutIndex(d) + (if HasGaps(d) then 1 else 0)
    ensures forall i :: 0 <= i < |d.sets| ==> l[i] == CreateSetLayout(d.sets[i], [], dev, d.ignoreGlobalSpirvOffsets, false)
    ensures HasRootSet(d) ==> l[RootLayoutIndex(d)] == CreateSetLayout(RootSet(d), d.rootSamplers, dev, d.ignoreGlobalSpirvOffsets, true)
    ensures HasGaps(d) ==> l[DummyLayoutIndex(d)] == EmptySetLayout(d, dev)
  {
    LayoutsWith(d, dev, HasGaps(d))
  }

  function LayoutsWith(d: PipelineLayoutDesc, dev: Device, gaps: bool): (l: seq<SetLayout>)
    ensures |l| == DummyLayoutIndex(d) + (if gaps then 1 else 0)
    ensures forall i :: 0 <= i < |d.sets| ==> l[i] == CreateSetLayout(d.sets[i], [], dev, d.ignoreGlobalSpirvOffsets, false)
    ensures HasRootSet(d) ==> l[RootLayoutIndex(d)] == CreateSetLayout(RootSet(d), d.rootSamplers, dev, d.ignoreGlobalSpirvOffsets, true)
    ensures gaps ==> l[DummyLayoutIndex(d)] == EmptySetLayout(d, dev)
  {
    var declared := seq(|d.sets|, i requires 0 <= i < |d.sets| => CreateSetLayout(d.sets[i], [], dev, d.ignoreGlobalSpirvOffsets, false));
    var push := if HasRootSet(d) then Some(CreateSetLayout(RootSet(d), d.rootSamplers, dev, d.ignoreGlobalSpirvOffsets, true)) else None;
    var dummy := if gaps then Some(EmptySetLayout(d, dev)) else None;
    Assemble(declared, push, dummy)
  }

  /** The layout index in each register space's slot: the push set's layout in its space,
      otherwise a set declared in that space (the last one declared), otherwise the shared
      empty layout. */
  function SlotIndices(d: PipelineLayoutDesc): (s: seq<nat>)
    ensures |s| == SetNum(d)
    ensures forall k :: 0 <= k < |s| ==> Slots(d)[k] == Some(s[k])
  {
    SlotsAreAllFilled(d);
    var t := Slots(d);
    seq(|t|, k requires 0 <= k < |t| => t[k].value)
  }

  /** Which layout a slot names: the push set's in the push set's space, a set declared in
      that space in any other used space, and the empty layout in a space nobody uses. */
  lemma SlotOwner(d: PipelineLayoutDesc, k: nat)
    requires k < SetNum(d)
    ensures var s := SlotIndices(d)[k];
      && (s < DummyLayoutIndex(d) || (HasGaps(d) && s == DummyLayoutIndex(d)))
      && (HasRootSet(d) && k == d.rootRegisterSpace ==> s == RootLayoutIndex(d))
      && (k in SpacesOf(d.sets) && !(HasRootSet(d) && k == d.rootRegisterSpace) ==> s < |d.sets| && d.sets[s].registerSpace == k)
      && (k !in UsedSpaces(d) ==> s == DummyLayoutIndex(d))
  {
    SlotContent(d, HasGaps(d), k);
    if k !in UsedSpaces(d) {
      UnusedSpaceIsAGap(d, k);
    }
  }

  /** What the binding info records about a description: every set with the start of its
      remapped ranges in the flattened list, the push-constant ranges laid back to back,
      and the push-descriptor registers. */
  predicate DescribesLayout(info: BindingInfo, d: PipelineLayoutDesc, dev: Device) {
    && DescribesSets(info.ranges, info.sets, d.sets, dev.offsets, d.ignoreGlobalSpirvOffsets)
    && DescribesPushConstants(info.pushConstants, d.rootConstants)
    && info.pushDescriptors == PushDescriptors(d, dev.offsets)
    && info.rootRegisterSpace == d.rootRegisterSpace
    && info.rootSamplerBindingOffset == |d.rootDescriptors|
  }

  predicate DescribesSets(ranges: seq<DescriptorRange>, bindings: seq<SetBinding>, sets: seq<DescriptorSetDesc>, o: BindingOffsets, ignoreGlobal: bool) {
    && |bindings| == |sets| && |ranges| == RangeCount(sets)
    && (forall i :: 0 <= i < |sets| ==> bindings[i] == SetBinding(sets[i], RangeStart(sets, i)))
    && (forall i :: 0 <= i < |sets| ==>
          RangeStart(sets, i) + |sets[i].ranges| <= |ranges|
          && ranges[RangeStart(sets, i)..RangeStart(sets, i) + |sets[i].ranges|] == RemapAll(sets[i].ranges, o, ignoreGlobal))
  }

  predicate DescribesPushConstants(r: seq<PushConstantRange>, cs: seq<RootConstant>) {
    && |r| == |cs|
    && (forall i :: 0 <= i < |cs| ==> r[i] == PushConstantRange(cs[i].shaderStages, SizeSum(cs[..i]), cs[i].size))
  }

  /** Pairs each set with the start of its ranges. */
  function SetBindings(sets: seq<DescriptorSetDesc>, starts: seq<nat>): (b: seq<SetBinding>)
    requires |starts| == |sets|
    ensures |b| == |sets|
    ensures forall i :: 0 <= i < |sets| ==> b[i] == SetBinding(sets[i], starts[i])
  {
    seq(|sets|, i requires 0 <= i < |sets| => SetBinding(sets[i], starts[i]))
  }

  /** The flattened ranges, with each set recorded at the start of its ranges, describe the sets. */
  lemma FlattenedSetsAreDescribed(sets: seq<DescriptorSetDesc>, o: BindingOffsets, ignoreGlobal: bool, starts: seq<nat>)
    requires |starts| == |sets| && forall i :: 0 <= i < |sets| ==> starts[i] == RangeStart(sets, i)
    ensures DescribesSets(Flat(sets, o, ignoreGlobal), SetBindings(sets, starts), sets, o, ignoreGlobal)
  {
    forall i | 0 <= i < |sets|
      ensures RangeStart(sets, i) + |sets[i].ranges| <= |Flat(sets, o, ignoreGlobal)|
      ensures Flat(sets, o, ignoreGlobal)[RangeStart(sets, i)..RangeStart(sets, i) + |sets[i].ranges|] == RemapAll(sets[i].ranges, o, ignoreGlobal)
    {
      FlatWindow(sets, |sets|, o, ignoreGlobal, i);
    }
  }

  /** Gathers the binding info of a description. */
  method BuildBindingInfo(d: PipelineLayoutDesc, dev: Device) returns (info: BindingInfo)
    ensures DescribesLayout(info, d, dev)
  {
    var ranges, starts := FlattenRanges(d.sets, dev.offsets, d.ignoreGlobalSpirvOffsets);
    var pushConstants := PushConstantRanges(d.rootConstants);
    var sets := SetBindings(d.sets, starts);
    FlattenedSetsAreDescribed(d.sets, dev.offsets, d.ignoreGlobalSpirvOffsets, starts);
    assert DescribesPushConstants(pushConstants, d.rootConstants);
    info := BindingInfo(ranges, sets, pushConstants, PushDescriptors(d, dev.offsets), d.rootRegisterSpace, |d.rootDescriptors|);
  }

  /** Compiles a pipeline layout as written; `call` is the status of vkCreatePipelineLayout.
      The empty layout is created, and every slot starts with it, only under the gap rule
      as written; a slot no set wrote is then left unwritten. */
  method Create(d: PipelineLayoutDesc, dev: Device, call: Status) returns (r: Outcome<PipelineLayout>)
    ensures call != Success ==> r == Err(call)
    ensures call == Success ==> r.Ok?
    ensures r.Ok? ==>
      && DescribesLayout(r.value.bindingInfo, d, dev)
      && r.value.setLayouts == LayoutsWith(d, dev, HasGapsAsWritten(d))
      && r.value.slots == SlotsAsWritten(d)
      && r.value.pushConstantRanges == r.value.bindingInfo.pushConstants
  {
    var info := BuildBindingInfo(d, dev);
    if call != Success {
      return Err(call);
    }
    r := Ok(PipelineLayout(info, LayoutsWith(d, dev, HasGapsAsWritten(d)), SlotsAsWritten(d), info.pushConstants));
  }

  /** Compiles a pipeline layout with the corrected gap rule: every slot names a layout. */
  method CreateCorrected(d: PipelineLayoutDesc, dev: Device, call: Status) returns (r: Outcome<PipelineLayout>)
    ensures call != Success ==> r == Err(call)
    ensures call == Success ==> r.Ok?
    ensures r.Ok? ==>
      && DescribesLayout(r.value.bindingInfo, d, dev)
      && r.value.setLayouts == SetLayouts(d, dev)
      && r.value.slots == Slots(d)
      && (forall k :: 0 <= k < SetNum(d) ==> r.value.slots[k] == Some(SlotIndices(d)[k]))
      && r.value.pushConstantRanges == r.value.bindingInfo.pushConstants
  {
    var info := BuildBindingInfo(d, dev);
    if call != Success {
      return Err(call);
    }
    r := Ok(PipelineLayout(info, SetLayouts(d, dev), Slots(d), info.pushConstants));
  }

  /** In a layout compiled as written, a slot whose space some set (or the push set) uses
      names a created layout of that space, a written slot always names a created layout,
      and an unused space is written exactly when the rule as written sees a gap. */
  lemma WrittenSlotsNameCreatedLayouts(d: PipelineLayoutDesc, dev: Device, k: nat)
    requires k < SetNum(d)
    ensures var slot := SlotsAsWritten(d)[k];
      && (k in UsedSpaces(d) ==> slot.Some?)
      && (k !in UsedSpaces(d) ==> (slot.Some? <==> HasGapsAsWritten(d)))
      && (slot.Some? ==> slot.value < |LayoutsWith(d, dev, HasGapsAsWritten(d))|)
      && (k !in UsedSpaces(d) && slot.Some? ==>
            LayoutsWith(d, dev, HasGapsAsWritten(d))[slot.value] == EmptySetLayout(d, dev))
  {
    SlotContent(d, HasGapsAsWritten(d), k);
  }

  /** When no two sets (nor the push set) share a register space, the creation as written
      and the corrected creation make the same layouts and fill the same slots. */
  lemma CreationsAgreeOnDistinctSpaces(d: PipelineLayoutDesc, dev: Device)
    requires forall i, j :: 0 <= i < j < |d.sets| ==> d.sets[i].registerSpace != d.sets[j].registerSpace
    requires HasRootSet(d) ==> d.rootRegisterSpace !in SpacesOf(d.sets)
    ensures LayoutsWith(d, dev, HasGapsAsWritten(d)) == SetLayouts(d, dev)
    ensures SlotsAsWritten(d) == Slots(d)
  {
    GapRulesAgreeOnDistinctSpaces(d);
  }

  /** Every slot of a layout compiled with the corrected rule names one of its set
      layouts, and a slot no set uses names the empty layout. */
  lemma SlotsNameCreatedLayouts(d: PipelineLayoutDesc, dev: Device, k: nat)
    requires k < SetNum(d)
    ensures SlotIndices(d)[k] < |SetLayouts(d, dev)|
    ensures k !in UsedSpaces(d) ==> SetLayouts(d, dev)[SlotIndices(d)[k]] == EmptySetLayout(d, dev)
  {
    SlotOwner(d, k);
    if k !in UsedSpaces(d) {
      UnusedSpaceIsAGap(d, k);
    }
  }
}
