/** `DescriptorSetData`: what the amber-scoop layer remembers of the buffer
    descriptors written into one descriptor set. A write that covers more
    descriptors than its first binding has left spills over into the next
    bindings, as section "Descriptor Set Updates" of the Vulkan
    specification's "Resource Descriptors" chapter prescribes. */
module DescriptorSetData {
  import opened Wrappers

  type Handle = nat

  /** `VkDescriptorType`. */
  datatype DescriptorType =
    | Sampler | CombinedImageSampler | SampledImage | StorageImage | InputAttachment
    | UniformTexelBuffer | StorageTexelBuffer
    | UniformBuffer | StorageBuffer | UniformBufferDynamic | StorageBufferDynamic
    | InlineUniformBlock | AccelerationStructure
    | MaxEnum

  /** `FlattenedDescriptorType`: which array of a `VkWriteDescriptorSet` a
      write of that type reads. */
  datatype FlattenedDescriptorType = ImageSampler | Buffer | TexelBuffer | Unsupported

  /** The Vulkan rule for `VkWriteDescriptorSet`: these types take their
      descriptors from `pImageInfo` ... */
  predicate ReadsImageInfo(t: DescriptorType) {
    t.Sampler? || t.CombinedImageSampler? || t.SampledImage? || t.StorageImage? || t.InputAttachment?
  }

  /** ... these from `pTexelBufferView` ... */
  predicate ReadsTexelBufferView(t: DescriptorType) {
    t.UniformTexelBuffer? || t.StorageTexelBuffer?
  }

  /** ... and these from `pBufferInfo`. */
  predicate ReadsBufferInfo(t: DescriptorType) {
    t.UniformBuffer? || t.StorageBuffer? || t.UniformBufferDynamic? || t.StorageBufferDynamic?
  }

  /** `GetFlattenedDescriptorType`. `VK_DESCRIPTOR_TYPE_MAX_ENUM` is not a
      descriptor type; the layer aborts on it. The types that read none of
      the three arrays are unsupported. */
  function GetFlattenedDescriptorType(t: DescriptorType): (r: Result<FlattenedDescriptorType>)
    ensures r.Err? <==> t == MaxEnum
    ensures r == Ok(ImageSampler) <==> ReadsImageInfo(t)
    ensures r == Ok(TexelBuffer) <==> ReadsTexelBufferView(t)
    ensures r == Ok(Buffer) <==> ReadsBufferInfo(t)
    ensures r == Ok(Unsupported) <==> t != MaxEnum && !ReadsImageInfo(t) && !ReadsTexelBufferView(t) && !ReadsBufferInfo(t)
  {
    match t
    case Sampler | CombinedImageSampler | SampledImage | StorageImage | InputAttachment => Ok(ImageSampler)
    case UniformTexelBuffer | StorageTexelBuffer => Ok(TexelBuffer)
    case UniformBuffer | StorageBuffer | UniformBufferDynamic | StorageBufferDynamic => Ok(Buffer)
    case InlineUniformBlock | AccelerationStructure => Ok(Unsupported)
    case MaxEnum => Err("Should be unreachable.")
  }

  /** `VkDescriptorSetLayoutBinding`, as far as the layer reads it. */
  datatype LayoutBinding = LayoutBinding(descriptorType: DescriptorType, descriptorCount: nat)

  /** `VkDescriptorBufferInfo`; the default value is all zeros. */
  datatype BufferInfo = BufferInfo(buffer: Handle, offset: nat, range: nat)

  const DefaultBufferInfo := BufferInfo(0, 0, 0)

  /** `VkWriteDescriptorSet`, as far as the layer reads it. */
  datatype WriteDescriptorSet = WriteDescriptorSet(
    dstBinding: nat, dstArrayElement: nat, descriptorCount: nat,
    descriptorType: DescriptorType, bufferInfo: seq<BufferInfo>)

  predicate IsBufferBinding(binding: LayoutBinding) {
    GetFlattenedDescriptorType(binding.descriptorType) == Ok(Buffer)
  }

  /** The `descriptorCount` of every binding, in binding order. */
  function Counts(layout: seq<LayoutBinding>): (counts: seq<nat>)
    ensures |counts| == |layout|
    ensures forall b :: 0 <= b < |layout| ==> counts[b] == layout[b].descriptorCount
  {
    seq(|layout|, b requires 0 <= b < |layout| => layout[b].descriptorCount)
  }

  /** A descriptor slot: a binding and an array element of it. */
  type Slot = (nat, nat)

  /** The `n` slots a write starting at binding `b`, element `e` fills, as
      the layer's loop visits them: before each descriptor, bindings with no
      elements left are skipped. `None` when the walk runs past the last
      binding. */
  function Positions(counts: seq<nat>, b: nat, e: nat, n: nat): (r: Option<seq<Slot>>)
    ensures r.Some? ==> |r.value| == n
    decreases n, |counts| - b
  {
    if n == 0 then Some([])
    else if b >= |counts| then None
    else if e >= counts[b] then Positions(counts, b + 1, 0, n)
    else
      match Positions(counts, b, e + 1, n - 1)
      case Some(rest) => Some([(b, e)] + rest)
      case None => None
  }

  /** Every slot of bindings `b`, `b + 1`, ... in binding-then-element order:
      the order in which a write spills over. */
  function SlotsFrom(counts: seq<nat>, b: nat): (slots: seq<Slot>)
    ensures forall k :: 0 <= k < |slots| ==> b <= slots[k].0 < |counts| && slots[k].1 < counts[slots[k].0]
    decreases |counts| - b
  {
    if b >= |counts| then []
    else seq(counts[b], e requires 0 <= e < counts[b] => (b, e)) + SlotsFrom(counts, b + 1)
  }

  /** The spill-over rule: a write of `n` descriptors starting at element
      `e <= counts[b]` of binding `b` fills the `n` slots that follow it in
      binding-then-element order, skipping bindings with no elements. */
  lemma {:induction false} PositionsAreSlotRun(counts: seq<nat>, b: nat, e: nat, n: nat)
    requires b < |counts| && e <= counts[b] && e + n <= |SlotsFrom(counts, b)|
    ensures Positions(counts, b, e, n) == Some(SlotsFrom(counts, b)[e..e + n])
    decreases n, |counts| - b
  {
    var slots := SlotsFrom(counts, b);
    var block := seq(counts[b], k requires 0 <= k < counts[b] => (b, k));
    assert slots == block + SlotsFrom(counts, b + 1);
    if n == 0 {
      assert slots[e..e + n] == [];
    } else if e >= counts[b] {
      assert b + 1 < |counts| && e == |block|;
      PositionsAreSlotRun(counts, b + 1, 0, n);
      SliceAfter(block, SlotsFrom(counts, b + 1), n);
    } else {
      PositionsAreSlotRun(counts, b, e + 1, n - 1);
      assert slots[e..e + n] == [(b, e)] + slots[e + 1..e + n];
    }
  }

  lemma SliceAfter<T>(a: seq<T>, b: seq<T>, n: nat)
    requires n <= |b|
    ensures (a + b)[|a|..|a| + n] == b[0..n]
  {
    assert forall k :: 0 <= k < n ==> (a + b)[|a|..|a| + n][k] == b[k];
  }

  /** One step of the walk: from a slot inside its binding, the first slot
      filled is that slot and the rest continue from the next element. */
  lemma PositionsStep(counts: seq<nat>, b: nat, e: nat, n: nat)
    requires 0 < n && b < |counts| && e < counts[b] && Positions(counts, b, e, n).Some?
    ensures Positions(counts, b, e, n).value[0] == (b, e)
    ensures Positions(counts, b, e + 1, n - 1) == Some(Positions(counts, b, e, n).value[1..])
  {
  }

  /** Before each descriptor the layer's loop moves past the bindings whose
      elements are used up; the walk's remaining slots stay the same. */
  method SkipExhausted(counts: seq<nat>, b: nat, e: nat, n: nat) returns (b': nat, e': nat)
    requires 0 < n && Positions(counts, b, e, n).Some?
    ensures b' < |counts| && e' < counts[b']
    ensures Positions(counts, b', e', n) == Positions(counts, b, e, n)
  {
    b', e' := b, e;
    while e' >= counts[b']
      invariant b' < |counts| && Positions(counts, b', e', n) == Positions(counts, b, e, n)
      decreases |counts| - b'
    {
      b', e' := b' + 1, 0;
    }
  }

  /** The layer's loop over a buffer write's descriptors, on the map of
      buffer bindings: the `i`-th descriptor goes to the `i`-th slot of the
      walk from binding `b`, element `e`. */
  method StoreDescriptors(bindings: map<nat, seq<BufferInfo>>, counts: seq<nat>, b: nat, e: nat, n: nat, infos: seq<BufferInfo>)
    returns (r: map<nat, seq<BufferInfo>>)
    requires Positions(counts, b, e, n).Some? && n <= |infos| && SlotsIn(bindings, Positions(counts, b, e, n).value)
    ensures r == Written(bindings, Positions(counts, b, e, n).value, infos)
  {
    ghost var ps := Positions(counts, b, e, n).value;
    r := bindings;
    var bindingIdx: nat := b;
    var arrayElement: nat := e;
    var descriptorReadIdx: nat := 0;
    while descriptorReadIdx < n
      invariant 0 <= descriptorReadIdx <= n
      invariant Positions(counts, bindingIdx, arrayElement, n - descriptorReadIdx) == Some(ps[descriptorReadIdx..])
      invariant SlotsIn(bindings, ps[..descriptorReadIdx])
      invariant r == Written(bindings, ps[..descriptorReadIdx], infos)
    {
      bindingIdx, arrayElement := SkipExhausted(counts, bindingIdx, arrayElement, n - descriptorReadIdx);
      WriteSlot(bindings, ps, descriptorReadIdx, counts, bindingIdx, arrayElement, infos);
      r := r[bindingIdx := r[bindingIdx][arrayElement := infos[descriptorReadIdx]]];
      arrayElement := arrayElement + 1;
      descriptorReadIdx := descriptorReadIdx + 1;
    }
    assert ps[..descriptorReadIdx] == ps;
  }

  /** Storing the `i`-th descriptor of a walk at its slot `(b, e)`: the
      bindings after it are those after the first `i + 1` slots. */
  lemma WriteSlot(bindings: map<nat, seq<BufferInfo>>, ps: seq<Slot>, i: nat, counts: seq<nat>, b: nat, e: nat, infos: seq<BufferInfo>)
    requires i < |ps| <= |infos| && SlotsIn(bindings, ps)
    requires b < |counts| && e < counts[b] && Positions(counts, b, e, |ps| - i) == Some(ps[i..])
    ensures Positions(counts, b, e + 1, |ps| - i - 1) == Some(ps[i + 1..])
    ensures SlotsIn(bindings, ps[..i]) && SlotsIn(bindings, ps[..i + 1])
    ensures var prev := Written(bindings, ps[..i], infos);
      && b in prev && e < |prev[b]|
      && Written(bindings, ps[..i + 1], infos) == prev[b := prev[b][e := infos[i]]]
  {
    PositionsStep(counts, b, e, |ps| - i);
    assert ps[i..][1..] == ps[i + 1..];
    assert ps[i] == ps[i..][0] == (b, e);
    WrittenStep(bindings, ps, i, infos);
  }

  /** `p` comes strictly before `q` in binding-then-element order. */
  predicate Before(p: Slot, q: Slot) {
    p.0 < q.0 || (p.0 == q.0 && p.1 < q.1)
  }

  /** The slots a write fills are in increasing order, from the start slot on,
      so no slot is written twice. */
  lemma {:induction false} PositionsIncrease(counts: seq<nat>, b: nat, e: nat, n: nat)
    requires Positions(counts, b, e, n).Some?
    ensures var ps := Positions(counts, b, e, n).value;
      && (forall k :: 0 <= k < |ps| ==> !Before(ps[k], (b, e)))
      && (forall i, j :: 0 <= i < j < |ps| ==> Before(ps[i], ps[j]))
      && (forall k :: 0 <= k < |ps| ==> ps[k].0 < |counts| && ps[k].1 < counts[ps[k].0])
    decreases n, |counts| - b
  {
    if n == 0 {
    } else if e >= counts[b] {
      PositionsIncrease(counts, b + 1, 0, n);
    } else {
      PositionsIncrease(counts, b, e + 1, n - 1);
    }
  }

  /** Every slot names an existing element of a binding. */
  predicate SlotsIn(bindings: map<nat, seq<BufferInfo>>, slots: seq<Slot>) {
    forall k :: 0 <= k < |slots| ==> slots[k].0 in bindings && slots[k].1 < |bindings[slots[k].0]|
  }

  /** The buffer bindings after the descriptors `infos` were stored at
      `slots`, one by one. */
  function Written(bindings: map<nat, seq<BufferInfo>>, slots: seq<Slot>, infos: seq<BufferInfo>): (r: map<nat, seq<BufferInfo>>)
    requires |slots| <= |infos| && SlotsIn(bindings, slots)
    ensures r.Keys == bindings.Keys && forall b :: b in r ==> |r[b]| == |bindings[b]|
    decreases |slots|
  {
    if |slots| == 0 then bindings
    else
      assert SlotsIn(bindings, slots[..|slots| - 1]);
      var prev := Written(bindings, slots[..|slots| - 1], infos);
      var (b, e) := slots[|slots| - 1];
      prev[b := prev[b][e := infos[|slots| - 1]]]
  }

  /** Storing one more descriptor after a prefix of the slots. */
  lemma WrittenStep(bindings: map<nat, seq<BufferInfo>>, slots: seq<Slot>, i: nat, infos: seq<BufferInfo>)
    requires i < |slots| <= |infos| && SlotsIn(bindings, slots)
    ensures SlotsIn(bindings, slots[..i]) && SlotsIn(bindings, slots[..i + 1])
    ensures var prev := Written(bindings, slots[..i], infos);
      Written(bindings, slots[..i + 1], infos) == prev[slots[i].0 := prev[slots[i].0][slots[i].1 := infos[i]]]
  {
    assert slots[..i + 1][..i] == slots[..i];
  }

  /** When no slot repeats, each written slot holds its descriptor and every
      other slot keeps its value. */
  lemma {:induction false} WrittenSlots(bindings: map<nat, seq<BufferInfo>>, slots: seq<Slot>, infos: seq<BufferInfo>)
    requires |slots| <= |infos| && SlotsIn(bindings, slots)
    requires forall i, j :: 0 <= i < j < |slots| ==> slots[i] != slots[j]
    ensures var r := Written(bindings, slots, infos);
      && (forall k :: 0 <= k < |slots| ==> r[slots[k].0][slots[k].1] == infos[k])
      && (forall b, e :: b in bindings && 0 <= e < |bindings[b]| && (b, e) !in slots ==> r[b][e] == bindings[b][e])
    decreases |slots|
  {
    if |slots| > 0 {
      var init := slots[..|slots| - 1];
      WrittenSlots(bindings, init, infos);
      forall b, e | b in bindings && 0 <= e < |bindings[b]| && (b, e) !in slots
        ensures Written(bindings, slots, infos)[b][e] == bindings[b][e]
      {
        assert (b, e) !in init;
      }
    }
  }

  class DescriptorSetData {
    /** The bindings of the layout the set was allocated with, in
        `pBindings` order; a binding's number is its position. */
    const layout: seq<LayoutBinding>
    /** `descriptor_buffer_bindings_`. */
    var bufferBindings: map<nat, seq<BufferInfo>>

    /** Exactly the buffer bindings have a vector, sized to the binding. */
    ghost predicate Valid()
      reads this
    {
      && (forall b :: b in bufferBindings <==> 0 <= b < |layout| && IsBufferBinding(layout[b]))
      && (forall b :: b in bufferBindings ==> |bufferBindings[b]| == layout[b].descriptorCount)
    }

    /** The constructor gives each buffer binding `descriptorCount` default
        descriptors; the other kinds are only debug assertions. No binding
        of a valid layout has the type `MAX_ENUM`. */
    constructor (layout: seq<LayoutBinding>)
      requires forall b :: 0 <= b < |layout| ==> layout[b].descriptorType != MaxEnum
      ensures this.layout == layout && Valid()
      ensures forall b :: b in bufferBindings ==> forall e :: 0 <= e < |bufferBindings[b]| ==> bufferBindings[b][e] == DefaultBufferInfo
    {
      this.layout := layout;
      var bindings: map<nat, seq<BufferInfo>> := map[];
      var bindingNumber := 0;
      while bindingNumber < |layout|
        invariant 0 <= bindingNumber <= |layout|
        invariant forall b :: b in bindings <==> 0 <= b < bindingNumber && IsBufferBinding(layout[b])
        invariant forall b :: b in bindings ==> bindings[b] == seq(layout[b].descriptorCount, _ => DefaultBufferInfo)
      {
        var binding := layout[bindingNumber];
        if GetFlattenedDescriptorType(binding.descriptorType) == Ok(Buffer) {
          bindings := bindings[bindingNumber := seq(binding.descriptorCount, _ => DefaultBufferInfo)];
        }
        bindingNumber := bindingNumber + 1;
      }
      bufferBindings := bindings;
    }

    /** Whether the layer's loop can carry out a buffer write: the walk over
        the bindings stays inside the layout (a debug assertion), every
        binding it reaches is a buffer binding (the Vulkan rule that
        consecutive bindings updated together have the same type), and
        `pBufferInfo` has `descriptorCount` entries. */
    ghost predicate BufferWriteFits(w: WriteDescriptorSet)
      reads this
    {
      var ps := Positions(Counts(layout), w.dstBinding, w.dstArrayElement, w.descriptorCount);
      && ps.Some?
      && |w.bufferInfo| >= w.descriptorCount
      && forall k :: 0 <= k < |ps.value| ==> ps.value[k].0 < |layout| && IsBufferBinding(layout[ps.value[k].0])
    }

    /** `WriteDescriptorSet`. A buffer write stores `pBufferInfo[i]` in the
        `i`-th slot of the spill-over walk; an image-or-sampler or texel
        buffer write aborts; an unsupported one changes nothing. The write's
        type agrees with its binding's (a debug assertion). */
    method WriteDescriptorSet(w: WriteDescriptorSet) returns (r: Result<()>)
      requires Valid()
      requires w.dstBinding < |layout| && layout[w.dstBinding].descriptorType == w.descriptorType
      requires GetFlattenedDescriptorType(w.descriptorType) == Ok(Buffer) ==> BufferWriteFits(w)
      modifies this
      ensures Valid()
      ensures r.Err? <==> GetFlattenedDescriptorType(w.descriptorType) !in {Ok(Buffer), Ok(Unsupported)}
      ensures GetFlattenedDescriptorType(w.descriptorType) != Ok(Buffer) ==> bufferBindings == old(bufferBindings)
      ensures GetFlattenedDescriptorType(w.descriptorType) == Ok(Buffer) ==>
        var ps := Positions(Counts(layout), w.dstBinding, w.dstArrayElement, w.descriptorCount).value;
        && SlotsIn(old(bufferBindings), ps)
        && bufferBindings == Written(old(bufferBindings), ps, w.bufferInfo)
    {
      match GetFlattenedDescriptorType(w.descriptorType)
      case Ok(ImageSampler) =>
        return Err("Images and samplers are not implemented.");
      case Ok(TexelBuffer) =>
        return Err("Uniform / storage texel buffers are not implemented.");
      case Ok(Unsupported) =>
        return Ok(());
      case Err(reason) =>
        return Err(reason);
      case Ok(Buffer) =>
        r := Ok(());
        WriteBuffers(w);
    }

    /** A write that fits names only existing elements of buffer bindings. */
    lemma FitsInBindings(w: WriteDescriptorSet)
      requires Valid() && BufferWriteFits(w)
      ensures var ps := Positions(Counts(layout), w.dstBinding, w.dstArrayElement, w.descriptorCount).value;
        SlotsIn(bufferBindings, ps) && |ps| <= |w.bufferInfo|
    {
      PositionsIncrease(Counts(layout), w.dstBinding, w.dstArrayElement, w.descriptorCount);
    }

    /** The `BUFFER` case of `WriteDescriptorSet`: the walk over the slots. */
    method WriteBuffers(w: WriteDescriptorSet)
      requires Valid() && BufferWriteFits(w)
      modifies this
      ensures Valid()
      ensures
        var ps := Positions(Counts(layout), w.dstBinding, w.dstArrayElement, w.descriptorCount).value;
        && SlotsIn(old(bufferBindings), ps)
        && bufferBindings == Written(old(bufferBindings), ps, w.bufferInfo)
    {
      FitsInBindings(w);
      bufferBindings := StoreDescriptors(bufferBindings, Counts(layout), w.dstBinding, w.dstArrayElement, w.descriptorCount, w.bufferInfo);
    }
  }

  /** What a buffer write leaves behind: the `i`-th descriptor of
      `pBufferInfo` sits in the `i`-th slot after the start, in
      binding-then-element order, and every other slot is unchanged. */
  lemma BufferWriteEffect(layout: seq<LayoutBinding>, before: map<nat, seq<BufferInfo>>, w: WriteDescriptorSet)
    requires w.dstBinding < |layout| && w.dstArrayElement <= layout[w.dstBinding].descriptorCount
    requires |w.bufferInfo| >= w.descriptorCount
    requires w.dstArrayElement + w.descriptorCount <= |SlotsFrom(Counts(layout), w.dstBinding)|
    requires forall b :: b in before <==> 0 <= b < |layout| && IsBufferBinding(layout[b])
    requires forall b :: b in before ==> |before[b]| == layout[b].descriptorCount
    requires forall b :: w.dstBinding <= b < |layout| ==> IsBufferBinding(layout[b])
    ensures var slots := SlotsFrom(Counts(layout), w.dstBinding)[w.dstArrayElement..w.dstArrayElement + w.descriptorCount];
      && Positions(Counts(layout), w.dstBinding, w.dstArrayElement, w.descriptorCount) == Some(slots)
      && SlotsIn(before, slots)
      && var after := Written(before, slots, w.bufferInfo);
         && (forall k :: 0 <= k < w.descriptorCount ==> after[slots[k].0][slots[k].1] == w.bufferInfo[k])
         && (forall b, e :: b in before && 0 <= e < |before[b]| && (b, e) !in slots ==> after[b][e] == before[b][e])
  {
    var counts := Counts(layout);
    PositionsAreSlotRun(counts, w.dstBinding, w.dstArrayElement, w.descriptorCount);
    PositionsIncrease(counts, w.dstBinding, w.dstArrayElement, w.descriptorCount);
    var slots := SlotsFrom(counts, w.dstBinding)[w.dstArrayElement..w.dstArrayElement + w.descriptorCount];
    forall i, j | 0 <= i < j < |slots|
      ensures slots[i] != slots[j]
    {
      assert Before(slots[i], slots[j]);
    }
    WrittenSlots(before, slots, w.bufferInfo);
  }
}
