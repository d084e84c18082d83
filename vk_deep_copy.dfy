/** `CopyArray` from the deep-copy helpers of the amber-scoop layer: a fresh
    heap array filled element by element from a caller's array, or null for a
    null source. */
module VkDeepCopy {

  /** The element indices the source's loop reads from `p_data` and writes into
      the result when it is given `offset`: it runs `i` over
      `0 .. num_elements - 1`, reading `i + offset` and writing `i`, into a
      result of `num_elements - offset` elements. The predicate says whether all
      of those accesses stay inside the two arrays. */
  predicate AsWrittenAccessesInBounds(sourceLength: nat, numElements: nat, offset: nat)
  {
    offset <= numElements
    && forall i :: 0 <= i < numElements ==> IterationInBounds(i, sourceLength, numElements, offset)
  }

  /** Iteration `i` writes `result[i]` and reads `p_data[i + offset]`. */
  predicate IterationInBounds(i: nat, sourceLength: nat, numElements: nat, offset: nat)
    requires offset <= numElements
  {
    i < numElements - offset && i + offset < sourceLength
  }

  /** With a zero offset, the only form the layer calls, the loop stays in
      bounds whenever the source has `num_elements` elements. */
  lemma AsWrittenZeroOffsetInBounds(sourceLength: nat, numElements: nat)
    requires numElements <= sourceLength
    ensures AsWrittenAccessesInBounds(sourceLength, numElements, 0)
  {
  }

  /** With any positive offset the loop's last iteration writes one element
      past the end of the `num_elements - offset` result, whatever the
      length of the source. */
  lemma AsWrittenOffsetOverruns(sourceLength: nat, numElements: nat, offset: nat)
    requires 0 < offset <= numElements
    ensures !AsWrittenAccessesInBounds(sourceLength, numElements, offset)
  {
    assert !IterationInBounds(numElements - 1, sourceLength, numElements, offset);
  }

  /** `CopyArray(p_data, num_elements, offset)` as the header comment
      documents it and as the loop already copies: a result of
      `num_elements` elements, element `i` taken from `p_data[i + offset]`.
      Only the allocation size differs from the code. A null source gives a
      null result. */
  method CopyArray<T(0)>(source: array?<T>, numElements: nat, offset: nat) returns (r: array?<T>)
    requires source != null ==> offset + numElements <= source.Length
    ensures (r == null) <==> (source == null)
    ensures r != null ==> fresh(r) && r[..] == source[offset..offset + numElements]
  {
    if source == null {
      return null;
    }
    r := new T[numElements];
    var i := 0;
    while i < numElements
      invariant 0 <= i <= numElements
      invariant r[..i] == source[offset..offset + i]
    {
      r[i] := source[i + offset];
      i := i + 1;
    }
  }

  /** The two-argument `CopyArray(p_data, num_elements)`: offset zero. */
  method CopyWholeArray<T(0)>(source: array?<T>, numElements: nat) returns (r: array?<T>)
    requires source != null ==> numElements <= source.Length
    ensures (r == null) <==> (source == null)
    ensures r != null ==> fresh(r) && r[..] == source[..numElements]
  {
    r := CopyArray(source, numElements, 0);
  }
}
