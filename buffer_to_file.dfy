/** `BufferToFile`: the writer that dumps a buffer to a file one element at a
    time. The file is modelled as the sequence of bytes written to it so
    far; opening it (and the abort when it cannot be opened) is I/O and stays
    outside the model. */
module BufferToFile {
  import opened Wrappers
  import opened VulkanFormats

  /** The zero `uint64_t` the padding bytes are copied from. */
  const ZeroWord: seq<bv8> := [0, 0, 0, 0, 0, 0, 0, 0]

  /** Whether an element of `bytes` bytes at `readOffset` reaches past the
      end of `size` bytes of data: the check the writer evidently intends. */
  predicate ReadsOutside(readOffset: nat, bytes: nat, size: nat) {
    readOffset + bytes > size
  }

  /** The check as written: `read_offset + bytes_to_write` is a
      `VkDeviceSize` (`uint64_t`) sum, which wraps around. */
  predicate ReadsOutsideAsWritten(readOffset: nat, bytes: nat, size: nat) {
    (readOffset + bytes) % 0x1_0000_0000_0000_0000 > size
  }

  /** The wrapped check rejects only reads that are really outside, and it
      is exact as long as the sum stays below 2^64. */
  lemma AsWrittenCheck(readOffset: nat, bytes: nat, size: nat)
    ensures ReadsOutsideAsWritten(readOffset, bytes, size) ==> ReadsOutside(readOffset, bytes, size)
    ensures readOffset + bytes < 0x1_0000_0000_0000_0000 ==>
      (ReadsOutsideAsWritten(readOffset, bytes, size) <==> ReadsOutside(readOffset, bytes, size))
  {
    var m := 0x1_0000_0000_0000_0000;
    if readOffset + bytes >= m {
      assert (readOffset + bytes) % m <= readOffset + bytes;
    }
  }

  /** An offset just below 2^64 wraps the sum to zero, so the written check
      lets a one-byte element through although no data lies at that offset. */
  lemma AsWrittenCheckWraps()
    ensures ReadsOutside(0xFFFF_FFFF_FFFF_FFFF, 1, 0)
    ensures !ReadsOutsideAsWritten(0xFFFF_FFFF_FFFF_FFFF, 1, 0)
  {
  }

  /** The bytes one element of `format` occupies in the data: its total
      width in bits divided by 8. */
  function ElementBytes(totalWidthBits: nat): (bytes: nat)
    ensures 8 * bytes <= totalWidthBits < 8 * bytes + 8
  {
    totalWidthBits / 8
  }

  /** A vec3 element of equal, whole-byte widths takes the room of a vec4
      element in the file: its bytes (from the 16-bit total width the
      format keeps) plus its padding are four components. */
  lemma Vec3ElementWrittenAsVec4(cs: seq<ColorComponent>, w: nat)
    requires |cs| == 3 && forall i :: 0 <= i < 3 ==> cs[i].width == w
    requires w % 8 == 0 && w < 8 * Uint8Modulus
    ensures ElementBytes(SumWidths16(cs)) + PaddingBytes(0, cs) == 4 * (w / 8)
  {
    assert SumWidths(cs) == SumWidths(cs[..2]) + w;
    assert SumWidths(cs[..2]) == SumWidths(cs[..1]) + w;
    assert cs[..1][..0] == [];
    SumWidths16Exact(cs);
    Vec3PaddedToVec4(cs, w);
  }

  class Writer {
    /** Everything written to the file so far. */
    var stream: seq<bv8>

    /** The file starts out empty (it is opened with truncation). */
    constructor ()
      ensures stream == []
    {
      stream := [];
    }

    /** `WriteComponents`: copies one element of `format` from `data` at
        `readOffset`, then the format's padding in zero bytes. A read
        reaching past the data aborts and writes nothing. The bounds check
        is the corrected one; `ReadsOutsideAsWritten` is the one in the
        code. */
    method WriteComponents(data: seq<bv8>, readOffset: nat, format: VulkanFormat) returns (r: Result<()>)
      requires PaddingBytes(format.packSize, format.colorComponents) <= |ZeroWord|
      modifies this`stream
      ensures var bytes := ElementBytes(format.totalWidthBits);
        r.Err? <==> ReadsOutside(readOffset, bytes, |data|)
      ensures r.Err? ==> stream == old(stream)
      ensures r.Ok? ==>
        var bytes := ElementBytes(format.totalWidthBits);
        var padding := PaddingBytes(format.packSize, format.colorComponents);
        && |stream| == |old(stream)| + bytes + padding
        && stream[..|old(stream)|] == old(stream)
        && stream[|old(stream)|..|old(stream)| + bytes] == data[readOffset..readOffset + bytes]
        && forall i :: |old(stream)| + bytes <= i < |stream| ==> stream[i] == 0
    {
      var bytes := format.totalWidthBits / 8;
      if readOffset + bytes > |data| {
        return Err("Trying to read outside the data span.");
      }
      stream := stream + data[readOffset..readOffset + bytes];
      var padding := PaddingBytes(format.packSize, format.colorComponents);
      if padding != 0 {
        stream := stream + ZeroWord[..padding];
      }
      r := Ok(());
    }
  }
}
