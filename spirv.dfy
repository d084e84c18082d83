/** The SPIR-V version word: byte 0 and byte 3 are zero, byte 2 holds the
    major version and byte 1 the minor version (section 2.3 of the SPIR-V
    specification, "Physical Layout of a SPIR-V Module and Instruction"). */
module Spirv {

  const MajorVersionShift: bv32 := 16
  const MinorVersionShift: bv32 := 8
  const OnePartMask: bv32 := 0xff

  /** `GetSpirvVersionWord`: the major part lands in bits 16..23 and the
      minor part in bits 8..15. */
  function VersionWord(major: bv8, minor: bv8): (w: bv32)
    ensures w & 0xff == 0 && w >> 24 == 0
    ensures (w >> 16) & 0xff == major as bv32 && (w >> 8) & 0xff == minor as bv32
  {
    ((major as bv32) << MajorVersionShift) | ((minor as bv32) << MinorVersionShift)
  }

  /** `GetSpirvVersionMajorPart`: bits 16..23 of the word. */
  function MajorPart(w: bv32): (major: bv8)
  {
    ((w >> MajorVersionShift) & OnePartMask) as bv8
  }

  /** `GetSpirvVersionMinorPart`: bits 8..15 of the word. */
  function MinorPart(w: bv32): (minor: bv8)
  {
    ((w >> MinorVersionShift) & OnePartMask) as bv8
  }

  /** Both parts come back out of the word they were packed into. */
  lemma PartsOfVersionWord(major: bv8, minor: bv8)
    ensures MajorPart(VersionWord(major, minor)) == major
    ensures MinorPart(VersionWord(major, minor)) == minor
  {
  }

  /** Conversely, every word whose outer bytes are zero is the version word
      of its own parts. */
  lemma VersionWordOfParts(w: bv32)
    requires w & 0xff == 0 && w >> 24 == 0
    ensures VersionWord(MajorPart(w), MinorPart(w)) == w
  {
  }
}
