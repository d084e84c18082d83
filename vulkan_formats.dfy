/** `VulkanFormat`: the Amber name of a `VkFormat` and the layout read off
    that name: the colour components with their widths, the pack size and
    the total width. Names follow the "Formats" chapter of the Vulkan
    specification: `_`-separated chunks such as `A2B10G10R10`, `UNORM` and
    `PACK32`. A `VkFormat` is identified here by its enumerator's name. */
module VulkanFormats {
  import opened Wrappers
  import opened Text

  const Uint64Modulus: nat := 0x1_0000_0000_0000_0000
  const Uint16Modulus: nat := 0x1_0000
  const Uint8Modulus: nat := 0x100

  type VkFormat = string

  /** The formats Amber supports, by Amber name: the names the layer's
      table maps a `VkFormat` to. */
  predicate IsAmberFormatName(name: string) {
    name in {
      "A1R5G5B5_UNORM_PACK16", "A2B10G10R10_SINT_PACK32", "A2B10G10R10_SNORM_PACK32",
      "A2B10G10R10_SSCALED_PACK32", "A2B10G10R10_UINT_PACK32", "A2B10G10R10_UNORM_PACK32",
      "A2B10G10R10_USCALED_PACK32", "A2R10G10B10_SINT_PACK32", "A2R10G10B10_SNORM_PACK32",
      "A2R10G10B10_SSCALED_PACK32", "A2R10G10B10_UINT_PACK32", "A2R10G10B10_UNORM_PACK32",
      "A2R10G10B10_USCALED_PACK32", "A8B8G8R8_SINT_PACK32", "A8B8G8R8_SNORM_PACK32",
      "A8B8G8R8_SRGB_PACK32", "A8B8G8R8_SSCALED_PACK32", "A8B8G8R8_UINT_PACK32",
      "A8B8G8R8_UNORM_PACK32", "A8B8G8R8_USCALED_PACK32", "B10G11R11_UFLOAT_PACK32",
      "B4G4R4A4_UNORM_PACK16", "B5G5R5A1_UNORM_PACK16", "B5G6R5_UNORM_PACK16", "B8G8R8A8_SINT",
      "B8G8R8A8_SNORM", "B8G8R8A8_SRGB", "B8G8R8A8_SSCALED", "B8G8R8A8_UINT", "B8G8R8A8_UNORM",
      "B8G8R8A8_USCALED", "B8G8R8_SINT", "B8G8R8_SNORM", "B8G8R8_SRGB", "B8G8R8_SSCALED",
      "B8G8R8_UINT", "B8G8R8_UNORM", "B8G8R8_USCALED", "D16_UNORM", "D16_UNORM_S8_UINT",
      "D24_UNORM_S8_UINT", "D32_SFLOAT", "D32_SFLOAT_S8_UINT", "R16G16B16A16_SFLOAT",
      "R16G16B16A16_SINT", "R16G16B16A16_SNORM", "R16G16B16A16_SSCALED", "R16G16B16A16_UINT",
      "R16G16B16A16_UNORM", "R16G16B16A16_USCALED", "R16G16B16_SFLOAT", "R16G16B16_SINT",
      "R16G16B16_SNORM", "R16G16B16_SSCALED", "R16G16B16_UINT", "R16G16B16_UNORM",
      "R16G16B16_USCALED", "R16G16_SFLOAT", "R16G16_SINT", "R16G16_SNORM", "R16G16_SSCALED",
      "R16G16_UINT", "R16G16_UNORM", "R16G16_USCALED", "R16_SFLOAT", "R16_SINT", "R16_SNORM",
      "R16_SSCALED", "R16_UINT", "R16_UNORM", "R16_USCALED", "R32G32B32A32_SFLOAT",
      "R32G32B32A32_SINT", "R32G32B32A32_UINT", "R32G32B32_SFLOAT", "R32G32B32_SINT",
      "R32G32B32_UINT", "R32G32_SFLOAT", "R32G32_SINT", "R32G32_UINT", "R32_SFLOAT", "R32_SINT",
      "R32_UINT", "R4G4B4A4_UNORM_PACK16", "R4G4_UNORM_PACK8", "R5G5B5A1_UNORM_PACK16",
      "R5G6B5_UNORM_PACK16", "R64G64B64A64_SFLOAT", "R64G64B64A64_SINT", "R64G64B64A64_UINT",
      "R64G64B64_SFLOAT", "R64G64B64_SINT", "R64G64B64_UINT", "R64G64_SFLOAT", "R64G64_SINT",
      "R64G64_UINT", "R64_SFLOAT", "R64_SINT", "R64_UINT", "R8G8B8A8_SINT", "R8G8B8A8_SNORM",
      "R8G8B8A8_SRGB", "R8G8B8A8_SSCALED", "R8G8B8A8_UINT", "R8G8B8A8_UNORM", "R8G8B8A8_USCALED",
      "R8G8B8_SINT", "R8G8B8_SNORM", "R8G8B8_SRGB", "R8G8B8_SSCALED", "R8G8B8_UINT", "R8G8B8_UNORM",
      "R8G8B8_USCALED", "R8G8_SINT", "R8G8_SNORM", "R8G8_SRGB", "R8G8_SSCALED", "R8G8_UINT",
      "R8G8_UNORM", "R8G8_USCALED", "R8_SINT", "R8_SNORM", "R8_SRGB", "R8_SSCALED", "R8_UINT",
      "R8_UNORM", "R8_USCALED", "S8_UINT", "X8_D24_UNORM_PACK32"
    }
  }

  const FormatPrefix: string := "VK_FORMAT_"

  /** `VkFormatToAmberFormatName`: the enumerator's name without its
      `VK_FORMAT_` prefix, for the formats Amber supports; the layer logs
      and aborts on any other format. */
  function VkFormatToAmberFormatName(vkFormat: VkFormat): (r: Result<string>)
    ensures r.Ok? ==> IsAmberFormatName(r.value) && FormatPrefix + r.value == vkFormat
  {
    if StartsWith(vkFormat, FormatPrefix) && IsAmberFormatName(vkFormat[|FormatPrefix|..]) then
      assert FormatPrefix + vkFormat[|FormatPrefix|..] == vkFormat;
      Ok(vkFormat[|FormatPrefix|..])
    else
      Err("Format not supported by amber.")
  }

  /** Every format in the table maps to its Amber name (the function's own
      contract gives the converse: only table formats map at all). */
  lemma AmberNameOfFormat(name: string)
    requires IsAmberFormatName(name)
    ensures VkFormatToAmberFormatName(FormatPrefix + name) == Ok(name)
  {
    assert (FormatPrefix + name)[..|FormatPrefix|] == FormatPrefix;
    assert (FormatPrefix + name)[|FormatPrefix|..] == name;
  }

  /** `ColorComponentName`. */
  datatype ColorComponentName = X | D | R | G | B | A

  /** `ColorComponentType`; `UInt` is its zero value. */
  datatype ColorComponentType = UInt | UNorm | UFloat | UScaled | SInt | SNorm | SScaled | SFloat | SRGB | S8

  /** `ColorComponent`. `width` is a `uint16_t`. The layer never assigns
      `formatMode`, so it keeps the zero value `UInt`. */
  datatype ColorComponent = ColorComponent(name: ColorComponentName, formatMode: ColorComponentType, width: nat)

  /** The component a letter of a component chunk names. */
  function ComponentName(c: char): (r: Option<ColorComponentName>)
  {
    if c == 'X' then Some(X) else if c == 'D' then Some(D) else if c == 'R' then Some(R)
    else if c == 'G' then Some(G) else if c == 'B' then Some(B) else if c == 'A' then Some(A)
    else None
  }

  function Letter(n: ColorComponentName): (c: char)
    ensures ComponentName(c) == Some(n)
  {
    match n
    case X => 'X'
    case D => 'D'
    case R => 'R'
    case G => 'G'
    case B => 'B'
    case A => 'A'
  }

  /** C's `isspace` in the "C" locale. */
  predicate IsCSpace(c: char) {
    c == ' ' || '\t' <= c <= '\r'
  }

  /** What `strtoull` skips before the number: leading C white space. */
  function DropCSpace(s: string): (r: string)
  {
    if |s| > 0 && IsCSpace(s[0]) then DropCSpace(s[1..]) else s
  }

  /** The run of digits that starts `s`, read left to right onto `acc`. */
  function DigitRun(s: string, acc: nat): (v: nat)
    decreases |s|
  {
    if |s| > 0 && IsDigit(s[0]) then DigitRun(s[1..], acc * 10 + ((s[0] as int) - ('0' as int))) else acc
  }

  /** `std::strtoull(s, nullptr, 10)`: leading white space, an optional
      sign, then the longest run of digits; 0 without digits; the largest
      value on overflow; a minus sign negates modulo 2^64. */
  function StrToUll(s: string): (r: nat)
    ensures r < Uint64Modulus
  {
    var t := DropCSpace(s);
    var negative := |t| > 0 && t[0] == '-';
    var v := DigitRun(if |t| > 0 && (t[0] == '-' || t[0] == '+') then t[1..] else t, 0);
    if v >= Uint64Modulus then Uint64Modulus - 1
    else if negative && v > 0 then Uint64Modulus - v
    else v
  }

  /** A decimal number followed by anything but a digit reads back as itself. */
  lemma StrToUllOfDecimal(n: nat, rest: string)
    requires n < Uint64Modulus && (rest == "" || !IsDigit(rest[0]))
    ensures StrToUll(NatToString(n) + rest) == n
  {
    var d := NatToString(n);
    DigitRunStops(d, rest, 0);
    DigitRunOfDecimal(n);
    StrToUllOfDigitLed(d + rest);
  }

  /** Text that starts with a digit is read without skipping or a sign. */
  lemma StrToUllOfDigitLed(s: string)
    requires |s| > 0 && IsDigit(s[0]) && DigitRun(s, 0) < Uint64Modulus
    ensures StrToUll(s) == DigitRun(s, 0)
  {
    assert !IsCSpace(s[0]);
    assert DropCSpace(s) == s;
  }

  /** The run stops at the first character that is not a digit. */
  lemma {:induction false} DigitRunStops(d: string, rest: string, acc: nat)
    requires AllDigits(d) && (rest == "" || !IsDigit(rest[0]))
    ensures DigitRun(d + rest, acc) == DigitRun(d, acc)
    decreases |d|
  {
    if |d| > 0 {
      assert (d + rest)[1..] == d[1..] + rest;
      DigitRunStops(d[1..], rest, acc * 10 + ((d[0] as int) - ('0' as int)));
    } else {
      assert d + rest == rest;
    }
  }

  /** One more digit at the end multiplies by ten and adds it. */
  lemma {:induction false} DigitRunSnoc(d: string, c: char, acc: nat)
    requires AllDigits(d) && IsDigit(c)
    ensures DigitRun(d + [c], acc) == DigitRun(d, acc) * 10 + ((c as int) - ('0' as int))
    decreases |d|
  {
    if |d| > 0 {
      assert (d + [c])[1..] == d[1..] + [c];
      DigitRunSnoc(d[1..], c, acc * 10 + ((d[0] as int) - ('0' as int)));
    } else {
      assert (d + [c])[1..] == [];
    }
  }

  /** Reading the decimal rendering of `n` gives `n`. */
  lemma {:induction false} DigitRunOfDecimal(n: nat)
    ensures DigitRun(NatToString(n), 0) == n
  {
    if n >= 10 {
      DigitRunOfDecimal(n / 10);
      DigitRunSnoc(NatToString(n / 10), DigitChar(n % 10), 0);
    }
  }

  /** The position of the nearest component letter at or before `p`, or -1:
      the layer's inner backward scan. */
  function ScanBack(chunk: string, p: int): (q: int)
    requires -1 <= p < |chunk|
    ensures -1 <= q <= p && (q >= 0 ==> ComponentName(chunk[q]).Some?)
    decreases p + 1
  {
    if p < 0 then -1 else if ComponentName(chunk[p]).Some? then p else ScanBack(chunk, p - 1)
  }

  /** The components of `chunk[..p + 1]`, parsed from the right: each is
      the nearest letter to the left and the number `strtoull` reads after
      it (to the end of the chunk), cut to 16 bits. The scan aborts when no
      letter is left or a width reads as 0. */
  function ComponentsUpTo(chunk: string, p: int): (r: Result<seq<ColorComponent>>)
    requires -1 <= p < |chunk|
    decreases p + 1
  {
    if p < 0 then Ok([])
    else
      var q := ScanBack(chunk, p);
      if q < 0 then Err("Format not supported.")
      else
        var width := StrToUll(chunk[q + 1..]);
        if width == 0 then Err("Unable to parse color component width.")
        else
          match ComponentsUpTo(chunk, q - 1)
          case Ok(front) => Ok(front + [ColorComponent(ComponentName(chunk[q]).value, UInt, width % 0x1_0000)])
          case Err(m) => Err(m)
  }

  /** A parse result followed by more components parsed earlier. */
  function Then(r: Result<seq<ColorComponent>>, tail: seq<ColorComponent>): (t: Result<seq<ColorComponent>>)
    ensures t.Ok? <==> r.Ok?
    ensures t.Ok? ==> t.value == r.value + tail
  {
    match r
    case Ok(front) => Ok(front + tail)
    case Err(m) => Err(m)
  }

  lemma ThenNothing(r: Result<seq<ColorComponent>>)
    ensures Then(r, []) == r
  {
    if r.Ok? {
      assert r.value + [] == r.value;
    }
  }

  /** `ComponentsUpTo` from position `p` when the scan finds no letter or
      reads a zero width: the parse aborts. */
  lemma ComponentsUpToAborts(chunk: string, p: int, tail: seq<ColorComponent>)
    requires 0 <= p < |chunk|
    ensures ScanBack(chunk, p) < 0 ==> Then(ComponentsUpTo(chunk, p), tail) == Err("Format not supported.")
    ensures ScanBack(chunk, p) >= 0 && StrToUll(chunk[ScanBack(chunk, p) + 1..]) == 0 ==>
      Then(ComponentsUpTo(chunk, p), tail) == Err("Unable to parse color component width.")
  {
  }

  /** `ComponentsUpTo` from position `p` when the scan finds a letter at `q`
      and reads a width: one component `c`, then the parse goes on in front
      of the letter. */
  lemma ComponentsUpToFound(chunk: string, p: int, q: int, c: ColorComponent, tail: seq<ColorComponent>)
    requires 0 <= q <= p < |chunk| && ScanBack(chunk, p) == q && StrToUll(chunk[q + 1..]) != 0
    requires c == ColorComponent(ComponentName(chunk[q]).value, UInt, StrToUll(chunk[q + 1..]) % 0x1_0000)
    ensures Then(ComponentsUpTo(chunk, p), tail) == Then(ComponentsUpTo(chunk, q - 1), [c] + tail)
  {
    match ComponentsUpTo(chunk, q - 1)
    case Ok(front) =>
      assert ComponentsUpTo(chunk, p) == Ok(front + [c]);
      assert front + [c] + tail == front + ([c] + tail);
    case Err(m) =>
      assert ComponentsUpTo(chunk, p) == Err(m);
  }

  /** A component chunk as the Vulkan format names write it: each
      component's letter followed by its width in decimal. */
  function RenderComponents(cs: seq<ColorComponent>): (s: string)
  {
    if |cs| == 0 then ""
    else RenderComponents(cs[..|cs| - 1]) + [Letter(cs[|cs| - 1].name)] + NatToString(cs[|cs| - 1].width)
  }

  /** Components a format name can have: a real width and the zero `formatMode`. */
  predicate WellFormed(cs: seq<ColorComponent>) {
    forall i :: 0 <= i < |cs| ==> 0 < cs[i].width < Uint16Modulus && cs[i].formatMode == UInt
  }

  lemma {:induction false} ScanBackOverDigits(s: string, q: int, p: int)
    requires 0 <= q <= p < |s| && ComponentName(s[q]).Some?
    requires forall k :: q < k <= p ==> IsDigit(s[k])
    ensures ScanBack(s, p) == q
    decreases p - q
  {
    if p > q {
      ScanBackOverDigits(s, q, p - 1);
    }
  }

  /** Parsing a rendered component chunk from the right gives back its
      components, in left-to-right order, whatever letter-led text follows:
      here the rendering is `chunk[..n]`. */
  lemma {:induction false} ComponentsOfRendered(cs: seq<ColorComponent>, chunk: string, n: int)
    requires WellFormed(cs) && 0 <= n <= |chunk| && chunk[..n] == RenderComponents(cs)
    requires n == |chunk| || ComponentName(chunk[n]).Some?
    ensures ComponentsUpTo(chunk, n - 1) == Ok(cs)
    decreases |cs|
  {
    if |cs| > 0 {
      var q := RenderedInit(cs, chunk, n);
      ComponentsOfRendered(cs[..|cs| - 1], chunk, q);
      RenderedLast(cs, chunk, n, q);
    }
  }

  /** The rendering of all components but the last ends at `q`, in front of
      the last component's letter. */
  lemma RenderedInit(cs: seq<ColorComponent>, chunk: string, n: int) returns (q: int)
    requires WellFormed(cs) && |cs| > 0 && 0 <= n <= |chunk| && chunk[..n] == RenderComponents(cs)
    ensures WellFormed(cs[..|cs| - 1]) && 0 <= q < n && chunk[..q] == RenderComponents(cs[..|cs| - 1])
    ensures ComponentName(chunk[q]).Some?
    ensures q == |RenderComponents(cs[..|cs| - 1])|
  {
    q := |RenderComponents(cs[..|cs| - 1])|;
    WellFormedPrefix(cs);
    RenderedSplit(cs, chunk, n);
  }

  /** The last component parses back once those in front of it have. */
  lemma {:induction false} RenderedLast(cs: seq<ColorComponent>, chunk: string, n: int, q: int)
    requires WellFormed(cs) && |cs| > 0 && 0 <= n <= |chunk| && chunk[..n] == RenderComponents(cs)
    requires n == |chunk| || ComponentName(chunk[n]).Some?
    requires q == |RenderComponents(cs[..|cs| - 1])|
    requires ComponentsUpTo(chunk, q - 1) == Ok(cs[..|cs| - 1])
    ensures ComponentsUpTo(chunk, n - 1) == Ok(cs)
  {
    WellFormedPrefix(cs);
    RenderedSplit(cs, chunk, n);
    LastComponent(chunk, q, n, cs[..|cs| - 1], cs[|cs| - 1]);
  }

  lemma {:induction false} LastComponent(chunk: string, q: int, n: int, front: seq<ColorComponent>, c: ColorComponent)
    requires 0 <= q < n <= |chunk| && chunk[q] == Letter(c.name) && chunk[q + 1..n] == NatToString(c.width)
    requires 0 < c.width < Uint16Modulus && c.formatMode == UInt
    requires n == |chunk| || ComponentName(chunk[n]).Some?
    requires ComponentsUpTo(chunk, q - 1) == Ok(front)
    ensures ComponentsUpTo(chunk, n - 1) == Ok(front + [c])
  {
    DigitsBetween(chunk, q, n, NatToString(c.width));
    WidthBetween(chunk, q, n, c.width);
    ComponentsUpToStep(chunk, q, n - 1, front, c);
  }

  lemma WellFormedPrefix(cs: seq<ColorComponent>)
    requires WellFormed(cs) && |cs| > 0
    ensures WellFormed(cs[..|cs| - 1]) && 0 < cs[|cs| - 1].width < Uint16Modulus && cs[|cs| - 1].formatMode == UInt
    ensures cs[..|cs| - 1] + [cs[|cs| - 1]] == cs
  {
  }

  /** Where the last component of a rendering sits in the chunk. */
  lemma RenderedSplit(cs: seq<ColorComponent>, chunk: string, n: int)
    requires |cs| > 0 && 0 <= n <= |chunk| && chunk[..n] == RenderComponents(cs)
    ensures var q := |RenderComponents(cs[..|cs| - 1])|;
      && q + 1 + |NatToString(cs[|cs| - 1].width)| == n
      && chunk[..q] == RenderComponents(cs[..|cs| - 1])
      && chunk[q] == Letter(cs[|cs| - 1].name)
      && chunk[q + 1..n] == NatToString(cs[|cs| - 1].width)
  {
    var prefix := RenderComponents(cs[..|cs| - 1]);
    var d := NatToString(cs[|cs| - 1].width);
    var q := |prefix|;
    assert chunk[..n] == prefix + [Letter(cs[|cs| - 1].name)] + d;
    assert chunk[..q] == chunk[..n][..q];
    assert chunk[q] == chunk[..n][q];
    assert chunk[q + 1..n] == chunk[..n][q + 1..];
  }

  /** Only digits lie between a letter and the end of its width. */
  lemma DigitsBetween(chunk: string, q: int, n: int, d: string)
    requires 0 <= q < n <= |chunk| && ComponentName(chunk[q]).Some?
    requires chunk[q + 1..n] == d && AllDigits(d)
    ensures ScanBack(chunk, n - 1) == q
  {
    assert forall k :: q < k <= n - 1 ==> chunk[k] == d[k - q - 1];
    ScanBackOverDigits(chunk, q, n - 1);
  }

  /** The width written after a letter reads back, when a letter or the end
      of the chunk follows it. */
  lemma WidthBetween(chunk: string, q: int, n: int, w: nat)
    requires 0 <= q < n <= |chunk| && chunk[q + 1..n] == NatToString(w) && w < Uint64Modulus
    requires n == |chunk| || ComponentName(chunk[n]).Some?
    ensures StrToUll(chunk[q + 1..]) == w
  {
    assert chunk[q + 1..] == NatToString(w) + chunk[n..];
    if n < |chunk| {
      LetterIsNoDigit(chunk[n]);
    }
    StrToUllOfDecimal(w, chunk[n..]);
  }

  lemma LetterIsNoDigit(c: char)
    requires ComponentName(c).Some?
    ensures !IsDigit(c) && c != 'P' && c != 'U' && c != 'S'
  {
  }

  /** One step of `ComponentsUpTo`: a letter found at `q` and a width read
      after it add one component behind those in front of the letter. */
  lemma {:induction false} ComponentsUpToStep(s: string, q: int, p: int, front: seq<ColorComponent>, c: ColorComponent)
    requires 0 <= q <= p < |s| && ScanBack(s, p) == q
    requires ComponentName(s[q]) == Some(c.name) && c.formatMode == UInt
    requires StrToUll(s[q + 1..]) == c.width && 0 < c.width < 0x1_0000
    requires ComponentsUpTo(s, q - 1) == Ok(front)
    ensures ComponentsUpTo(s, p) == Ok(front + [c])
  {
    assert c.width % 0x1_0000 == c.width;
    ComponentsUpToFound(s, p, q, c, []);
    ThenNothing(ComponentsUpTo(s, p));
  }

  /** What `ParseChunk` builds up: the pack size, the components so far, and
      the current component type. */
  datatype Parsed = Parsed(packSize: nat, components: seq<ColorComponent>, currentType: ColorComponentType)

  /** `ParseChunk` of one chunk on top of what the chunks to its right gave. A
      chunk is told apart by its first character (`'\0'` for an empty
      chunk): `P` is a pack size, `U` and `S` a component type (`S8` among
      them), anything else components, which go in front of those already
      parsed. */
  function ChunkStep(chunk: string, s: Parsed): (r: Result<Parsed>)
  {
    var first := if |chunk| == 0 then '\U{0}' else chunk[0];
    if first == 'P' then
      if chunk == "PACK8" then Ok(s.(packSize := 8))
      else if chunk == "PACK16" then Ok(s.(packSize := 16))
      else if chunk == "PACK32" then Ok(s.(packSize := 32))
      else Err("Unknown format.")
    else if first == 'U' then
      if chunk == "UINT" then Ok(s.(currentType := UInt))
      else if chunk == "UNORM" then Ok(s.(currentType := UNorm))
      else if chunk == "UFLOAT" then Ok(s.(currentType := UFloat))
      else if chunk == "USCALED" then Ok(s.(currentType := UScaled))
      else Err("Unknown format.")
    else if first == 'S' then
      if chunk == "SINT" then Ok(s.(currentType := SInt))
      else if chunk == "SNORM" then Ok(s.(currentType := SNorm))
      else if chunk == "SSCALED" then Ok(s.(currentType := SScaled))
      else if chunk == "SFLOAT" then Ok(s.(currentType := SFloat))
      else if chunk == "SRGB" then Ok(s.(currentType := SRGB))
      else if chunk == "S8" then Ok(s.(currentType := S8))
      else Err("Unknown format.")
    else
      match ComponentsUpTo(chunk, |chunk| - 1)
      case Ok(cs) => Ok(s.(components := cs + s.components))
      case Err(m) => Err(m)
  }

  /** A rendered component chunk puts its components in front of the ones
      already parsed and changes nothing else. */
  lemma ChunkStepOfRendered(cs: seq<ColorComponent>, s: Parsed)
    requires WellFormed(cs) && |cs| > 0
    ensures ChunkStep(RenderComponents(cs), s) == Ok(s.(components := cs + s.components))
  {
    var chunk := RenderComponents(cs);
    ComponentsOfRendered(cs, chunk, |chunk|);
    FirstOfRendered(cs);
    ChunkStepOfComponents(chunk, s);
  }

  /** A chunk that starts with a component letter is a component chunk. */
  lemma ChunkStepOfComponents(chunk: string, s: Parsed)
    requires |chunk| > 0 && ComponentName(chunk[0]).Some?
    ensures ChunkStep(chunk, s) == match ComponentsUpTo(chunk, |chunk| - 1)
                                   case Ok(cs) => Ok(s.(components := cs + s.components))
                                   case Err(m) => Err(m)
  {
    LetterIsNoDigit(chunk[0]);
  }

  lemma {:induction false} FirstOfRendered(cs: seq<ColorComponent>)
    requires |cs| > 0
    ensures |RenderComponents(cs)| > 0 && RenderComponents(cs)[0] == Letter(cs[0].name)
    decreases |cs|
  {
    if |cs| > 1 {
      FirstOfRendered(cs[..|cs| - 1]);
    }
  }

  /** The chunks of a name, parsed from the last to the first. */
  function ParseChunks(chunks: seq<string>, s: Parsed): (r: Result<Parsed>)
    decreases |chunks|
  {
    if |chunks| == 0 then Ok(s)
    else
      match ChunkStep(chunks[|chunks| - 1], s)
      case Ok(t) => ParseChunks(chunks[..|chunks| - 1], t)
      case Err(m) => Err(m)
  }

  /** What `ParseName` computes: the name split on `_`, its chunks parsed right to left
      from the current type `SInt`, no pack size and no components. */
  function NameLayout(name: string): (r: Result<Parsed>)
  {
    ParseChunks(Split(name, '_'), Parsed(0, [], SInt))
  }

  /** The chunk a format name uses for each component type. */
  function TypeName(t: ColorComponentType): (chunk: string)
    ensures forall s :: ChunkStep(chunk, s) == Ok(s.(currentType := t))
    ensures '_' !in chunk
  {
    match t
    case UInt => "UINT"
    case UNorm => "UNORM"
    case UFloat => "UFLOAT"
    case UScaled => "USCALED"
    case SInt => "SINT"
    case SNorm => "SNORM"
    case SScaled => "SSCALED"
    case SFloat => "SFLOAT"
    case SRGB => "SRGB"
    case S8 => "S8"
  }

  /** A rendered component chunk holds no `_`. */
  lemma {:induction false} NoSeparatorInRendered(cs: seq<ColorComponent>)
    ensures '_' !in RenderComponents(cs)
    decreases |cs|
  {
    if |cs| > 0 {
      NoSeparatorInRendered(cs[..|cs| - 1]);
      var d := NatToString(cs[|cs| - 1].width);
      assert forall i :: 0 <= i < |d| ==> d[i] != '_';
    }
  }

  /** A name made of a component chunk and a type chunk, such as
      `R8G8B8A8_UNORM`, parses to exactly those components, that type and
      no pack size. */
  lemma {:induction false} NameLayoutOfComponentsAndType(cs: seq<ColorComponent>, t: ColorComponentType)
    requires WellFormed(cs) && |cs| > 0
    ensures NameLayout(RenderComponents(cs) + "_" + TypeName(t)) == Ok(Parsed(0, cs, t))
  {
    var chunk := RenderComponents(cs);
    NoSeparatorInRendered(cs);
    SplitAtSeparator(chunk, '_', TypeName(t));
    SplitNoSeparator(TypeName(t), '_');
    assert Split(chunk + "_" + TypeName(t), '_') == [chunk, TypeName(t)];
    var typed := Parsed(0, [], t);
    assert ChunkStep(TypeName(t), Parsed(0, [], SInt)) == Ok(typed);
    assert [chunk, TypeName(t)][..1] == [chunk];
    assert ParseChunks([chunk, TypeName(t)], Parsed(0, [], SInt)) == ParseChunks([chunk], typed);
    ChunkStepOfRendered(cs, typed);
    assert cs + [] == cs;
    assert [chunk][..0] == [];
    assert ParseChunks([chunk], typed) == ParseChunks([], Parsed(0, cs, t));
  }

  /** The sum of the component widths. */
  function SumWidths(cs: seq<ColorComponent>): (n: nat)
  {
    if |cs| == 0 then 0 else SumWidths(cs[..|cs| - 1]) + cs[|cs| - 1].width
  }

  /** The same sum kept in a `uint16_t`, wrapping at every addition. */
  function SumWidths16(cs: seq<ColorComponent>): (n: nat)
    ensures n < Uint16Modulus
  {
    if |cs| == 0 then 0 else (SumWidths16(cs[..|cs| - 1]) + cs[|cs| - 1].width) % 0x1_0000
  }

  lemma SumWidths16Step(cs: seq<ColorComponent>, i: int)
    requires 0 <= i < |cs|
    ensures SumWidths16(cs[..i + 1]) == (SumWidths16(cs[..i]) + cs[i].width) % 0x1_0000
  {
    assert cs[..i + 1][..i] == cs[..i];
  }

  /** Below 2^16 bits in all, the 16-bit sum is the true total width. */
  lemma {:induction false} SumWidths16Exact(cs: seq<ColorComponent>)
    requires SumWidths(cs) < Uint16Modulus
    ensures SumWidths16(cs) == SumWidths(cs)
  {
    if |cs| > 0 {
      SumWidths16Exact(cs[..|cs| - 1]);
    }
  }

  /** `GetPaddingBytes`: a three-component format that is not packed is
      padded to four components, by the width of its first component in
      bytes (as a `uint8_t`); other formats have no padding. */
  function PaddingBytes(packSize: nat, cs: seq<ColorComponent>): (r: nat)
    ensures r < Uint8Modulus
    ensures r > 0 ==> packSize == 0 && |cs| == 3
  {
    if packSize == 0 && |cs| == 3 then (cs[0].width / 8) % 0x100 else 0
  }

  /** A vec3 format of equal, whole-byte widths is written as a vec4: the
      element's bytes and the padding make four components. */
  lemma Vec3PaddedToVec4(cs: seq<ColorComponent>, w: nat)
    requires |cs| == 3 && forall i :: 0 <= i < 3 ==> cs[i].width == w
    requires w % 8 == 0 && w < 8 * Uint8Modulus
    ensures SumWidths(cs) / 8 + PaddingBytes(0, cs) == 4 * (w / 8)
  {
    assert SumWidths(cs) == SumWidths(cs[..2]) + w;
    assert SumWidths(cs[..2]) == SumWidths(cs[..1]) + w;
    assert cs[..1][..0] == [];
  }

  class VulkanFormat {
    const vkFormat: VkFormat
    const name: string
    /** `pack_size_`, a `uint8_t`: 0 for a format that is not packed. */
    var packSize: nat
    /** `total_width_bits_`, a `uint16_t`. */
    var totalWidthBits: nat
    var colorComponents: seq<ColorComponent>

    /** The fields' initial values, before the name is parsed. */
    constructor (vkFormat: VkFormat, name: string)
      ensures this.vkFormat == vkFormat && this.name == name
      ensures packSize == 0 && totalWidthBits == 0 && colorComponents == []
    {
      this.vkFormat := vkFormat;
      this.name := name;
      packSize := 0;
      totalWidthBits := 0;
      colorComponents := [];
    }

    /** `IsPackedFormat`. */
    function IsPackedFormat(): (b: bool)
      reads this
      ensures b <==> packSize != 0
    {
      packSize > 0
    }

    /** The `VulkanFormat(vk_format)` constructor: the Amber name, the parse
        of that name, and the total width, summed in 16 bits. A format Amber
        does not support, or a name the parse rejects, aborts. */
    static method Create(vkFormat: VkFormat) returns (r: Result<VulkanFormat>)
      ensures r.Ok? <==> VkFormatToAmberFormatName(vkFormat).Ok? && NameLayout(VkFormatToAmberFormatName(vkFormat).value).Ok?
      ensures r.Ok? ==>
        var parsed := NameLayout(VkFormatToAmberFormatName(vkFormat).value).value;
        && fresh(r.value) && r.value.vkFormat == vkFormat && r.value.name == VkFormatToAmberFormatName(vkFormat).value
        && r.value.packSize == parsed.packSize && r.value.colorComponents == parsed.components
        && r.value.totalWidthBits == SumWidths16(parsed.components)
    {
      var name := VkFormatToAmberFormatName(vkFormat);
      if name.Err? {
        return Err(name.reason);
      }
      var format := new VulkanFormat(vkFormat, name.value);
      var parsed := format.ParseName();
      if parsed.Err? {
        return Err(parsed.reason);
      }
      format.AddWidths();
      r := Ok(format);
    }

    /** The constructor's loop that adds up the component widths in the 16-bit total. */
    method AddWidths()
      requires totalWidthBits == 0
      modifies this`totalWidthBits
      ensures totalWidthBits == SumWidths16(colorComponents)
    {
      var i := 0;
      while i < |colorComponents|
        invariant 0 <= i <= |colorComponents|
        invariant totalWidthBits == SumWidths16(colorComponents[..i])
      {
        SumWidths16Step(colorComponents, i);
        totalWidthBits := (totalWidthBits + colorComponents[i].width) % 0x1_0000;
        i := i + 1;
      }
      assert colorComponents[..i] == colorComponents;
    }

    /** `ParseName`: the name split on `_`, its chunks parsed right to left. */
    method ParseName() returns (r: Result<()>)
      requires packSize == 0 && colorComponents == []
      modifies this`packSize, this`colorComponents
      ensures r.Ok? <==> NameLayout(name).Ok?
      ensures r.Ok? ==> packSize == NameLayout(name).value.packSize
                        && colorComponents == NameLayout(name).value.components
    {
      var chunks := Split(name, '_');
      var currentType := SInt;
      var i := |chunks|;
      assert chunks[..i] == chunks;
      while i > 0
        invariant 0 <= i <= |chunks|
        invariant ParseChunks(chunks[..i], Parsed(packSize, colorComponents, currentType)) == NameLayout(name)
      {
        assert chunks[..i][..i - 1] == chunks[..i - 1];
        var next := ParseChunk(chunks[i - 1], currentType);
        if next.Err? {
          return Err(next.reason);
        }
        currentType := next.value;
        i := i - 1;
      }
      r := Ok(());
    }

    /** `ParseChunk`: one chunk, with `currentType` in and out. */
    method ParseChunk(chunk: string, currentType: ColorComponentType) returns (r: Result<ColorComponentType>)
      modifies this`packSize, this`colorComponents
      ensures ChunkStep(chunk, Parsed(old(packSize), old(colorComponents), currentType))
              == if r.Ok? then Ok(Parsed(packSize, colorComponents, r.value)) else Err(r.reason)
    {
      var first := if |chunk| == 0 then '\U{0}' else chunk[0];
      if first == 'P' {
        if chunk == "PACK8" {
          packSize := 8;
        } else if chunk == "PACK16" {
          packSize := 16;
        } else if chunk == "PACK32" {
          packSize := 32;
        } else {
          return Err("Unknown format.");
        }
        return Ok(currentType);
      }
      if first == 'U' {
        if chunk == "UINT" {
          r := Ok(UInt);
        } else if chunk == "UNORM" {
          r := Ok(UNorm);
        } else if chunk == "UFLOAT" {
          r := Ok(UFloat);
        } else if chunk == "USCALED" {
          r := Ok(UScaled);
        } else {
          r := Err("Unknown format.");
        }
        return;
      }
      if first == 'S' {
        if chunk == "SINT" {
          r := Ok(SInt);
        } else if chunk == "SNORM" {
          r := Ok(SNorm);
        } else if chunk == "SSCALED" {
          r := Ok(SScaled);
        } else if chunk == "SFLOAT" {
          r := Ok(SFloat);
        } else if chunk == "SRGB" {
          r := Ok(SRGB);
        } else if chunk == "S8" {
          r := Ok(S8);
        } else {
          r := Err("Unknown format.");
        }
        return;
      }
      var ok := ParseComponents(chunk);
      r := if ok.Ok? then Ok(currentType) else Err(ok.reason);
    }

    /** The component part of `ParseChunk`: from the end of the chunk, find
        the nearest letter, read the width after it and insert the component
        at the front. */
    method ParseComponents(chunk: string) returns (r: Result<()>)
      modifies this`colorComponents
      ensures Then(ComponentsUpTo(chunk, |chunk| - 1), old(colorComponents))
              == if r.Ok? then Ok(colorComponents) else Err(r.reason)
    {
      var position := |chunk| - 1;
      while position >= 0
        invariant -1 <= position < |chunk|
        invariant Then(ComponentsUpTo(chunk, position), colorComponents)
                  == Then(ComponentsUpTo(chunk, |chunk| - 1), old(colorComponents))
        decreases position + 1
      {
        ghost var start := position;
        while position >= 0 && ComponentName(chunk[position]).None?
          invariant -1 <= position <= start
          invariant ScanBack(chunk, position) == ScanBack(chunk, start)
          decreases position + 1
        {
          position := position - 1;
        }
        assert ScanBack(chunk, start) == position;
        ComponentsUpToAborts(chunk, start, colorComponents);
        if position < 0 {
          return Err("Format not supported.");
        }
        var width := StrToUll(chunk[position + 1..]);
        if width == 0 {
          return Err("Unable to parse color component width.");
        }
        var component := ColorComponent(ComponentName(chunk[position]).value, UInt, width % 0x1_0000);
        ComponentsUpToFound(chunk, start, position, component, colorComponents);
        colorComponents := [component] + colorComponents;
        position := position - 1;
      }
      assert [] + colorComponents == colorComponents;
      r := Ok(());
    }
  }
}
