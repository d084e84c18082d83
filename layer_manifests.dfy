/** `generate_files.py`, first half: a layer's identity is recovered from
    tagged trailing comments in its C++ sources (`// layerName`,
    `// specVersion`, `// implementationVersion`, `// description`), and one
    JSON layer manifest per platform is rendered from it (the layer
    manifest file format of the Vulkan loader-layer interface). A source
    file is the sequence of its lines; the four regular expressions are
    written out as scans that find the same leftmost match. */
module LayerManifests {
  import opened Wrappers
  import opened Text

  // ---------------------------------------------------------------------
  // The four patterns

  /** Whether `marker` occurs anywhere in `s` (Python's `marker in s`). */
  predicate Contains(s: string, marker: string)
    decreases |s|
  {
    |marker| <= |s| && (s[..|marker|] == marker || Contains(s[1..], marker))
  }

  /** Whether `pattern` occurs in `line` at position `k`. */
  predicate OccursAt(line: string, k: nat, pattern: string) {
    k + |pattern| <= |line| && line[k..k + |pattern|] == pattern
  }

  /** The first `"` at or after `i`. */
  function NextQuote(line: string, i: nat): (r: Option<nat>)
    decreases |line| - i
    ensures r.Some? ==> i <= r.value < |line| && line[r.value] == '"'
    ensures r.Some? ==> forall k :: i <= k < r.value ==> line[k] != '"'
    ensures r.None? ==> forall k :: i <= k < |line| ==> line[k] != '"'
  {
    if i >= |line| then None
    else if line[i] == '"' then Some(i)
    else NextQuote(line, i + 1)
  }

  /** The number of ASCII digits starting at `i`. */
  function DigitCount(line: string, i: nat): (k: nat)
    decreases |line| - i
    ensures i + k <= |line| || (i > |line| && k == 0)
    ensures forall m :: i <= m < i + k ==> IsDigit(line[m])
    ensures i + k < |line| ==> !IsDigit(line[i + k])
  {
    if i < |line| && IsDigit(line[i]) then 1 + DigitCount(line, i + 1) else 0
  }

  /** `re.search(r'"([^"]*)",', line).group(1)` tried from position `i`
      on: a quote, the text up to the next quote, and a comma right after
      that quote. */
  function QuotedCommaFrom(line: string, i: nat): (r: Option<string>)
    decreases |line| - i
    ensures r.Some? ==> '"' !in r.value
    ensures r.Some? ==> exists k :: i <= k && OccursAt(line, k, "\"" + r.value + "\",")
  {
    if i >= |line| then None
    else if line[i] != '"' then QuotedCommaFrom(line, i + 1)
    else
      match NextQuote(line, i + 1)
      case None => None
      case Some(j) =>
        if j + 1 < |line| && line[j + 1] == ',' then
          var v := line[i + 1..j];
          assert forall m :: 0 <= m < |v| ==> v[m] == line[i + 1 + m];
          assert OccursAt(line, i, "\"" + v + "\",");
          Some(v)
        else QuotedCommaFrom(line, i + 1)
  }

  function QuotedComma(line: string): Option<string> {
    QuotedCommaFrom(line, 0)
  }

  /** `re.search(r'"([^"]*)"', line).group(1)`: the text between the first
      quote and the next. */
  function Quoted(line: string): (r: Option<string>)
    ensures r.Some? ==> '"' !in r.value
    ensures r.Some? ==> exists k :: OccursAt(line, k, "\"" + r.value + "\"")
  {
    match NextQuote(line, 0)
    case None => None
    case Some(i) =>
      match NextQuote(line, i + 1)
      case None => None
      case Some(j) =>
        var v := line[i + 1..j];
        assert forall m :: 0 <= m < |v| ==> v[m] == line[i + 1 + m];
        assert OccursAt(line, i, "\"" + v + "\"");
        Some(v)
  }

  /** `re.search(r' (\d+),', line).group(1)` tried from position `i` on: a
      space, one or more digits, a comma. */
  function SpaceNumberCommaFrom(line: string, i: nat): (r: Option<string>)
    decreases |line| - i
    ensures r.Some? ==> |r.value| >= 1 && AllDigits(r.value)
    ensures r.Some? ==> exists k :: i <= k && OccursAt(line, k, " " + r.value + ",")
  {
    if i >= |line| then None
    else if line[i] != ' ' then SpaceNumberCommaFrom(line, i + 1)
    else
      var n := DigitCount(line, i + 1);
      if n >= 1 && i + 1 + n < |line| && line[i + 1 + n] == ',' then
        var v := line[i + 1..i + 1 + n];
        assert forall m :: 0 <= m < |v| ==> v[m] == line[i + 1 + m];
        assert OccursAt(line, i, " " + v + ",");
        Some(v)
      else SpaceNumberCommaFrom(line, i + 1)
  }

  function SpaceNumberComma(line: string): Option<string> {
    SpaceNumberCommaFrom(line, 0)
  }

  /** The digits at `i` followed by `sep`, and the position after `sep`. */
  function NumberThen(line: string, i: nat, sep: string): (r: Option<(string, nat)>)
    ensures r.Some? ==> |r.value.0| >= 1 && AllDigits(r.value.0)
    ensures r.Some? ==> i + |r.value.0| + |sep| == r.value.1 <= |line|
    ensures r.Some? ==> line[i..r.value.1] == r.value.0 + sep
  {
    var n := DigitCount(line, i);
    if n >= 1 && i + n + |sep| <= |line| && line[i + n..i + n + |sep|] == sep then
      var v := line[i..i + n];
      assert forall m :: 0 <= m < |v| ==> IsDigit(v[m]) by {
        forall m | 0 <= m < |v| ensures IsDigit(v[m]) {
          assert v[m] == line[i + m];
        }
      }
      assert line[i..i + n + |sep|] == v + sep by {
        assert line[i..i + n + |sep|] == line[i..i + n] + line[i + n..i + n + |sep|];
      }
      Some((v, i + n + |sep|))
    else None
  }

  /** The groups of `VK_MAKE_VERSION\((\d+)U, (\d+)U, (\d+)U\)` matched
      at position `i` exactly. */
  function MakeVersionAtPos(line: string, i: nat): (r: Option<(string, string, string)>)
    ensures r.Some? ==> AllDigits(r.value.0) && AllDigits(r.value.1) && AllDigits(r.value.2)
    ensures r.Some? ==> OccursAt(line, i, "VK_MAKE_VERSION(")
  {
    if !OccursAt(line, i, "VK_MAKE_VERSION(") then None
    else
      match NumberThen(line, i + 16, "U, ")
      case None => None
      case Some((a, p)) =>
        match NumberThen(line, p, "U, ")
        case None => None
        case Some((b, q)) =>
          match NumberThen(line, q, "U)")
          case None => None
          case Some((c, _)) => Some((a, b, c))
  }

  /** `re.search(r'VK_MAKE_VERSION\((\d+)U, (\d+)U, (\d+)U\)', line)`
      tried from position `i` on: its three groups. */
  function MakeVersionFrom(line: string, i: nat): (r: Option<(string, string, string)>)
    decreases |line| - i
    ensures r.Some? ==> AllDigits(r.value.0) && AllDigits(r.value.1) && AllDigits(r.value.2)
  {
    if i >= |line| then None
    else
      match MakeVersionAtPos(line, i)
      case Some(v) => Some(v)
      case None => MakeVersionFrom(line, i + 1)
  }

  function MakeVersion(line: string): Option<(string, string, string)> {
    MakeVersionFrom(line, 0)
  }

  // Round trips: each pattern finds the value a marker line is written
  // around.

  lemma {:induction false} QuotedCommaSkip(s: string, k: nat, n: nat)
    requires k <= n <= |s|
    requires forall m :: k <= m < n ==> s[m] != '"'
    ensures QuotedCommaFrom(s, k) == QuotedCommaFrom(s, n)
    decreases n - k
  {
    if k < n {
      QuotedCommaSkip(s, k + 1, n);
    }
  }

  /** The quote at `i` is followed by `v` and then the next quote. */
  lemma {:induction false} QuoteAfter(s: string, i: nat, v: string)
    requires i + |v| < |s| && s[i..i + |v|] == v && '"' !in v && s[i + |v|] == '"'
    ensures NextQuote(s, i) == Some(i + |v|)
  {
    assert forall k :: i <= k < i + |v| ==> s[k] == v[k - i];
  }

  /** `"v",` at `i` is matched there. */
  lemma QuotedCommaAt(s: string, i: nat, v: string)
    requires i + |v| + 2 < |s| && s[i] == '"' && s[i + 1..i + 1 + |v|] == v && '"' !in v
    requires s[i + 1 + |v|] == '"' && s[i + 2 + |v|] == ','
    ensures QuotedCommaFrom(s, i) == Some(v)
  {
    QuoteAfter(s, i + 1, v);
  }

  lemma {:induction false} QuotedCommaOf(pre: string, v: string, post: string)
    requires '"' !in pre && '"' !in v
    ensures QuotedComma(pre + "\"" + v + "\"," + post) == Some(v)
  {
    var s := pre + "\"" + v + "\"," + post;
    var i := |pre|;
    forall m | 0 <= m < i
      ensures s[m] != '"'
    {
      assert s[m] == pre[m];
    }
    QuotedCommaSkip(s, 0, i);
    assert s[i + 1..i + 1 + |v|] == v;
    QuotedCommaAt(s, i, v);
  }

  lemma {:induction false} QuotedOf(pre: string, v: string, post: string)
    requires '"' !in pre && '"' !in v
    ensures Quoted(pre + "\"" + v + "\"" + post) == Some(v)
  {
    var s := pre + "\"" + v + "\"" + post;
    var i := |pre|;
    assert s[..i] == pre;
    QuoteAfter(s, 0, pre);
    assert s[i + 1..i + 1 + |v|] == v;
    QuoteAfter(s, i + 1, v);
  }

  /** The digits `d` at `i`, ended by a non-digit, are counted exactly. */
  lemma {:induction false} DigitCountOf(s: string, i: nat, d: string)
    requires AllDigits(d) && i + |d| < |s| && s[i..i + |d|] == d && !IsDigit(s[i + |d|])
    ensures DigitCount(s, i) == |d|
    decreases |d|
  {
    if |d| > 0 {
      assert s[i] == d[0];
      assert s[i + 1..i + 1 + |d[1..]|] == d[1..];
      DigitCountOf(s, i + 1, d[1..]);
    }
  }

  lemma {:induction false} SpaceNumberCommaSkip(s: string, k: nat, n: nat)
    requires k <= n < |s|
    requires forall m :: k <= m < n ==> !(s[m] == ' ' && IsDigit(s[m + 1]))
    ensures SpaceNumberCommaFrom(s, k) == SpaceNumberCommaFrom(s, n)
    decreases n - k
  {
    if k < n {
      SpaceNumberCommaSkip(s, k + 1, n);
    }
  }

  /** ` d,` at `i` is matched there. */
  lemma SpaceNumberCommaAt(s: string, i: nat, d: string)
    requires |d| >= 1 && AllDigits(d)
    requires i + |d| + 1 < |s| && s[i] == ' ' && s[i + 1..i + 1 + |d|] == d && s[i + 1 + |d|] == ','
    ensures SpaceNumberCommaFrom(s, i) == Some(d)
  {
    DigitCountOf(s, i + 1, d);
  }

  lemma {:induction false} SpaceNumberCommaOf(pre: string, d: string, post: string)
    requires forall m :: 0 <= m < |pre| - 1 ==> !(pre[m] == ' ' && IsDigit(pre[m + 1]))
    requires |d| >= 1 && AllDigits(d)
    ensures SpaceNumberComma(pre + " " + d + "," + post) == Some(d)
  {
    var s := pre + " " + d + "," + post;
    var i := |pre|;
    forall m | 0 <= m < i
      ensures !(s[m] == ' ' && IsDigit(s[m + 1]))
    {
      if m < i - 1 {
        assert s[m] == pre[m] && s[m + 1] == pre[m + 1];
      } else {
        assert s[m + 1] == ' ';
      }
    }
    SpaceNumberCommaSkip(s, 0, i);
    assert s[i + 1..i + 1 + |d|] == d;
    SpaceNumberCommaAt(s, i, d);
  }

  lemma {:induction false} NumberThenOf(s: string, i: nat, d: string, sep: string, next: nat)
    requires |d| >= 1 && AllDigits(d) && |sep| >= 1 && !IsDigit(sep[0])
    requires OccursAt(s, i, d + sep) && next == i + |d| + |sep|
    ensures NumberThen(s, i, sep) == Some((d, next))
  {
    assert s[i..i + |d|] == (d + sep)[..|d|] == d;
    assert s[i + |d|] == sep[0];
    DigitCountOf(s, i, d);
    assert s[i + |d|..i + |d| + |sep|] == (d + sep)[|d|..] == sep;
  }

  lemma {:induction false} MakeVersionSkip(s: string, k: nat, n: nat)
    requires k <= n <= |s|
    requires forall m :: k <= m < n ==> s[m] != 'V'
    ensures MakeVersionFrom(s, k) == MakeVersionFrom(s, n)
    decreases n - k
  {
    if k < n {
      assert k + 16 <= |s| ==> s[k..k + 16][0] == s[k];
      MakeVersionSkip(s, k + 1, n);
    }
  }

  /** `VK_MAKE_VERSION(aU, bU, cU)` at `i` is matched there. */
  lemma MakeVersionAt(s: string, i: nat, a: string, b: string, c: string, q: nat, r: nat)
    requires |a| >= 1 && AllDigits(a) && |b| >= 1 && AllDigits(b) && |c| >= 1 && AllDigits(c)
    requires q == i + 16 + |a| + 3 && r == q + |b| + 3
    requires OccursAt(s, i, "VK_MAKE_VERSION(")
    requires OccursAt(s, i + 16, a + "U, ") && OccursAt(s, q, b + "U, ") && OccursAt(s, r, c + "U)")
    ensures MakeVersionAtPos(s, i) == Some((a, b, c))
  {
    var sep, close := "U, ", "U)";
    assert |sep| == 3 && !IsDigit(sep[0]) && |close| == 2 && !IsDigit(close[0]);
    NumberThenOf(s, i + 16, a, sep, q);
    NumberThenOf(s, q, b, sep, r);
    NumberThenOf(s, r, c, close, r + |c| + 2);
  }

  /** The version numbers of a `VK_MAKE_VERSION(aU, bU, cU)` line. */
  lemma {:induction false} MakeVersionOf(pre: string, a: string, b: string, c: string, post: string)
    requires 'V' !in pre
    requires |a| >= 1 && AllDigits(a) && |b| >= 1 && AllDigits(b) && |c| >= 1 && AllDigits(c)
    ensures MakeVersion(pre + "VK_MAKE_VERSION(" + a + "U, " + b + "U, " + c + "U)" + post) == Some((a, b, c))
  {
    var tail := a + "U, " + b + "U, " + c + "U)" + post;
    assert pre + "VK_MAKE_VERSION(" + a + "U, " + b + "U, " + c + "U)" + post == pre + "VK_MAKE_VERSION(" + tail;
    MakeVersionIn(pre, tail, a, b, c, post);
  }

  lemma {:induction false} MakeVersionIn(pre: string, tail: string, a: string, b: string, c: string, post: string)
    requires 'V' !in pre
    requires |a| >= 1 && AllDigits(a) && |b| >= 1 && AllDigits(b) && |c| >= 1 && AllDigits(c)
    requires tail == a + "U, " + b + "U, " + c + "U)" + post
    ensures MakeVersion(pre + "VK_MAKE_VERSION(" + tail) == Some((a, b, c))
  {
    var call := "VK_MAKE_VERSION(";
    var s := pre + call + tail;
    var i := |pre|;
    forall m | 0 <= m < i
      ensures s[m] != 'V'
    {
      assert s[m] == pre[m];
    }
    MakeVersionSkip(s, 0, i);
    assert |call| == 16;
    OccursAfter(pre, call, tail);
    MakeVersionFound(s, i, tail, a, b, c, post);
  }

  lemma MakeVersionFound(s: string, i: nat, tail: string, a: string, b: string, c: string, post: string)
    requires |a| >= 1 && AllDigits(a) && |b| >= 1 && AllDigits(b) && |c| >= 1 && AllDigits(c)
    requires OccursAt(s, i, "VK_MAKE_VERSION(") && s[i + 16..] == tail
    requires tail == a + "U, " + b + "U, " + c + "U)" + post
    ensures MakeVersionFrom(s, i) == Some((a, b, c))
  {
    var q := i + 16 + |a| + 3;
    var r := q + |b| + 3;
    VersionArgsAt(s, i + 16, a, b, c, post, q, r);
    MakeVersionAt(s, i, a, b, c, q, r);
  }

  lemma OccursAfter(pre: string, x: string, rest: string)
    ensures OccursAt(pre + x + rest, |pre|, x)
    ensures (pre + x + rest)[|pre| + |x|..] == rest
  {
    assert (pre + x + rest)[|pre|..|pre| + |x|] == x;
  }

  lemma VersionArgsAt(s: string, off: nat, a: string, b: string, c: string, post: string, q: nat, r: nat)
    requires off <= |s| && s[off..] == a + "U, " + b + "U, " + c + "U)" + post
    requires q == off + |a| + 3 && r == q + |b| + 3
    ensures OccursAt(s, off, a + "U, ") && OccursAt(s, q, b + "U, ") && OccursAt(s, r, c + "U)")
  {
    var x, y, z := a + "U, ", b + "U, ", c + "U)";
    assert s[off..] == x + (y + (z + post));
    PrefixAt(s, off, x, y + (z + post));
    PrefixAt(s, q, y, z + post);
    PrefixAt(s, r, z, post);
  }

  lemma PrefixAt(s: string, off: nat, u: string, v: string)
    requires off <= |s| && s[off..] == u + v
    ensures OccursAt(s, off, u) && s[off + |u|..] == v
  {
    assert s[off..off + |u|] == s[off..][..|u|];
    assert s[off + |u|..] == s[off..][|u|..];
  }

  // ---------------------------------------------------------------------
  // Extraction of the identity fields

  datatype Field = LayerName | SpecVersion | ImplementationVersion | Description

  /** The position of a field's marker in the `elif` chain. */
  function Rank(f: Field): nat {
    match f
    case LayerName => 0
    case SpecVersion => 1
    case ImplementationVersion => 2
    case Description => 3
  }

  /** The trailing comment that tags the line holding a field. */
  function Marker(f: Field): (m: string)
    ensures |m| > 3 && m[..3] == "// "
  {
    match f
    case LayerName => "// layerName"
    case SpecVersion => "// specVersion"
    case ImplementationVersion => "// implementationVersion"
    case Description => "// description"
  }

  /** The field a line sets: the first marker of the `elif` chain that the
      line contains, so a line with several markers sets only one field. */
  function Tagged(line: string): (r: Option<Field>)
    ensures r.Some? ==> Contains(line, Marker(r.value))
    ensures r.Some? ==> forall g :: Rank(g) < Rank(r.value) ==> !Contains(line, Marker(g))
    ensures r.None? ==> forall g :: !Contains(line, Marker(g))
  {
    if Contains(line, Marker(LayerName)) then Some(LayerName)
    else if Contains(line, Marker(SpecVersion)) then Some(SpecVersion)
    else if Contains(line, Marker(ImplementationVersion)) then Some(ImplementationVersion)
    else if Contains(line, Marker(Description)) then Some(Description)
    else None
  }

  /** What a tagged line sets its field to: the group of the field's
      pattern, `specVersion` as the three version numbers joined by dots;
      `None` when the pattern does not match. */
  function FieldValue(f: Field, line: string): Option<string> {
    match f
    case LayerName => QuotedComma(line)
    case SpecVersion =>
      (match MakeVersion(line)
       case None => None
       case Some((a, b, c)) => Some(a + "." + b + "." + c))
    case ImplementationVersion => SpaceNumberComma(line)
    case Description => Quoted(line)
  }

  /** One line's effect: nothing, one field set to a value, or the run
      aborted because the marker's pattern does not match (the source calls
      `.group` on `None`). */
  function LineUpdate(line: string): (r: Result<Option<(Field, string)>>)
    ensures r.Ok? && r.value.None? <==> Tagged(line).None?
    ensures r.Ok? && r.value.Some? ==>
      Tagged(line) == Some(r.value.value.0) && FieldValue(r.value.value.0, line) == Some(r.value.value.1)
    ensures r.Err? <==> Tagged(line).Some? && FieldValue(Tagged(line).value, line).None?
  {
    match Tagged(line)
    case None => Ok(None)
    case Some(f) =>
      match FieldValue(f, line)
      case None => Err("a marker line does not match its pattern")
      case Some(v) => Ok(Some((f, v)))
  }

  /** Whether reading `line` sets field `f`. */
  predicate Sets(line: string, f: Field) {
    LineUpdate(line).Ok? && LineUpdate(line).value.Some? && LineUpdate(line).value.value.0 == f
  }

  /** The four fields of `LayerProperties`, each `None` until a line sets it. */
  datatype Fields = Fields(layerName: Option<string>, specVersion: Option<string>,
                           implementationVersion: Option<string>, description: Option<string>)

  const Unset := Fields(None, None, None, None)

  function Get(fs: Fields, f: Field): Option<string> {
    match f
    case LayerName => fs.layerName
    case SpecVersion => fs.specVersion
    case ImplementationVersion => fs.implementationVersion
    case Description => fs.description
  }

  /** Assigning one field leaves the other three alone. */
  function Set(fs: Fields, f: Field, v: string): (r: Fields)
    ensures Get(r, f) == Some(v)
    ensures forall g :: g != f ==> Get(r, g) == Get(fs, g)
  {
    match f
    case LayerName => fs.(layerName := Some(v))
    case SpecVersion => fs.(specVersion := Some(v))
    case ImplementationVersion => fs.(implementationVersion := Some(v))
    case Description => fs.(description := Some(v))
  }

  /** The fields after reading `lines` in order from `fs`; the first line
      whose pattern fails aborts the scan. */
  function ScanLines(fs: Fields, lines: seq<string>): (r: Result<Fields>)
    ensures r.Err? <==> exists j :: 0 <= j < |lines| && LineUpdate(lines[j]).Err?
    decreases |lines|
  {
    if |lines| == 0 then Ok(fs)
    else
      var rest := ScanLines(fs, lines[1..]);
      assert forall j :: 1 <= j < |lines| ==> lines[1..][j - 1] == lines[j];
      match LineUpdate(lines[0])
      case Err(e) => Err(e)
      case Ok(None) => rest
      case Ok(Some((f, v))) =>
        var r := ScanLines(Set(fs, f, v), lines[1..]);
        assert r.Err? <==> rest.Err?;
        r
  }

  /** Continues a scan over the remaining files once one file is read. */
  function Continue(res: Result<Fields>, files: seq<seq<string>>): Result<Fields>
    decreases |files|, 1
  {
    match res
    case Err(e) => Err(e)
    case Ok(g) => ScanFiles(g, files)
  }

  /** The fields after reading every source file of a layer in order. */
  function ScanFiles(fs: Fields, files: seq<seq<string>>): (r: Result<Fields>)
    decreases |files|, 0
  {
    if |files| == 0 then Ok(fs) else Continue(ScanLines(fs, files[0]), files[1..])
  }

  /** A scan over `a + b` is a scan over `a` continued over `b`. */
  lemma {:induction false} ScanLinesAppend(fs: Fields, a: seq<string>, b: seq<string>)
    ensures ScanLines(fs, a + b) == (match ScanLines(fs, a) case Err(e) => Err(e) case Ok(g) => ScanLines(g, b))
    decreases |a|
  {
    if |a| == 0 {
      assert a + b == b;
    } else {
      assert (a + b)[0] == a[0];
      assert (a + b)[1..] == a[1..] + b;
      match LineUpdate(a[0])
      case Err(e) =>
      case Ok(None) => ScanLinesAppend(fs, a[1..], b);
      case Ok(Some((f, v))) => ScanLinesAppend(Set(fs, f, v), a[1..], b);
    }
  }

  /** The files of a layer are read as one stream of lines: the field
      values do not depend on where one file ends and the next begins. */
  lemma {:induction false} ScanFilesFlat(fs: Fields, files: seq<seq<string>>)
    ensures ScanFiles(fs, files) == ScanLines(fs, Flatten(files))
    decreases |files|
  {
    if |files| > 0 {
      ScanLinesAppend(fs, files[0], Flatten(files[1..]));
      match ScanLines(fs, files[0])
      case Err(e) =>
      case Ok(g) => ScanFilesFlat(g, files[1..]);
    }
  }

  /** A field that no line sets keeps its value. */
  lemma {:induction false} UntouchedFieldKept(fs: Fields, lines: seq<string>, f: Field)
    requires ScanLines(fs, lines).Ok?
    requires forall j :: 0 <= j < |lines| ==> !Sets(lines[j], f)
    ensures Get(ScanLines(fs, lines).value, f) == Get(fs, f)
    decreases |lines|
  {
    if |lines| > 0 {
      assert !Sets(lines[0], f);
      assert forall j :: 0 <= j < |lines| - 1 ==> lines[1..][j] == lines[j + 1];
      match LineUpdate(lines[0])
      case Ok(None) => UntouchedFieldKept(fs, lines[1..], f);
      case Ok(Some((g, v))) => UntouchedFieldKept(Set(fs, g, v), lines[1..], f);
    }
  }

  /** The last line that sets a field decides its value. */
  lemma {:induction false} LastOccurrenceWins(fs: Fields, lines: seq<string>, k: nat, f: Field, v: string)
    requires ScanLines(fs, lines).Ok?
    requires k < |lines| && LineUpdate(lines[k]) == Ok(Some((f, v)))
    requires forall j :: k < j < |lines| ==> !Sets(lines[j], f)
    ensures Get(ScanLines(fs, lines).value, f) == Some(v)
    decreases k
  {
    assert forall j :: 0 <= j < |lines| - 1 ==> lines[1..][j] == lines[j + 1];
    if k == 0 {
      UntouchedFieldKept(Set(fs, f, v), lines[1..], f);
    } else {
      match LineUpdate(lines[0])
      case Ok(None) => LastOccurrenceWins(fs, lines[1..], k - 1, f, v);
      case Ok(Some((g, w))) => LastOccurrenceWins(Set(fs, g, w), lines[1..], k - 1, f, v);
    }
  }

  // Round trips: a marker line written the way the sources write it sets
  // its field to the value it was written around.

  lemma {:induction false} ContainsSuffix(a: string, b: string, marker: string)
    requires Contains(b, marker)
    ensures Contains(a + b, marker)
    decreases |a|
  {
    if |a| > 0 {
      assert (a + b)[1..] == a[1..] + b;
      ContainsSuffix(a[1..], b, marker);
    } else {
      assert a + b == b;
    }
  }

  /** `"<name>",  // layerName`. */
  lemma LayerNameLine(pre: string, v: string, rest: string)
    requires '"' !in pre && '"' !in v && Contains(rest, Marker(LayerName))
    ensures LineUpdate(pre + "\"" + v + "\"," + rest) == Ok(Some((LayerName, v)))
  {
    ContainsSuffix(pre + "\"" + v + "\",", rest, Marker(LayerName));
    QuotedCommaOf(pre, v, rest);
  }

  /** `VK_MAKE_VERSION(aU, bU, cU),  // specVersion` sets `"a.b.c"`. */
  lemma SpecVersionLine(pre: string, a: string, b: string, c: string, rest: string)
    requires 'V' !in pre
    requires |a| >= 1 && AllDigits(a) && |b| >= 1 && AllDigits(b) && |c| >= 1 && AllDigits(c)
    requires Contains(rest, Marker(SpecVersion))
    requires !Contains(pre + "VK_MAKE_VERSION(" + a + "U, " + b + "U, " + c + "U)" + rest, Marker(LayerName))
    ensures LineUpdate(pre + "VK_MAKE_VERSION(" + a + "U, " + b + "U, " + c + "U)" + rest)
         == Ok(Some((SpecVersion, a + "." + b + "." + c)))
  {
    ContainsSuffix(pre + "VK_MAKE_VERSION(" + a + "U, " + b + "U, " + c + "U)", rest, Marker(SpecVersion));
    MakeVersionOf(pre, a, b, c, rest);
  }

  /** `   1,  // implementationVersion`. */
  lemma ImplementationVersionLine(pre: string, d: string, rest: string)
    requires forall m :: 0 <= m < |pre| - 1 ==> !(pre[m] == ' ' && IsDigit(pre[m + 1]))
    requires |d| >= 1 && AllDigits(d) && Contains(rest, Marker(ImplementationVersion))
    requires !Contains(pre + " " + d + "," + rest, Marker(LayerName))
    requires !Contains(pre + " " + d + "," + rest, Marker(SpecVersion))
    ensures LineUpdate(pre + " " + d + "," + rest) == Ok(Some((ImplementationVersion, d)))
  {
    ContainsSuffix(pre + " " + d + ",", rest, Marker(ImplementationVersion));
    SpaceNumberCommaOf(pre, d, rest);
  }

  /** `"Frame counter layer.",  // description`. */
  lemma DescriptionLine(pre: string, v: string, rest: string)
    requires '"' !in pre && '"' !in v && Contains(rest, Marker(Description))
    requires !Contains(pre + "\"" + v + "\"" + rest, Marker(LayerName))
    requires !Contains(pre + "\"" + v + "\"" + rest, Marker(SpecVersion))
    requires !Contains(pre + "\"" + v + "\"" + rest, Marker(ImplementationVersion))
    ensures LineUpdate(pre + "\"" + v + "\"" + rest) == Ok(Some((Description, v)))
  {
    ContainsSuffix(pre + "\"" + v + "\"", rest, Marker(Description));
    QuotedOf(pre, v, rest);
  }

  /** The rendered `specVersion` splits back into the three numbers. */
  lemma NoDotInNumber(n: nat)
    ensures '.' !in NatToString(n)
  {
    assert !IsDigit('.');
  }

  /** Three dot-free pieces joined by dots split back into the pieces. */
  lemma SplitThree(a: string, b: string, c: string)
    requires '.' !in a && '.' !in b && '.' !in c
    ensures Split(a + "." + b + "." + c, '.') == [a, b, c]
  {
    SplitNoSeparator(c, '.');
    SplitAtSeparator(b, '.', c);
    assert b + "." + c == b + ['.'] + c;
    SplitAtSeparator(a, '.', b + "." + c);
    assert a + "." + b + "." + c == a + ['.'] + (b + "." + c);
  }

  lemma {:induction false} VersionRoundTrip(x: nat, y: nat, z: nat)
    ensures var v := NatToString(x) + "." + NatToString(y) + "." + NatToString(z);
      var parts := Split(v, '.');
      |parts| == 3 && ParseNat(parts[0]) == Some(x) && ParseNat(parts[1]) == Some(y) && ParseNat(parts[2]) == Some(z)
  {
    var a, b, c := NatToString(x), NatToString(y), NatToString(z);
    NoDotInNumber(x);
    NoDotInNumber(y);
    NoDotInNumber(z);
    SplitThree(a, b, c);
    ParseNatToString(x);
    ParseNatToString(y);
    ParseNatToString(z);
  }

  /** `LayerProperties`: the four fields, assigned in place while the
      sources are read. */
  class LayerProperties {
    var layerName: Option<string>
    var specVersion: Option<string>
    var implementationVersion: Option<string>
    var description: Option<string>

    constructor ()
      ensures Value() == Unset
    {
      layerName, specVersion, implementationVersion, description := None, None, None, None;
    }

    function Value(): Fields
      reads this
    {
      Fields(layerName, specVersion, implementationVersion, description)
    }

    method Assign(f: Field, v: string)
      modifies this
      ensures Value() == Set(old(Value()), f, v)
    {
      match f
      case LayerName => layerName := Some(v);
      case SpecVersion => specVersion := Some(v);
      case ImplementationVersion => implementationVersion := Some(v);
      case Description => description := Some(v);
    }

    /** The extraction loop of `generate_manifests`: every line of every
        source file in order; a marker line whose pattern fails aborts. */
    method ExtractProperties(sources: seq<seq<string>>) returns (r: Result<()>)
      modifies this
      ensures r.Ok? <==> ScanFiles(old(Value()), sources).Ok?
      ensures r.Ok? ==> Value() == ScanFiles(old(Value()), sources).value
    {
      ghost var start := Value();
      var i := 0;
      while i < |sources|
        invariant 0 <= i <= |sources|
        invariant ScanFiles(Value(), sources[i..]) == ScanFiles(start, sources)
      {
        var lines := sources[i];
        assert sources[i..][1..] == sources[i + 1..];
        assert lines[0..] == lines;
        var j := 0;
        while j < |lines|
          invariant 0 <= j <= |lines|
          invariant Continue(ScanLines(Value(), lines[j..]), sources[i + 1..]) == ScanFiles(start, sources)
        {
          assert lines[j..][1..] == lines[j + 1..];
          var u := LineUpdate(lines[j]);
          match u {
            case Err(e) =>
              return Err(e);
            case Ok(None) =>
            case Ok(Some((f, v))) =>
              Assign(f, v);
          }
          j := j + 1;
        }
        i := i + 1;
      }
      r := Ok(());
    }
  }

  // ---------------------------------------------------------------------
  // The manifest

  datatype Platform = Unix | Darwin | Windows

  /** The platforms in the order their manifests are written. */
  const Platforms: seq<Platform> := [Unix, Darwin, Windows]

  function PlatformName(p: Platform): string {
    match p
    case Unix => "unix"
    case Darwin => "darwin"
    case Windows => "windows"
  }

  /** The `library_path` value as it appears inside the JSON string: on
      Windows the path separator is a backslash, escaped as two. */
  function LibraryPath(name: string, p: Platform): string {
    match p
    case Unix => "./lib" + name + ".so"
    case Darwin => "./lib" + name + ".dylib"
    case Windows => ".\\\\" + name + ".dll"
  }

  /** The JSON reading of a string's contents, for the escapes `\\` and
      `\"` that the manifests can contain. */
  function JsonUnescape(s: string): (r: string)
    ensures |r| <= |s|
    decreases |s|
  {
    if |s| == 0 then ""
    else if s[0] == '\\' && |s| >= 2 then [s[1]] + JsonUnescape(s[2..])
    else [s[0]] + JsonUnescape(s[1..])
  }

  lemma {:induction false} JsonUnescapePlain(a: string, b: string)
    requires '\\' !in a
    ensures JsonUnescape(a + b) == a + JsonUnescape(b)
    decreases |a|
  {
    if |a| == 0 {
      assert a + b == b;
    } else {
      assert (a + b)[0] == a[0] && (a + b)[1..] == a[1..] + b;
      JsonUnescapePlain(a[1..], b);
    }
  }

  lemma JsonUnescapeEscaped(c: char, b: string)
    ensures JsonUnescape(['\\', c] + b) == [c] + JsonUnescape(b)
  {
    assert (['\\', c] + b)[2..] == b;
  }

  /** Read back from the JSON text, the Windows path is `.\<name>.dll`
      with a single backslash. */
  lemma WindowsLibraryPathJson(name: string)
    requires '\\' !in name
    ensures JsonUnescape(LibraryPath(name, Windows)) == ".\\" + name + ".dll"
  {
    var rest := name + ".dll";
    var escaped := ['\\', '\\'] + rest;
    WindowsPathShape(name, rest);
    calc {
      JsonUnescape(LibraryPath(name, Windows));
      JsonUnescape("." + escaped);
      { JsonUnescapePlain(".", escaped); }
      "." + JsonUnescape(escaped);
      { JsonUnescapeEscaped('\\', rest); }
      "." + (['\\'] + JsonUnescape(rest));
      { JsonUnescapeNone(rest); }
      "." + (['\\'] + rest);
    }
  }

  lemma JsonUnescapeNone(s: string)
    requires '\\' !in s
    ensures JsonUnescape(s) == s
  {
    JsonUnescapePlain(s, "");
    assert s + "" == s;
  }

  lemma WindowsPathShape(name: string, rest: string)
    requires '\\' !in name && rest == name + ".dll"
    ensures '\\' !in rest
    ensures LibraryPath(name, Windows) == "." + (['\\', '\\'] + rest)
    ensures ".\\" + name + ".dll" == "." + (['\\'] + rest)
  {
  }

  /** The Unix and Darwin paths hold no escape and read back unchanged. */
  lemma UnixLibraryPathJson(name: string, p: Platform)
    requires '\\' !in name && p != Windows
    ensures JsonUnescape(LibraryPath(name, p)) == LibraryPath(name, p)
  {
    var path := LibraryPath(name, p);
    assert '\\' !in path;
    JsonUnescapePlain(path, "");
    assert path + "" == path;
  }

  /** The lines of the manifest before the `library_path` entry. */
  function HeadLines(name: string): (r: seq<string>)
    ensures |r| == 6
  {
    [ "{",
      "  \"file_format_version\" : \"1.1.2\",",
      "  \"layers\": [",
      "    {",
      "      \"name\": \"" + name + "\",",
      "      \"type\": \"GLOBAL\"," ]
  }

  /** The lines of the manifest after the `library_path` entry. */
  function TailLines(name: string, spec: string, impl: string, desc: string): (r: seq<string>)
    ensures |r| == 17
  {
    [ "      \"api_version\" : \"" + spec + "\",",
      "      \"implementation_version\" : \"" + impl + "\",",
      "      \"description\" : \"" + desc + "\",",
      "      \"functions\": {",
      "        \"vkGetDeviceProcAddr\": \"" + name + "GetDeviceProcAddr\",",
      "        \"vkGetInstanceProcAddr\": \"" + name + "GetInstanceProcAddr\",",
      "        \"vkNegotiateLoaderLayerInterfaceVersion\": \"" + name + "NegotiateLoaderLayerInterfaceVersion\"",
      "      }",
      "    }",
      "  ],",
      "  \"enable_environment\": {",
      "    \"" + name + "_V" + impl + "_ENABLE\": \"1\"",
      "  },",
      "  \"disable_environment\": {",
      "    \"" + name + "_V" + impl + "_DISABLE\": \"1\"",
      "  }",
      "}" ]
  }

  function LibraryLine(lib: string): string {
    "      \"library_path\": \"" + lib + "\","
  }

  /** The manifest template, line by line. */
  function ManifestLines(name: string, spec: string, impl: string, desc: string, p: Platform): (r: seq<string>)
    ensures |r| == 24
  {
    HeadLines(name) + [LibraryLine(LibraryPath(name, p))] + TailLines(name, spec, impl, desc)
  }

  /** The manifest text: every line followed by a newline. */
  function Manifest(name: string, spec: string, impl: string, desc: string, p: Platform): string
  {
    Terminated(ManifestLines(name, spec, impl, desc, p))
  }

  predicate Complete(fs: Fields) {
    fs.layerName.Some? && fs.specVersion.Some? && fs.implementationVersion.Some? && fs.description.Some?
  }

  /** A platform's manifest, or the `not_none` failure when a field was
      never found. */
  function RenderManifest(fs: Fields, p: Platform): (r: Result<string>)
    ensures r.Ok? <==> Complete(fs)
  {
    if Complete(fs) then
      Ok(Manifest(fs.layerName.value, fs.specVersion.value, fs.implementationVersion.value, fs.description.value, p))
    else Err("a layer property was not found")
  }

  /** The file a platform's manifest goes to, in the layer directory. */
  function ManifestPath(dir: string, name: string, p: Platform): string {
    dir + "/" + name + "_" + PlatformName(p) + ".json"
  }

  /** The manifests of the three platforms differ only in the library path:
      the text before it and after it is the same. */
  lemma ManifestAroundLibraryPath(name: string, spec: string, impl: string, desc: string, p: Platform)
    ensures Manifest(name, spec, impl, desc, p)
         == Terminated(HeadLines(name)) + LibraryLine(LibraryPath(name, p)) + "\n" + Terminated(TailLines(name, spec, impl, desc))
  {
    var head, tail := HeadLines(name), TailLines(name, spec, impl, desc);
    var line := LibraryLine(LibraryPath(name, p));
    TerminatedConcat(head + [line], tail);
    TerminatedAppend(head, line);
  }
}
