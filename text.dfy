/** String helpers that the generators and the layers rely on: Python's
    `str.strip`, `str.join` and `str.split`, C++'s decimal rendering of
    unsigned integers (`std::to_string`, `operator<<`) and its inverse. */
module Text {
  import opened Wrappers

  /** Python's `str.isspace` for one character. */
  predicate IsSpace(c: char) {
    c == ' ' || ('\t' <= c <= '\r') || ('\U{1c}' <= c <= '\U{1f}')
    || c == '\U{85}' || c == '\U{a0}' || c == '\U{1680}'
    || ('\U{2000}' <= c <= '\U{200a}') || c == '\U{2028}' || c == '\U{2029}'
    || c == '\U{202f}' || c == '\U{205f}' || c == '\U{3000}'
  }

  predicate AllSpace(s: string) {
    forall i :: 0 <= i < |s| ==> IsSpace(s[i])
  }

  lemma AllSpaceConcat(a: string, b: string)
    ensures AllSpace(a + b) <==> AllSpace(a) && AllSpace(b)
  {
    if AllSpace(a) && AllSpace(b) {
      forall i | 0 <= i < |a + b|
        ensures IsSpace((a + b)[i])
      {
        if i < |a| {
          assert (a + b)[i] == a[i];
        } else {
          assert (a + b)[i] == b[i - |a|];
        }
      }
    }
    if AllSpace(a + b) {
      forall i | 0 <= i < |b|
        ensures IsSpace(b[i])
      {
        assert (a + b)[|a| + i] == b[i];
      }
      forall i | 0 <= i < |a|
        ensures IsSpace(a[i])
      {
        assert (a + b)[i] == a[i];
      }
    }
  }

  /** Python's `text.strip()`: drops whitespace from both ends. */
  function Strip(s: string): string
    decreases |s|
  {
    if |s| > 0 && IsSpace(s[0]) then Strip(s[1..])
    else if |s| > 0 && IsSpace(s[|s| - 1]) then Strip(s[..|s| - 1])
    else s
  }

  /** `s[i..j]` is `s` without a whitespace prefix `s[..i]` and a
      whitespace suffix `s[j..]`. */
  predicate SpaceFramed(s: string, i: int, j: int) {
    0 <= i <= j <= |s| && AllSpace(s[..i]) && AllSpace(s[j..])
  }

  /** What `Strip` keeps is a slice of its input with only whitespace
      around it. */
  lemma {:induction false} StripIsSlice(s: string)
    ensures exists i, j :: SpaceFramed(s, i, j) && Strip(s) == s[i..j]
    decreases |s|
  {
    if |s| > 0 && IsSpace(s[0]) {
      StripIsSlice(s[1..]);
      var i, j :| SpaceFramed(s[1..], i, j) && Strip(s[1..]) == s[1..][i..j];
      FramedDropFirst(s, i, j);
    } else if |s| > 0 && IsSpace(s[|s| - 1]) {
      StripIsSlice(s[..|s| - 1]);
      var i, j :| SpaceFramed(s[..|s| - 1], i, j) && Strip(s[..|s| - 1]) == s[..|s| - 1][i..j];
      FramedDropLast(s, i, j);
    } else {
      assert SpaceFramed(s, 0, |s|) && s[0..|s|] == s;
    }
  }

  lemma FramedDropFirst(s: string, i: int, j: int)
    requires |s| > 0 && IsSpace(s[0]) && SpaceFramed(s[1..], i, j)
    ensures SpaceFramed(s, i + 1, j + 1) && s[1..][i..j] == s[i + 1..j + 1]
  {
    assert s[..i + 1] == [s[0]] + s[1..][..i];
    AllSpaceConcat([s[0]], s[1..][..i]);
    assert s[j + 1..] == s[1..][j..];
  }

  lemma FramedDropLast(s: string, i: int, j: int)
    requires |s| > 0 && IsSpace(s[|s| - 1]) && SpaceFramed(s[..|s| - 1], i, j)
    ensures SpaceFramed(s, i, j) && s[..|s| - 1][i..j] == s[i..j]
  {
    var t := s[..|s| - 1];
    assert s[..i] == t[..i];
    assert s[j..] == t[j..] + [s[|s| - 1]];
    AllSpaceConcat(t[j..], [s[|s| - 1]]);
  }

  /** What `Strip` keeps neither starts nor ends with whitespace. */
  lemma {:induction false} StripEnds(s: string)
    ensures var r := Strip(s); r == "" || (!IsSpace(r[0]) && !IsSpace(r[|r| - 1]))
    decreases |s|
  {
    if |s| > 0 && IsSpace(s[0]) {
      StripEnds(s[1..]);
    } else if |s| > 0 && IsSpace(s[|s| - 1]) {
      StripEnds(s[..|s| - 1]);
    }
  }

  /** Whitespace alone strips to nothing. */
  lemma {:induction false} StripAllSpace(s: string)
    requires AllSpace(s)
    ensures Strip(s) == ""
    decreases |s|
  {
    if |s| > 0 {
      assert IsSpace(s[0]);
      StripAllSpace(s[1..]);
    }
  }

  lemma StripIdempotent(s: string)
    ensures Strip(Strip(s)) == Strip(s)
  {
    StripEnds(s);
  }

  /** Python's `"".join(parts)`. */
  function Concat(parts: seq<string>): (r: string)
  {
    if |parts| == 0 then "" else Concat(parts[..|parts| - 1]) + parts[|parts| - 1]
  }

  lemma ConcatAppend(parts: seq<string>, more: seq<string>)
    ensures Concat(parts + more) == Concat(parts) + Concat(more)
    decreases |more|
  {
    if |more| == 0 {
      assert parts + more == parts;
    } else {
      var last := more[|more| - 1];
      var init := more[..|more| - 1];
      assert parts + more == (parts + init) + [last];
      assert (parts + more)[..|parts + more| - 1] == parts + init;
      ConcatAppend(parts, init);
    }
  }

  /** Python's `sep.join(parts)`. */
  function Join(parts: seq<string>, sep: string): string
  {
    if |parts| == 0 then ""
    else if |parts| == 1 then parts[0]
    else parts[0] + sep + Join(parts[1..], sep)
  }

  lemma JoinAppend(parts: seq<string>, last: string, sep: string)
    requires |parts| >= 1
    ensures Join(parts + [last], sep) == Join(parts, sep) + sep + last
  {
    if |parts| == 1 {
      assert (parts + [last])[1..] == [last];
    } else {
      assert (parts + [last])[1..] == parts[1..] + [last];
      JoinAppend(parts[1..], last, sep);
    }
  }

  /** Python's `s.split(c)` (and absl's `StrSplit(s, c)`): the pieces between
      the occurrences of `c`, always one more piece than there are `c`s. */
  function Split(s: string, c: char): (r: seq<string>)
    ensures |r| >= 1
    decreases |s|
  {
    if |s| == 0 then [""]
    else if s[0] == c then [""] + Split(s[1..], c)
    else
      var rest := Split(s[1..], c);
      [[s[0]] + rest[0]] + rest[1..]
  }

  lemma {:induction false} SplitNoSeparator(a: string, c: char)
    requires c !in a
    ensures Split(a, c) == [a]
    decreases |a|
  {
    if |a| > 0 {
      assert c !in a[1..];
      SplitNoSeparator(a[1..], c);
      assert [a[0]] + a[1..] == a;
    }
  }

  lemma {:induction false} SplitAtSeparator(a: string, c: char, t: string)
    requires c !in a
    ensures Split(a + [c] + t, c) == [a] + Split(t, c)
    decreases |a|
  {
    var s := a + [c] + t;
    if |a| == 0 {
      assert s[1..] == t;
    } else {
      assert s[1..] == a[1..] + [c] + t;
      assert c !in a[1..];
      SplitAtSeparator(a[1..], c, t);
      assert [a[0]] + a[1..] == a;
    }
  }

  /** Splitting a join on a separator that no part contains gives the parts back. */
  lemma {:induction false} SplitJoin(parts: seq<string>, c: char)
    requires |parts| >= 1
    requires forall i :: 0 <= i < |parts| ==> c !in parts[i]
    ensures Split(Join(parts, [c]), c) == parts
    decreases |parts|
  {
    if |parts| == 1 {
      SplitNoSeparator(parts[0], c);
    } else {
      SplitJoin(parts[1..], c);
      SplitAtSeparator(parts[0], c, Join(parts[1..], [c]));
      assert [parts[0]] + parts[1..] == parts;
    }
  }

  /** All lines of all files, in reading order. */
  function Flatten(files: seq<seq<string>>): (r: seq<string>)
    ensures |files| > 0 ==> r == files[0] + Flatten(files[1..])
  {
    if |files| == 0 then [] else files[0] + Flatten(files[1..])
  }

  /** Reading one more file appends its lines. */
  lemma {:induction false} FlattenSnoc(files: seq<seq<string>>, file: seq<string>)
    ensures Flatten(files + [file]) == Flatten(files) + file
    decreases |files|
  {
    if |files| == 0 {
      assert files + [file] == [file];
      assert [file][1..] == [];
    } else {
      assert (files + [file])[1..] == files[1..] + [file];
      FlattenSnoc(files[1..], file);
    }
  }

  /** The text of a file written line by line, each line followed by a newline. */
  function Terminated(lines: seq<string>): (r: string)
    ensures |lines| > 0 ==> |r| > 0 && r[|r| - 1] == '\n'
    ensures |lines| == 0 ==> r == ""
  {
    if |lines| == 0 then "" else lines[0] + "\n" + Terminated(lines[1..])
  }

  /** Writing one more line appends it and its newline. */
  lemma {:induction false} TerminatedAppend(lines: seq<string>, line: string)
    ensures Terminated(lines + [line]) == Terminated(lines) + line + "\n"
    decreases |lines|
  {
    if |lines| == 0 {
      assert lines + [line] == [line];
    } else {
      var rest := lines[1..];
      assert (lines + [line])[1..] == rest + [line];
      TerminatedAppend(rest, line);
      calc {
        Terminated(lines + [line]);
        lines[0] + "\n" + Terminated(rest + [line]);
        lines[0] + "\n" + (Terminated(rest) + line + "\n");
        { assert lines[0] + "\n" + (Terminated(rest) + line + "\n")
            == (lines[0] + "\n" + Terminated(rest)) + line + "\n"; }
        Terminated(lines) + line + "\n";
      }
    }
  }

  /** Writing two runs of lines one after the other. */
  lemma {:induction false} TerminatedConcat(a: seq<string>, b: seq<string>)
    ensures Terminated(a + b) == Terminated(a) + Terminated(b)
    decreases |a|
  {
    if |a| == 0 {
      assert a + b == b;
    } else {
      assert (a + b)[1..] == a[1..] + b;
      TerminatedConcat(a[1..], b);
      assert Terminated(a + b) == a[0] + "\n" + (Terminated(a[1..]) + Terminated(b));
    }
  }

  /** Reading a written file back line by line gives the lines and one empty
      piece after the final newline. */
  lemma {:induction false} SplitTerminated(lines: seq<string>)
    requires forall i :: 0 <= i < |lines| ==> '\n' !in lines[i]
    ensures Split(Terminated(lines), '\n') == lines + [""]
    decreases |lines|
  {
    if |lines| > 0 {
      SplitTerminated(lines[1..]);
      SplitAtSeparator(lines[0], '\n', Terminated(lines[1..]));
      assert [lines[0]] + (lines[1..] + [""]) == lines + [""];
    }
  }

  predicate IsDigit(c: char) {
    '0' <= c <= '9'
  }

  predicate AllDigits(s: string) {
    forall i :: 0 <= i < |s| ==> IsDigit(s[i])
  }

  function DigitChar(d: nat): (c: char)
    requires d < 10
    ensures IsDigit(c) && (c as int) - ('0' as int) == d
  {
    ('0' as int + d) as char
  }

  /** Decimal rendering of an unsigned integer, as `std::to_string` and
      `operator<<` print it: no sign, no leading zeros. */
  function NatToString(n: nat): (r: string)
    ensures |r| >= 1 && AllDigits(r)
    ensures r[0] == '0' ==> n == 0
  {
    if n < 10 then [DigitChar(n)] else NatToString(n / 10) + [DigitChar(n % 10)]
  }

  /** The value of a run of decimal digits. */
  function DigitsValue(s: string): nat
    requires AllDigits(s)
  {
    if |s| == 0 then 0
    else DigitsValue(s[..|s| - 1]) * 10 + ((s[|s| - 1] as int) - ('0' as int))
  }

  /** Reads back a decimal number: `None` unless the text is one or more digits. */
  function ParseNat(s: string): (r: Option<nat>)
    ensures r.Some? <==> |s| >= 1 && AllDigits(s)
  {
    if |s| >= 1 && AllDigits(s) then Some(DigitsValue(s)) else None
  }

  lemma {:induction false} ParseNatToString(n: nat)
    ensures ParseNat(NatToString(n)) == Some(n)
  {
    if n >= 10 {
      ParseNatToString(n / 10);
      var s := NatToString(n);
      assert s[..|s| - 1] == NatToString(n / 10);
      assert (s[|s| - 1] as int) - ('0' as int) == n % 10;
      assert DigitsValue(s) == (n / 10) * 10 + n % 10;
    }
  }

  lemma NatToStringInjective(m: nat, n: nat)
    requires NatToString(m) == NatToString(n)
    ensures m == n
  {
    ParseNatToString(m);
    ParseNatToString(n);
  }

  /** Decimal rendering of a signed integer, as `operator<<` prints it: a
      minus sign before the magnitude of a negative value. */
  function IntToString(n: int): (r: string)
    ensures |r| >= 1 && (r[0] == '-' <==> n < 0)
    ensures forall i :: 0 < i < |r| ==> IsDigit(r[i])
  {
    if n < 0 then "-" + NatToString(-n) else NatToString(n)
  }

  /** Reads back a signed decimal number: an optional minus sign, then one
      or more digits. */
  function ParseInt(s: string): (r: Option<int>)
    ensures r.Some? ==> (r.value < 0 ==> |s| >= 1 && s[0] == '-')
  {
    if |s| >= 1 && s[0] == '-' then
      match ParseNat(s[1..])
      case Some(n) => Some(0 - n as int)
      case None => None
    else
      match ParseNat(s)
      case Some(n) => Some(n as int)
      case None => None
  }

  lemma ParseIntToString(n: int)
    ensures ParseInt(IntToString(n)) == Some(n)
  {
    if n < 0 {
      ParseNatToString(-n);
      assert IntToString(n)[1..] == NatToString(-n);
    } else {
      ParseNatToString(n);
    }
  }

  predicate StartsWith(s: string, prefix: string) {
    |prefix| <= |s| && s[..|prefix|] == prefix
  }

  predicate EndsWith(s: string, suffix: string) {
    |suffix| <= |s| && s[|s| - |suffix|..] == suffix
  }

  /** Python's `re.sub(" +", " ", s)`: every run of spaces becomes one space;
      other whitespace, newlines included, is kept. */
  function CollapseSpaces(s: string): (r: string)
    ensures |r| <= |s|
    ensures forall i :: 0 <= i < |r| - 1 ==> !(r[i] == ' ' && r[i + 1] == ' ')
    ensures r == "" || (r[0] == ' ' <==> s[0] == ' ')
    decreases |s|
  {
    if |s| == 0 then ""
    else if s[0] == ' ' then [' '] + CollapseSpaces(DropSpaces(s[1..]))
    else [s[0]] + CollapseSpaces(s[1..])
  }

  function DropSpaces(s: string): (r: string)
    ensures |r| <= |s| && (r == "" || r[0] != ' ')
  {
    if |s| > 0 && s[0] == ' ' then DropSpaces(s[1..]) else s
  }

  lemma {:induction false} CollapseSpacesKeepsOthers(s: string)
    ensures forall c :: c != ' ' ==> multiset(CollapseSpaces(s))[c] == multiset(s)[c]
    decreases |s|
  {
    if |s| > 0 {
      if s[0] == ' ' {
        var _ := DropSpacesCount(s[1..]);
        CollapseSpacesKeepsOthers(DropSpaces(s[1..]));
        assert s == [s[0]] + s[1..];
        assert CollapseSpaces(s) == [' '] + CollapseSpaces(DropSpaces(s[1..]));
      } else {
        CollapseSpacesKeepsOthers(s[1..]);
        assert s == [s[0]] + s[1..];
      }
    }
  }

  /** Dropping leading spaces removes spaces only. */
  lemma {:induction false} DropSpacesCount(s: string) returns (k: nat)
    ensures k <= |s| && DropSpaces(s) == s[k..] && forall i :: 0 <= i < k ==> s[i] == ' '
    ensures forall c :: c != ' ' ==> multiset(DropSpaces(s))[c] == multiset(s)[c]
    decreases |s|
  {
    if |s| > 0 && s[0] == ' ' {
      var k' := DropSpacesCount(s[1..]);
      k := k' + 1;
      assert s == [s[0]] + s[1..];
    } else {
      k := 0;
    }
  }
}
