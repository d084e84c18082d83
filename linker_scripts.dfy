/** `generate_files.py`, second half: the entry points a layer exports are
    collected from its sources, the four Android introspection functions
    are set aside, and four export lists are rendered: an MSVC `.def`
    file, an Apple exported-symbols list, a GNU ld version script and the
    Android variant of the version script. */
module LinkerScripts {
  import opened Text

  /** The introspection functions that only the Android script exports. */
  const AndroidExports: seq<string> := [
    "vkEnumerateInstanceLayerProperties",
    "vkEnumerateDeviceLayerProperties",
    "vkEnumerateInstanceExtensionProperties",
    "vkEnumerateDeviceExtensionProperties"
  ]

  /** The exported names every script lists: all of them in the order found,
      duplicates kept, except the Android introspection functions. */
  function Generic(names: seq<string>): (r: seq<string>)
    ensures forall k :: 0 <= k < |r| ==> r[k] !in AndroidExports
    ensures |r| <= |names|
  {
    if |names| == 0 then []
    else
      var last := names[|names| - 1];
      Generic(names[..|names| - 1]) + (if last in AndroidExports then [] else [last])
  }

  /** The names are filtered one at a time, so the filter commutes with
      concatenation: the generic names keep the order they were found in. */
  lemma {:induction false} GenericAppend(a: seq<string>, b: seq<string>)
    ensures Generic(a + b) == Generic(a) + Generic(b)
    decreases |b|
  {
    if |b| == 0 {
      assert a + b == a;
    } else {
      var init, last := b[..|b| - 1], b[|b| - 1];
      assert (a + b)[..|a + b| - 1] == a + init;
      assert (a + b)[|a + b| - 1] == last;
      GenericAppend(a, init);
    }
  }

  lemma GenericSnoc(names: seq<string>, name: string)
    ensures Generic(names + [name]) == Generic(names) + (if name in AndroidExports then [] else [name])
  {
    assert (names + [name])[..|names|] == names;
  }

  /** Every name other than the four introspection functions is kept as
      often as it was found, and those four never are. */
  lemma {:induction false} GenericCounts(names: seq<string>, n: string)
    ensures n in AndroidExports ==> multiset(Generic(names))[n] == 0
    ensures n !in AndroidExports ==> multiset(Generic(names))[n] == multiset(names)[n]
    decreases |names|
  {
    if |names| > 0 {
      GenericCounts(names[..|names| - 1], n);
      GenericMultisetStep(names);
    }
  }

  lemma GenericMultisetStep(names: seq<string>)
    requires |names| > 0
    ensures var init, last := names[..|names| - 1], names[|names| - 1];
      && multiset(names) == multiset(init) + multiset{last}
      && multiset(Generic(names)) == multiset(Generic(init)) + (if last in AndroidExports then multiset{} else multiset{last})
  {
    var init, last := names[..|names| - 1], names[|names| - 1];
    assert names == init + [last];
  }

  /** The collection loop of `generate_linker_scripts`: the names matched
      in each source file, in file order, less the introspection functions. */
  method CollectExports(found: seq<seq<string>>) returns (names: seq<string>)
    ensures names == Generic(Flatten(found))
  {
    names := [];
    var i := 0;
    while i < |found|
      invariant 0 <= i <= |found|
      invariant names == Generic(Flatten(found[..i]))
    {
      names := CollectFile(names, Flatten(found[..i]), found[i]);
      assert found[..i + 1] == found[..i] + [found[i]];
      FlattenSnoc(found[..i], found[i]);
      i := i + 1;
    }
    assert found[..i] == found;
  }

  /** The inner loop over the names matched in one file. */
  method CollectFile(names: seq<string>, ghost before: seq<string>, file: seq<string>) returns (r: seq<string>)
    requires names == Generic(before)
    ensures r == Generic(before + file)
  {
    r := names;
    assert before + file[..0] == before;
    var j := 0;
    while j < |file|
      invariant 0 <= j <= |file|
      invariant r == Generic(before + file[..j])
    {
      var name := file[j];
      assert before + file[..j + 1] == (before + file[..j]) + [name];
      GenericSnoc(before + file[..j], name);
      if name !in AndroidExports {
        r := r + [name];
      }
      j := j + 1;
    }
    assert file[..j] == file;
  }

  // ---------------------------------------------------------------------
  // The four scripts, line by line

  /** One line per name, between a fixed prefix and suffix. */
  function Each(prefix: string, names: seq<string>, suffix: string): (r: seq<string>)
    ensures |r| == |names|
    ensures forall k :: 0 <= k < |r| ==> r[k] == prefix + names[k] + suffix
  {
    if |names| == 0 then []
    else Each(prefix, names[..|names| - 1], suffix) + [prefix + names[|names| - 1] + suffix]
  }

  function DefHead(layer: string): seq<string> {
    ["; Linker script for MSVC.", "; Generated file; do not edit.", "LIBRARY " + layer, "EXPORTS"]
  }

  /** The `.def` file for MSVC. */
  function DefLines(layer: string, names: seq<string>): seq<string> {
    DefHead(layer) + Each("    ", names, "")
  }

  const ExportsHead: seq<string> := ["# Linker script for Apple.", "# Generated file; do not edit."]

  /** The `.exports` list for Apple targets: the C symbol names. */
  function ExportsLines(names: seq<string>): seq<string> {
    ExportsHead + Each("_", names, "")
  }

  /** The head of a version script under the given comment line. */
  function ScriptHead(comment: string): seq<string> {
    [comment, "# Generated file; do not edit.", "{", "global:"]
  }

  const ScriptFoot: seq<string> := ["local:", "    *;", "};"]

  const AndroidComment := "    # Introspection functions must be exported on Android."

  /** The `.lds` version script for Linux. */
  function LdsLines(names: seq<string>): seq<string> {
    ScriptHead("# Linker script for Linux.") + Each("    ", names, ";") + ScriptFoot
  }

  /** The `_android.lds` version script. */
  function AndroidLdsLines(names: seq<string>): seq<string> {
    ScriptHead("# Linker script for Android.") + Each("    ", names, ";")
      + [AndroidComment] + Each("    ", AndroidExports, ";") + ScriptFoot
  }

  /** The Android script is the Linux one under its own comment line, with
      the introspection block inserted right before `local:`. */
  lemma AndroidInsertion(names: seq<string>)
    ensures var lds := LdsLines(names);
      var n := 4 + |names|;
      AndroidLdsLines(names) == ["# Linker script for Android."] + lds[1..n]
        + ([AndroidComment] + Each("    ", AndroidExports, ";")) + lds[n..]
  {
    var body := Each("    ", names, ";");
    var lds := LdsLines(names);
    var n := 4 + |names|;
    assert lds[1..n] == ScriptHead("# Linker script for Linux.")[1..] + body;
    assert lds[n..] == ScriptFoot;
  }

  /** No generic line of a version script exports an introspection
      function, so the Android script exports each of them once. */
  lemma NoIntrospectionInGeneric(found: seq<string>, k: nat, a: nat)
    requires k < |Generic(found)| && a < |AndroidExports|
    ensures LdsLines(Generic(found))[4 + k] != "    " + AndroidExports[a] + ";"
  {
    var names := Generic(found);
    assert LdsLines(names)[4 + k] == "    " + names[k] + ";";
    assert names[k] != AndroidExports[a];
    WrappedDiffer("    ", names[k], AndroidExports[a], ";");
  }

  lemma WrappedDiffer(prefix: string, x: string, y: string, suffix: string)
    requires x != y
    ensures prefix + x + suffix != prefix + y + suffix
  {
    var s, t := prefix + x + suffix, prefix + y + suffix;
    if |x| != |y| {
      assert |s| != |t|;
    } else {
      var i :| 0 <= i < |x| && x[i] != y[i];
      assert s[|prefix| + i] == x[i] && t[|prefix| + i] == y[i];
    }
  }

  /** Both version scripts end with the `};` line. */
  lemma ScriptsEndWithClose(names: seq<string>)
    ensures EndsWith(Terminated(LdsLines(names)), "};\n")
    ensures EndsWith(Terminated(AndroidLdsLines(names)), "};\n")
  {
    var lds, android := LdsLines(names), AndroidLdsLines(names);
    var n, m := |lds|, |android|;
    assert lds == lds[..n - 1] + ["};"];
    assert android == android[..m - 1] + ["};"];
    TerminatedAppend(lds[..n - 1], "};");
    TerminatedAppend(android[..m - 1], "};");
  }

  // ---------------------------------------------------------------------
  // Rendering, one `+=` per line

  /** `contents += line + "\n"`; `lines` are the lines written so far. */
  method AddLine(contents: string, ghost lines: seq<string>, line: string)
    returns (r: string, ghost written: seq<string>)
    requires contents == Terminated(lines)
    ensures written == lines + [line] && r == Terminated(written)
  {
    r := contents + line + "\n";
    written := lines + [line];
    TerminatedAppend(lines, line);
  }

  /** The loop `for function in names: contents += f"{prefix}{function}{suffix}\n"`. */
  method AddEach(contents: string, ghost lines: seq<string>, prefix: string, names: seq<string>, suffix: string)
    returns (r: string, ghost written: seq<string>)
    requires contents == Terminated(lines)
    ensures written == lines + Each(prefix, names, suffix) && r == Terminated(written)
  {
    r, written := contents, lines;
    assert names[..0] == [];
    assert lines + Each(prefix, names[..0], suffix) == lines;
    var i := 0;
    while i < |names|
      invariant 0 <= i <= |names|
      invariant written == lines + Each(prefix, names[..i], suffix) && r == Terminated(written)
    {
      assert names[..i + 1][..i] == names[..i];
      assert lines + Each(prefix, names[..i + 1], suffix) == written + [prefix + names[i] + suffix];
      r, written := AddLine(r, written, prefix + names[i] + suffix);
      i := i + 1;
    }
    assert names[..i] == names;
  }

  method RenderDef(layer: string, names: seq<string>) returns (contents: string)
    ensures contents == Terminated(DefLines(layer, names))
  {
    ghost var lines: seq<string> := [];
    contents, lines := AddLine("", lines, "; Linker script for MSVC.");
    contents, lines := AddLine(contents, lines, "; Generated file; do not edit.");
    contents, lines := AddLine(contents, lines, "LIBRARY " + layer);
    contents, lines := AddLine(contents, lines, "EXPORTS");
    assert lines == DefHead(layer);
    contents, lines := AddEach(contents, lines, "    ", names, "");
  }

  method RenderExports(names: seq<string>) returns (contents: string)
    ensures contents == Terminated(ExportsLines(names))
  {
    ghost var lines: seq<string> := [];
    contents, lines := AddLine("", lines, "# Linker script for Apple.");
    contents, lines := AddLine(contents, lines, "# Generated file; do not edit.");
    assert lines == ExportsHead;
    contents, lines := AddEach(contents, lines, "_", names, "");
  }

  /** The four head lines of a version script. */
  method AddScriptHead(comment: string) returns (contents: string)
    ensures contents == Terminated(ScriptHead(comment))
  {
    ghost var lines: seq<string> := [];
    contents, lines := AddLine("", lines, comment);
    contents, lines := AddLine(contents, lines, "# Generated file; do not edit.");
    contents, lines := AddLine(contents, lines, "{");
    contents, lines := AddLine(contents, lines, "global:");
    assert lines == ScriptHead(comment);
  }

  /** The three foot lines of a version script. */
  method AddScriptFoot(contents: string, ghost lines: seq<string>) returns (r: string)
    requires contents == Terminated(lines)
    ensures r == Terminated(lines + ScriptFoot)
  {
    ghost var written;
    r, written := AddLine(contents, lines, "local:");
    r, written := AddLine(r, written, "    *;");
    r, written := AddLine(r, written, "};");
    assert written == lines + ScriptFoot;
  }

  method RenderLds(names: seq<string>) returns (contents: string)
    ensures contents == Terminated(LdsLines(names))
  {
    ghost var lines := ScriptHead("# Linker script for Linux.");
    contents := AddScriptHead("# Linker script for Linux.");
    contents, lines := AddEach(contents, lines, "    ", names, ";");
    contents := AddScriptFoot(contents, lines);
  }

  method RenderAndroidLds(names: seq<string>) returns (contents: string)
    ensures contents == Terminated(AndroidLdsLines(names))
  {
    ghost var lines := ScriptHead("# Linker script for Android.");
    contents := AddScriptHead("# Linker script for Android.");
    contents, lines := AddEach(contents, lines, "    ", names, ";");
    contents, lines := AddLine(contents, lines, AndroidComment);
    contents, lines := AddEach(contents, lines, "    ", AndroidExports, ";");
    contents := AddScriptFoot(contents, lines);
  }
}
