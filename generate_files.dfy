/** The driver of `generate_files.py`: for every layer directory the
    manifests and then the linker scripts are written, or, in check mode,
    compared with the files already on disk. The file system is a map from
    path to text; a layer directory is given as its path and its C++ source
    files, each as its lines and the export names matched in it. */
module GenerateFiles {
  import opened Wrappers
  import opened Text
  import opened LayerManifests
  import opened LinkerScripts

  /** One generated file: where it goes and what it holds. */
  datatype Artifact = Artifact(path: string, contents: string)

  /** Whether the file on disk exists and already holds the artifact. */
  predicate UpToDate(files: map<string, string>, a: Artifact) {
    a.path in files && files[a.path] == a.contents
  }

  /** One file in one mode: check mode reads and compares, write mode writes. */
  function EmitOne(files: map<string, string>, a: Artifact, checkOnly: bool): (r: (map<string, string>, bool))
    ensures checkOnly ==> r.0 == files
    ensures !checkOnly ==> r.1
  {
    if checkOnly then (files, UpToDate(files, a)) else (files[a.path := a.contents], true)
  }

  /** The files and the `result` flag after emitting `items` in order. */
  function EmitAll(files: map<string, string>, items: seq<Artifact>, checkOnly: bool): (r: (map<string, string>, bool))
  {
    if |items| == 0 then (files, true)
    else
      var prev := EmitAll(files, items[..|items| - 1], checkOnly);
      var last := EmitOne(prev.0, items[|items| - 1], checkOnly);
      (last.0, prev.1 && last.1)
  }

  lemma EmitAllSnoc(files: map<string, string>, done: seq<Artifact>, a: Artifact, checkOnly: bool)
    ensures var prev := EmitAll(files, done, checkOnly);
      var last := EmitOne(prev.0, a, checkOnly);
      EmitAll(files, done + [a], checkOnly) == (last.0, prev.1 && last.1)
  {
    assert (done + [a])[..|done|] == done;
  }

  predicate AllUpToDate(files: map<string, string>, items: seq<Artifact>) {
    forall k :: 0 <= k < |items| ==> UpToDate(files, items[k])
  }

  /** Check mode never writes, and it passes exactly when every artifact's
      file exists and holds the rendered text. */
  lemma {:induction false} CheckModeOnly(files: map<string, string>, items: seq<Artifact>)
    ensures EmitAll(files, items, true).0 == files
    ensures EmitAll(files, items, true).1 <==> AllUpToDate(files, items)
    decreases |items|
  {
    if |items| > 0 {
      var init := items[..|items| - 1];
      CheckModeOnly(files, init);
      assert forall k :: 0 <= k < |init| ==> init[k] == items[k];
    }
  }

  /** Write mode always passes, leaves every other file alone, and each
      file holds the last artifact written to its path. */
  lemma {:induction false} WriteModeWrites(files: map<string, string>, items: seq<Artifact>, k: nat)
    requires k < |items|
    requires forall j :: k < j < |items| ==> items[j].path != items[k].path
    ensures EmitAll(files, items, false).1
    ensures UpToDate(EmitAll(files, items, false).0, items[k])
    decreases |items|
  {
    var init := items[..|items| - 1];
    if k < |items| - 1 {
      WriteModeWrites(files, init, k);
    } else if |init| > 0 {
      WriteModeWrites(files, init, |init| - 1);
    }
  }

  lemma {:induction false} WriteModeKeepsOthers(files: map<string, string>, items: seq<Artifact>, path: string)
    requires path in files
    requires forall j :: 0 <= j < |items| ==> items[j].path != path
    ensures var r := EmitAll(files, items, false).0; path in r && r[path] == files[path]
    decreases |items|
  {
    if |items| > 0 {
      WriteModeKeepsOthers(files, items[..|items| - 1], path);
    }
  }

  /** The file system, read by `is_file`/`read_text` and changed by `write_text`. */
  class FileSystem {
    var files: map<string, string>

    constructor (initial: map<string, string>)
      ensures files == initial
    {
      files := initial;
    }

    /** The check-or-write block that ends each artifact in the source. */
    method Emit(a: Artifact, checkOnly: bool) returns (ok: bool)
      modifies this
      ensures (files, ok) == EmitOne(old(files), a, checkOnly)
    {
      if checkOnly {
        ok := a.path in files && files[a.path] == a.contents;
      } else {
        files := files[a.path := a.contents];
        ok := true;
      }
    }
  }

  // ---------------------------------------------------------------------
  // generate_manifests

  function ManifestArtifact(dir: string, f: Fields, p: Platform): Artifact
    requires Complete(f)
  {
    var name := f.layerName.value;
    Artifact(ManifestPath(dir, name, p),
             Manifest(name, f.specVersion.value, f.implementationVersion.value, f.description.value, p))
  }

  /** The three manifests, in platform order. */
  function ManifestArtifacts(dir: string, f: Fields): (r: seq<Artifact>)
    requires Complete(f)
    ensures |r| == |Platforms|
  {
    seq(|Platforms|, i requires 0 <= i < |Platforms| => ManifestArtifact(dir, f, Platforms[i]))
  }

  method GenerateManifests(fsys: FileSystem, dir: string, props: LayerProperties,
                           sources: seq<seq<string>>, checkOnly: bool) returns (r: Result<bool>)
    modifies fsys, props
    ensures var scan := ScanFiles(old(props.Value()), sources);
      r.Ok? <==> scan.Ok? && Complete(scan.value)
    ensures ScanFiles(old(props.Value()), sources).Ok? ==> props.Value() == ScanFiles(old(props.Value()), sources).value
    ensures r.Ok? ==> (fsys.files, r.value) == EmitAll(old(fsys.files), ManifestArtifacts(dir, props.Value()), checkOnly)
    ensures r.Err? ==> fsys.files == old(fsys.files)
  {
    var extracted := props.ExtractProperties(sources);
    if extracted.Err? {
      return Err(extracted.reason);
    }
    r := WriteManifests(fsys, dir, props.Value(), checkOnly);
  }

  /** The platform loop of `generate_manifests`, over the fields read. */
  method WriteManifests(fsys: FileSystem, dir: string, f: Fields, checkOnly: bool) returns (r: Result<bool>)
    modifies fsys
    ensures r.Ok? <==> Complete(f)
    ensures r.Ok? ==> (fsys.files, r.value) == EmitAll(old(fsys.files), ManifestArtifacts(dir, f), checkOnly)
    ensures r.Err? ==> fsys.files == old(fsys.files)
  {
    ghost var start := fsys.files;
    ghost var done: seq<Artifact> := [];
    var result := true;
    var i := 0;
    while i < |Platforms|
      invariant 0 <= i <= |Platforms|
      invariant i > 0 ==> Complete(f) && done == ManifestArtifacts(dir, f)[..i]
      invariant i == 0 ==> done == [] && fsys.files == start
      invariant (fsys.files, result) == EmitAll(start, done, checkOnly)
    {
      var contents := RenderManifest(f, Platforms[i]);
      if contents.Err? {
        return Err(contents.reason);
      }
      result, done := EmitManifest(fsys, dir, f, i, contents.value, checkOnly, result, start, done);
      i := i + 1;
    }
    assert done == ManifestArtifacts(dir, f);
    r := Ok(result);
  }

  /** One platform's check-or-write, and `result` updated. */
  method EmitManifest(fsys: FileSystem, dir: string, f: Fields, i: nat, contents: string, checkOnly: bool,
                      result: bool, ghost start: map<string, string>, ghost done: seq<Artifact>)
    returns (result': bool, ghost done': seq<Artifact>)
    modifies fsys
    requires Complete(f) && i < |Platforms| && done == ManifestArtifacts(dir, f)[..i]
    requires RenderManifest(f, Platforms[i]) == Ok(contents)
    requires (fsys.files, result) == EmitAll(start, done, checkOnly)
    ensures done' == ManifestArtifacts(dir, f)[..i + 1]
    ensures (fsys.files, result') == EmitAll(start, done', checkOnly)
  {
    var a := Artifact(ManifestPath(dir, f.layerName.value, Platforms[i]), contents);
    ManifestArtifactAt(dir, f, i, a);
    var ok := fsys.Emit(a, checkOnly);
    EmitAllSnoc(start, done, a, checkOnly);
    result', done' := result && ok, done + [a];
  }

  lemma ManifestArtifactAt(dir: string, f: Fields, i: nat, a: Artifact)
    requires Complete(f) && i < |Platforms|
    requires a == Artifact(ManifestPath(dir, f.layerName.value, Platforms[i]), RenderManifest(f, Platforms[i]).value)
    ensures ManifestArtifacts(dir, f)[..i + 1] == ManifestArtifacts(dir, f)[..i] + [a]
  {
    assert ManifestArtifacts(dir, f)[i] == a;
  }

  // ---------------------------------------------------------------------
  // generate_linker_scripts

  /** The four export lists, in the order they are written. */
  function ScriptArtifacts(dir: string, layer: string, names: seq<string>): (r: seq<Artifact>)
    ensures |r| == 4
    ensures r[0].path == dir + "/" + layer + ".def" && r[1].path == dir + "/" + layer + ".exports"
    ensures r[2].path == dir + "/" + layer + ".lds" && r[3].path == dir + "/" + layer + "_android.lds"
  {
    [ Artifact(dir + "/" + layer + ".def", Terminated(DefLines(layer, names))),
      Artifact(dir + "/" + layer + ".exports", Terminated(ExportsLines(names))),
      Artifact(dir + "/" + layer + ".lds", Terminated(LdsLines(names))),
      Artifact(dir + "/" + layer + "_android.lds", Terminated(AndroidLdsLines(names))) ]
  }

  method GenerateLinkerScripts(fsys: FileSystem, dir: string, layer: string, found: seq<seq<string>>,
                               checkOnly: bool) returns (result: bool)
    modifies fsys
    ensures (fsys.files, result) == EmitAll(old(fsys.files), ScriptArtifacts(dir, layer, Generic(Flatten(found))), checkOnly)
  {
    var names := CollectExports(found);
    ghost var start := fsys.files;
    ghost var done: seq<Artifact> := [];
    result := true;

    var contents := RenderDef(layer, names);
    result, done := EmitNext(fsys, Artifact(dir + "/" + layer + ".def", contents), checkOnly, result, start, done);
    contents := RenderExports(names);
    result, done := EmitNext(fsys, Artifact(dir + "/" + layer + ".exports", contents), checkOnly, result, start, done);
    contents := RenderLds(names);
    result, done := EmitNext(fsys, Artifact(dir + "/" + layer + ".lds", contents), checkOnly, result, start, done);
    contents := RenderAndroidLds(names);
    result, done := EmitNext(fsys, Artifact(dir + "/" + layer + "_android.lds", contents), checkOnly, result, start, done);

    FourInOrder(done[0], done[1], done[2], done[3]);
  }

  lemma FourInOrder(a: Artifact, b: Artifact, c: Artifact, d: Artifact)
    ensures [] + [a] + [b] + [c] + [d] == [a, b, c, d]
  {
  }

  /** One check-or-write block, and `result` updated. */
  method EmitNext(fsys: FileSystem, a: Artifact, checkOnly: bool, result: bool,
                  ghost start: map<string, string>, ghost done: seq<Artifact>)
    returns (result': bool, ghost done': seq<Artifact>)
    modifies fsys
    requires (fsys.files, result) == EmitAll(start, done, checkOnly)
    ensures done' == done + [a]
    ensures (fsys.files, result') == EmitAll(start, done', checkOnly)
  {
    var ok := fsys.Emit(a, checkOnly);
    EmitAllSnoc(start, done, a, checkOnly);
    result', done' := result && ok, done + [a];
  }

  // ---------------------------------------------------------------------
  // main

  /** A source file: its lines, and the export names the export pattern
      matches in it, in order. */
  datatype SourceFile = SourceFile(lines: seq<string>, exports: seq<string>)

  /** A layer directory and its C++ source files. */
  datatype LayerDir = LayerDir(path: string, sources: seq<SourceFile>)

  function LinesOf(sources: seq<SourceFile>): (r: seq<seq<string>>)
    ensures |r| == |sources| && forall k :: 0 <= k < |r| ==> r[k] == sources[k].lines
  {
    seq(|sources|, k requires 0 <= k < |sources| => sources[k].lines)
  }

  function ExportsOf(sources: seq<SourceFile>): (r: seq<seq<string>>)
    ensures |r| == |sources| && forall k :: 0 <= k < |r| ==> r[k] == sources[k].exports
  {
    seq(|sources|, k requires 0 <= k < |sources| => sources[k].exports)
  }

  /** A layer's identity, read from fresh `LayerProperties`; it fails when
      a marker line does not match or a field is never found. */
  function Identity(layer: LayerDir): (r: Result<Fields>)
    ensures r.Ok? ==> Complete(r.value)
  {
    match ScanFiles(Unset, LinesOf(layer.sources))
    case Err(e) => Err(e)
    case Ok(f) => if Complete(f) then Ok(f) else Err("a layer property was not found")
  }

  /** How a run ends: every check passed (or everything was written), some
      check failed (`AssertionError("Checks failed. See above.")`), or an
      exception stopped the run. */
  datatype Outcome = Completed | ChecksFailed | Aborted

  /** The process exit status: 0 on success, 1 for the uncaught exception.
      The `--check_only` help text promises 2 for files that would change;
      the code exits with 1. */
  function ExitStatus(o: Outcome): (r: int)
    ensures r == 0 <==> o == Completed
  {
    if o == Completed then 0 else 1
  }

  /** What one layer amounts to: it cannot be handled when its identity
      cannot be read; otherwise its manifests and then its export lists
      are emitted. */
  datatype Plan = Unreadable | Emits(artifacts: seq<Artifact>)

  /** Every artifact of a layer: its manifests, then its export lists. */
  function LayerArtifacts(layer: LayerDir, f: Fields): (r: seq<Artifact>)
    requires Complete(f)
    ensures |r| == |Platforms| + 4
  {
    ManifestArtifacts(layer.path, f)
      + ScriptArtifacts(layer.path, f.layerName.value, Generic(Flatten(ExportsOf(layer.sources))))
  }

  function PlanOf(layer: LayerDir): (r: Plan)
    ensures r.Emits? <==> Identity(layer).Ok?
  {
    match Identity(layer)
    case Err(_) => Unreadable
    case Ok(f) => Emits(LayerArtifacts(layer, f))
  }

  /** The files and the outcome after one more layer: nothing happens once
      the run has aborted; an unreadable layer aborts it; otherwise the
      layer's artifacts are emitted and a failed check turns the outcome to
      `ChecksFailed`. */
  function Step(state: (map<string, string>, Outcome), plan: Plan, checkOnly: bool): (r: (map<string, string>, Outcome))
    ensures state.1 == Aborted ==> r == state
    ensures r.1 == Aborted <==> state.1 == Aborted || plan.Unreadable?
    ensures r.1 == Completed ==> state.1 == Completed
  {
    if state.1 == Aborted then state
    else
      match plan
      case Unreadable => (state.0, Aborted)
      case Emits(items) =>
        var e := EmitAll(state.0, items, checkOnly);
        (e.0, if state.1 == Completed && e.1 then Completed else ChecksFailed)
  }

  /** The files and the outcome after handling layers in order, given what
      each layer amounts to. A layer that aborts ends the run, keeping what
      earlier layers wrote; a failed check does not stop later layers. */
  function RunSpec(files: map<string, string>, plans: seq<Plan>, checkOnly: bool): (r: (map<string, string>, Outcome))
  {
    if |plans| == 0 then (files, Completed)
    else Step(RunSpec(files, plans[..|plans| - 1], checkOnly), plans[|plans| - 1], checkOnly)
  }

  /** The loop of `main` over the layer directories. */
  method Run(fsys: FileSystem, layers: seq<LayerDir>, checkOnly: bool) returns (outcome: Outcome)
    modifies fsys
    ensures (fsys.files, outcome) == RunSpec(old(fsys.files), PlansOf(layers), checkOnly)
  {
    ghost var start := fsys.files;
    ghost var plans: seq<Plan> := [];
    var result := true;
    var i := 0;
    while i < |layers|
      invariant 0 <= i <= |layers|
      invariant plans == PlansOf(layers[..i])
      invariant RunSpec(start, plans, checkOnly) == (fsys.files, if result then Completed else ChecksFailed)
    {
      outcome, plans := RunNext(fsys, layers, i, checkOnly, result, start, plans);
      if outcome == Aborted {
        AbortEndsRun(start, layers, i + 1, checkOnly);
        return;
      }
      result := outcome == Completed;
      i := i + 1;
    }
    assert layers[..i] == layers;
    outcome := if result then Completed else ChecksFailed;
  }

  /** One turn of the layer loop, with the run so far recorded in `plans`. */
  method RunNext(fsys: FileSystem, layers: seq<LayerDir>, i: nat, checkOnly: bool, result: bool,
                 ghost start: map<string, string>, ghost plans: seq<Plan>)
    returns (outcome: Outcome, ghost plans': seq<Plan>)
    modifies fsys
    requires i < |layers| && plans == PlansOf(layers[..i])
    requires RunSpec(start, plans, checkOnly) == (fsys.files, if result then Completed else ChecksFailed)
    ensures plans' == PlansOf(layers[..i + 1])
    ensures RunSpec(start, plans', checkOnly) == (fsys.files, outcome)
  {
    ghost var plan;
    outcome, plan := RunLayer(fsys, layers[i], checkOnly, result);
    PlansOfSnoc(layers, i);
    RunSpecSnoc(start, plans, plan, checkOnly);
    plans' := plans + [plan];
  }

  /** The body of the layer loop in `main`: fresh `LayerProperties`, then
      `result &= generate_manifests(...)` and
      `result &= generate_linker_scripts(...)`; an exception aborts. */
  method RunLayer(fsys: FileSystem, layer: LayerDir, checkOnly: bool, result: bool)
    returns (outcome: Outcome, ghost plan: Plan)
    modifies fsys
    ensures plan == PlanOf(layer)
    ensures (fsys.files, outcome) == Step((old(fsys.files), if result then Completed else ChecksFailed), plan, checkOnly)
  {
    plan := PlanOf(layer);
    var manifests, f := EmitLayerManifests(fsys, layer, checkOnly);
    if manifests.Err? {
      UnreadableStep(layer, old(fsys.files), if result then Completed else ChecksFailed, checkOnly);
      return Aborted, plan;
    }
    outcome := FinishLayer(fsys, layer, f, checkOnly, if result then Completed else ChecksFailed,
                           manifests.value, old(fsys.files));
  }

  /** A layer's manifests, from a fresh `LayerProperties` read from the
      layer's sources. */
  method EmitLayerManifests(fsys: FileSystem, layer: LayerDir, checkOnly: bool) returns (r: Result<bool>, f: Fields)
    modifies fsys
    ensures r.Ok? <==> ScanFiles(Unset, LinesOf(layer.sources)).Ok? && Complete(ScanFiles(Unset, LinesOf(layer.sources)).value)
    ensures r.Ok? ==> ScanFiles(Unset, LinesOf(layer.sources)) == Ok(f)
    ensures r.Ok? ==> Complete(f) && (fsys.files, r.value) == EmitAll(old(fsys.files), ManifestArtifacts(layer.path, f), checkOnly)
    ensures r.Err? ==> fsys.files == old(fsys.files)
  {
    var props := new LayerProperties();
    r := GenerateManifests(fsys, layer.path, props, LinesOf(layer.sources), checkOnly);
    f := props.Value();
  }

  /** The rest of a layer once its manifests are emitted: the export lists,
      and `result` updated. */
  method FinishLayer(fsys: FileSystem, layer: LayerDir, f: Fields, checkOnly: bool, prior: Outcome,
                     manifests: bool, ghost before: map<string, string>) returns (outcome: Outcome)
    modifies fsys
    requires ScanFiles(Unset, LinesOf(layer.sources)) == Ok(f) && Complete(f) && prior != Aborted
    requires (fsys.files, manifests) == EmitAll(before, ManifestArtifacts(layer.path, f), checkOnly)
    ensures (fsys.files, outcome) == Step((before, prior), PlanOf(layer), checkOnly)
  {
    ghost var mid := fsys.files;
    var scripts := GenerateLinkerScripts(fsys, layer.path, f.layerName.value, ExportsOf(layer.sources), checkOnly);
    outcome := if prior == Completed && manifests && scripts then Completed else ChecksFailed;
    ReadableStep(layer, f, checkOnly, before, prior, mid, manifests, fsys.files, scripts);
  }

  /** A readable layer's step is its manifests, then its export lists. */
  lemma ReadableStep(layer: LayerDir, f: Fields, checkOnly: bool, before: map<string, string>, prior: Outcome,
                     mid: map<string, string>, manifests: bool, after: map<string, string>, scripts: bool)
    requires ScanFiles(Unset, LinesOf(layer.sources)) == Ok(f) && Complete(f) && prior != Aborted
    requires (mid, manifests) == EmitAll(before, ManifestArtifacts(layer.path, f), checkOnly)
    requires (after, scripts) == EmitAll(mid, ScriptArtifacts(layer.path, f.layerName.value, Generic(Flatten(ExportsOf(layer.sources)))), checkOnly)
    ensures Step((before, prior), PlanOf(layer), checkOnly)
      == (after, if prior == Completed && manifests && scripts then Completed else ChecksFailed)
  {
    PlanReadable(layer, f);
    EmitAllConcat(before, ManifestArtifacts(layer.path, f),
                  ScriptArtifacts(layer.path, f.layerName.value, Generic(Flatten(ExportsOf(layer.sources)))), checkOnly);
  }

  /** An unreadable layer aborts the run and writes nothing. */
  lemma UnreadableStep(layer: LayerDir, files: map<string, string>, prior: Outcome, checkOnly: bool)
    requires !(ScanFiles(Unset, LinesOf(layer.sources)).Ok? && Complete(ScanFiles(Unset, LinesOf(layer.sources)).value))
    ensures Step((files, prior), PlanOf(layer), checkOnly) == (files, Aborted)
  {
  }

  lemma PlanReadable(layer: LayerDir, f: Fields)
    requires ScanFiles(Unset, LinesOf(layer.sources)) == Ok(f) && Complete(f)
    ensures PlanOf(layer) == Emits(LayerArtifacts(layer, f))
  {
  }

  /** Emitting two lists is emitting the first, then the second from there. */
  lemma {:induction false} EmitAllConcat(files: map<string, string>, a: seq<Artifact>, b: seq<Artifact>, checkOnly: bool)
    ensures var first := EmitAll(files, a, checkOnly);
      var second := EmitAll(first.0, b, checkOnly);
      EmitAll(files, a + b, checkOnly) == (second.0, first.1 && second.1)
    decreases |b|
  {
    if |b| == 0 {
      assert a + b == a;
    } else {
      var b' := b[..|b| - 1];
      assert (a + b)[..|a + b| - 1] == a + b';
      EmitAllConcat(files, a, b', checkOnly);
    }
  }

  /** What each of `layers` amounts to, in order. */
  function PlansOf(layers: seq<LayerDir>): (r: seq<Plan>)
    ensures |r| == |layers|
  {
    if |layers| == 0 then [] else PlansOf(layers[..|layers| - 1]) + [PlanOf(layers[|layers| - 1])]
  }

  lemma PlansOfSnoc(layers: seq<LayerDir>, i: nat)
    requires i < |layers|
    ensures PlansOf(layers[..i + 1]) == PlansOf(layers[..i]) + [PlanOf(layers[i])]
  {
    assert layers[..i + 1][..i] == layers[..i];
  }

  lemma {:induction false} PlansOfAppend(a: seq<LayerDir>, b: seq<LayerDir>)
    ensures PlansOf(a + b) == PlansOf(a) + PlansOf(b)
    decreases |b|
  {
    if |b| == 0 {
      assert a + b == a;
    } else {
      assert (a + b)[..|a + b| - 1] == a + b[..|b| - 1];
      PlansOfAppend(a, b[..|b| - 1]);
    }
  }

  /** Each plan is the plan of the layer at the same position. */
  lemma {:induction false} PlansOfAt(layers: seq<LayerDir>, k: nat)
    requires k < |layers|
    ensures PlansOf(layers)[k] == PlanOf(layers[k])
    decreases |layers|
  {
    if k < |layers| - 1 {
      PlansOfAt(layers[..|layers| - 1], k);
    }
  }

  lemma RunSpecSnoc(files: map<string, string>, plans: seq<Plan>, plan: Plan, checkOnly: bool)
    ensures RunSpec(files, plans + [plan], checkOnly) == Step(RunSpec(files, plans, checkOnly), plan, checkOnly)
  {
    assert (plans + [plan])[..|plans|] == plans;
  }

  /** Once a layer aborts the run, later layers change nothing. */
  lemma {:induction false} AbortIsFinal(files: map<string, string>, done: seq<Plan>, more: seq<Plan>, checkOnly: bool)
    requires RunSpec(files, done, checkOnly).1 == Aborted
    ensures RunSpec(files, done + more, checkOnly) == RunSpec(files, done, checkOnly)
    decreases |more|
  {
    if |more| == 0 {
      assert done + more == done;
    } else {
      assert (done + more)[..|done + more| - 1] == done + more[..|more| - 1];
      AbortIsFinal(files, done, more[..|more| - 1], checkOnly);
    }
  }

  /** A run that aborts after the first `n` layers ends there. */
  lemma AbortEndsRun(files: map<string, string>, layers: seq<LayerDir>, n: nat, checkOnly: bool)
    requires n <= |layers| && RunSpec(files, PlansOf(layers[..n]), checkOnly).1 == Aborted
    ensures RunSpec(files, PlansOf(layers), checkOnly) == RunSpec(files, PlansOf(layers[..n]), checkOnly)
  {
    PlansOfSplit(layers, n);
    AbortIsFinal(files, PlansOf(layers[..n]), PlansOf(layers[n..]), checkOnly);
  }

  lemma PlansOfSplit(layers: seq<LayerDir>, n: nat)
    requires n <= |layers|
    ensures PlansOf(layers) == PlansOf(layers[..n]) + PlansOf(layers[n..])
  {
    PlansOfAppend(layers[..n], layers[n..]);
    TakeDrop(layers, n);
  }

  lemma TakeDrop(layers: seq<LayerDir>, n: nat)
    requires n <= |layers|
    ensures layers[..n] + layers[n..] == layers
  {
  }

  /** A run aborts exactly when some layer cannot be read. */
  lemma {:induction false} AbortsIffUnreadable(files: map<string, string>, plans: seq<Plan>, checkOnly: bool)
    ensures RunSpec(files, plans, checkOnly).1 == Aborted <==> exists k :: 0 <= k < |plans| && plans[k].Unreadable?
    decreases |plans|
  {
    if |plans| > 0 {
      var init := plans[..|plans| - 1];
      AbortsIffUnreadable(files, init, checkOnly);
      assert forall k :: 0 <= k < |init| ==> init[k] == plans[k];
    }
  }

  /** A check-mode run never writes. */
  lemma {:induction false} CheckRunNeverWrites(files: map<string, string>, plans: seq<Plan>)
    ensures RunSpec(files, plans, true).0 == files
    decreases |plans|
  {
    if |plans| > 0 {
      CheckRunNeverWrites(files, plans[..|plans| - 1]);
      if plans[|plans| - 1].Emits? {
        CheckModeOnly(files, plans[|plans| - 1].artifacts);
      }
    }
  }

  /** A write-mode run never reports a failed check. */
  lemma {:induction false} WriteRunNeverFailsChecks(files: map<string, string>, plans: seq<Plan>)
    ensures RunSpec(files, plans, false).1 != ChecksFailed
    decreases |plans|
  {
    if |plans| > 0 {
      var init := plans[..|plans| - 1];
      WriteRunNeverFailsChecks(files, init);
      if plans[|plans| - 1].Emits? {
        WriteModePasses(RunSpec(files, init, false).0, plans[|plans| - 1].artifacts);
      }
    }
  }

  lemma {:induction false} WriteModePasses(files: map<string, string>, items: seq<Artifact>)
    ensures EmitAll(files, items, false).1
    decreases |items|
  {
    if |items| > 0 {
      WriteModePasses(files, items[..|items| - 1]);
    }
  }

  /** When every layer can be read, a check-mode run passes exactly when
      every artifact of every layer is already on disk: each artifact is
      checked, and the results are combined across layers. */
  lemma {:induction false} CheckRunVerdict(files: map<string, string>, plans: seq<Plan>)
    requires forall k :: 0 <= k < |plans| ==> plans[k].Emits?
    ensures RunSpec(files, plans, true).1 != Aborted
    ensures RunSpec(files, plans, true).1 == Completed <==>
      forall k :: 0 <= k < |plans| ==> AllUpToDate(files, plans[k].artifacts)
    decreases |plans|
  {
    if |plans| > 0 {
      var init := plans[..|plans| - 1];
      assert forall k :: 0 <= k < |init| ==> init[k] == plans[k];
      CheckRunVerdict(files, init);
      CheckRunNeverWrites(files, init);
      CheckModeOnly(files, plans[|plans| - 1].artifacts);
    }
  }
}
