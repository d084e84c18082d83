/** The capture side of the amber-scoop layer: the part of `GlobalData` the
    draw-call handler reads and writes (settings, the global draw-call
    counter, the files written), and `DrawCallTracker`, which replays a
    submitted command buffer and writes one Amber file per captured draw. */
module DrawCallTracker {
  import opened Wrappers
  import opened Text
  import opened VulkanCommands

  /** `uint64_t` arithmetic wraps modulo 2^64. */
  const Uint64Modulus: nat := 0x1_0000_0000_0000_0000

  /** `AmberScoopLayerSettings`. */
  datatype Settings = Settings(init: bool, startDrawCall: nat, lastDrawCall: nat, outputFilePrefix: string)

  const DefaultSettings := Settings(false, 0, 0, "amber_scoop_output")

  /** Whether draw call number `n` lies in the capture window; both ends
      are inclusive. */
  predicate Captured(settings: Settings, n: nat) {
    settings.startDrawCall <= n <= settings.lastDrawCall
  }

  /** `<prefix>_<n>.amber`. */
  function AmberFileName(prefix: string, n: nat): string
  {
    prefix + "_" + NatToString(n) + ".amber"
  }

  /** Distinct draw calls write distinct files. */
  lemma AmberFileNameInjective(prefix: string, m: nat, n: nat)
    requires AmberFileName(prefix, m) == AmberFileName(prefix, n)
    ensures m == n
  {
    var a := AmberFileName(prefix, m);
    var b := AmberFileName(prefix, n);
    var k := |prefix| + 1;
    assert |NatToString(m)| == |a| - k - 6 == |NatToString(n)|;
    assert a[k..|a| - 6] == NatToString(m);
    assert b[k..|b| - 6] == NatToString(n);
    NatToStringInjective(m, n);
  }

  /** The words of the RUN line, before they are joined by single spaces. The
      primitive topology is still the placeholder `TODO`. */
  function RunLineWords(a: DrawArgs): seq<string>
  {
    ["RUN", "pipeline", "DRAW_ARRAY", "AS", "TODO"]
    + (if a.indexCount > 0
       then ["INDEXED", "START_IDX", NatToString(a.firstIndex), "COUNT", NatToString(a.indexCount)]
       else [])
    + (if a.instanceCount > 0
       then ["START_INSTANCE", NatToString(a.firstInstance), "INSTANCE_COUNT", NatToString(a.instanceCount)]
       else [])
  }

  /** The RUN line the handler streams out for a captured draw. */
  function RunLine(a: DrawArgs): string
  {
    Join(RunLineWords(a), " ")
  }

  /** What a RUN line says about a draw: the index range and the instance
      range, each present only when its count is not zero. */
  datatype RunFields = RunFields(indexRange: Option<(nat, nat)>, instanceRange: Option<(nat, nat)>)

  function RunFieldsOf(a: DrawArgs): RunFields {
    RunFields(
      if a.indexCount > 0 then Some((a.firstIndex, a.indexCount)) else None,
      if a.instanceCount > 0 then Some((a.firstInstance, a.instanceCount)) else None)
  }

  /** Reads a RUN line back into its fields; `None` for any other line. */
  function ParseRunLine(line: string): Option<RunFields>
  {
    ParseRunWords(Split(line, ' '))
  }

  function ParseRunWords(w: seq<string>): Option<RunFields>
  {
    if |w| < 5 || w[..5] != ["RUN", "pipeline", "DRAW_ARRAY", "AS", "TODO"] then None
    else
      var rest := w[5..];
      var indexed := |rest| >= 5 && rest[0] == "INDEXED" && rest[1] == "START_IDX" && rest[3] == "COUNT"
                     && ParseNat(rest[2]).Some? && ParseNat(rest[4]).Some?;
      var rest2 := if indexed then rest[5..] else rest;
      var instanced := |rest2| >= 4 && rest2[0] == "START_INSTANCE" && rest2[2] == "INSTANCE_COUNT"
                       && ParseNat(rest2[1]).Some? && ParseNat(rest2[3]).Some?;
      var rest3 := if instanced then rest2[4..] else rest2;
      if |rest3| != 0 then None
      else Some(RunFields(
        if indexed then Some((ParseNat(rest[2]).value, ParseNat(rest[4]).value)) else None,
        if instanced then Some((ParseNat(rest2[1]).value, ParseNat(rest2[3]).value)) else None))
  }

  /** The RUN line says INDEXED exactly when the index count is positive and
      START_INSTANCE exactly when the instance count is positive, and the
      numbers it prints are the draw's own. */
  lemma ParseRunLineOfRunLine(a: DrawArgs)
    ensures ParseRunLine(RunLine(a)) == Some(RunFieldsOf(a))
  {
    RunLineWordsHaveNoSpace(a);
    SplitJoin(RunLineWords(a), ' ');
    ParseRunWordsOfRunLineWords(a);
  }

  lemma RunLineWordsHaveNoSpace(a: DrawArgs)
    ensures forall i :: 0 <= i < |RunLineWords(a)| ==> ' ' !in RunLineWords(a)[i]
  {
    var w := RunLineWords(a);
    forall i | 0 <= i < |w|
      ensures ' ' !in w[i]
    {
      if AllDigits(w[i]) {
        assert forall j :: 0 <= j < |w[i]| ==> IsDigit(w[i][j]);
      }
    }
  }

  lemma ParseRunWordsOfRunLineWords(a: DrawArgs)
    ensures ParseRunWords(RunLineWords(a)) == Some(RunFieldsOf(a))
  {
    var head := ["RUN", "pipeline", "DRAW_ARRAY", "AS", "TODO"];
    var idx := ["INDEXED", "START_IDX", NatToString(a.firstIndex), "COUNT", NatToString(a.indexCount)];
    var inst := ["START_INSTANCE", NatToString(a.firstInstance), "INSTANCE_COUNT", NatToString(a.instanceCount)];
    var w := RunLineWords(a);
    ParseNatToString(a.firstIndex);
    ParseNatToString(a.indexCount);
    ParseNatToString(a.firstInstance);
    ParseNatToString(a.instanceCount);
    assert w[..5] == head;
    if a.indexCount > 0 {
      assert w[5..][..5] == idx;
      if a.instanceCount > 0 {
        assert w[5..][5..] == inst;
      } else {
        assert w[5..][5..] == [];
      }
    } else {
      if a.instanceCount > 0 {
        assert w[5..] == inst;
        assert w[5..][4..] == [];
      } else {
        assert w[5..] == [];
      }
    }
  }

  /** The fixed text of an Amber file ahead of its RUN line: the shader and
      pipeline sections, still placeholders. The second ATTACH line has no
      line break before the pipeline's END. */
  const AmberFileHead: string :=
    "#!amber\n\n"
    + "SHADER vertex vertex_shader SPIRV-ASM\nTODO\nEND\n\n"
    + "SHADER fragment fragment_shader SPIRV-ASM\nTODO\nEND\n\n"
    + "PIPELINE graphics pipeline\n  ATTACH vertex_shader\n  ATTACH fragment_shaderEND\n\n"

  function AmberFile(a: DrawArgs): string
  {
    AmberFileHead + RunLine(a) + "\n"
  }

  /** The counter and the files written so far. */
  datatype CaptureState = CaptureState(currentDrawCall: nat, files: map<string, string>)

  /** One `HandleDrawCall`: the counter always advances (modulo 2^64); a draw
      inside the window also (over)writes its file. */
  function DrawStep(settings: Settings, s: CaptureState, a: DrawArgs): (t: CaptureState)
  {
    var n := s.currentDrawCall;
    var next := (n + 1) % Uint64Modulus;
    if n < settings.startDrawCall || n > settings.lastDrawCall then CaptureState(next, s.files)
    else CaptureState(next, s.files[AmberFileName(settings.outputFilePrefix, n) := AmberFile(a)])
  }

  /** A sequence of `HandleDrawCall`s. */
  function Replay(settings: Settings, s: CaptureState, draws: seq<DrawArgs>): (t: CaptureState)
    decreases |draws|
  {
    if |draws| == 0 then s else DrawStep(settings, Replay(settings, s, draws[..|draws| - 1]), draws[|draws| - 1])
  }

  /** Replaying two lists one after the other is replaying their concatenation. */
  lemma {:induction false} ReplayAppend(settings: Settings, s: CaptureState, a: seq<DrawArgs>, b: seq<DrawArgs>)
    ensures Replay(settings, Replay(settings, s, a), b) == Replay(settings, s, a + b)
    decreases |b|
  {
    if |b| == 0 {
      assert a + b == a;
    } else {
      var init := b[..|b| - 1];
      assert (a + b)[..|a + b| - 1] == a + init;
      ReplayAppend(settings, s, a, init);
    }
  }

  /** The draw-call numbers, in order, that `k` draws starting at counter
      value `c` capture. */
  function CapturedNumbers(settings: Settings, c: nat, k: nat): (r: seq<nat>)
    ensures forall i :: 0 <= i < |r| ==> Captured(settings, r[i])
  {
    if k == 0 then []
    else
      var n := (c + k - 1) % Uint64Modulus;
      CapturedNumbers(settings, c, k - 1) + (if Captured(settings, n) then [n] else [])
  }

  /** After a replay the counter has advanced once per draw, and the files
      written are exactly the old ones plus one per captured number. */
  lemma ReplayEffect(settings: Settings, s: CaptureState, draws: seq<DrawArgs>)
    requires s.currentDrawCall < Uint64Modulus
    ensures Replay(settings, s, draws).currentDrawCall == (s.currentDrawCall + |draws|) % Uint64Modulus
    ensures Replay(settings, s, draws).files.Keys
            == s.files.Keys + (set n | n in CapturedNumbers(settings, s.currentDrawCall, |draws|)
                                 :: AmberFileName(settings.outputFilePrefix, n))
  {
    ReplayCounter(settings, s, draws);
    ReplayFiles(settings, s, draws);
    CapturedFilesOfNumbers(settings, s.currentDrawCall, |draws|);
  }

  lemma {:induction false} ReplayCounter(settings: Settings, s: CaptureState, draws: seq<DrawArgs>)
    requires s.currentDrawCall < Uint64Modulus
    ensures Replay(settings, s, draws).currentDrawCall == (s.currentDrawCall + |draws|) % Uint64Modulus
  {
    if |draws| > 0 {
      var init := draws[..|draws| - 1];
      ReplayCounter(settings, s, init);
      DrawStepEffect(settings, Replay(settings, s, init), draws[|draws| - 1]);
      CounterStep(s.currentDrawCall, |init|);
    }
  }

  /** The files of the captured numbers among `k` draws counted from `c`,
      gathered draw by draw. */
  function CapturedFiles(settings: Settings, c: nat, k: nat): set<string>
  {
    if k == 0 then {}
    else
      var n := (c + k - 1) % Uint64Modulus;
      CapturedFiles(settings, c, k - 1)
      + (if Captured(settings, n) then {AmberFileName(settings.outputFilePrefix, n)} else {})
  }

  lemma {:induction false} CapturedFilesOfNumbers(settings: Settings, c: nat, k: nat)
    ensures CapturedFiles(settings, c, k)
            == set n | n in CapturedNumbers(settings, c, k) :: AmberFileName(settings.outputFilePrefix, n)
  {
    if k > 0 {
      CapturedFilesOfNumbers(settings, c, k - 1);
      CapturedNamesStep(settings, c, k - 1);
    }
  }

  lemma {:induction false} ReplayFiles(settings: Settings, s: CaptureState, draws: seq<DrawArgs>)
    requires s.currentDrawCall < Uint64Modulus
    ensures Replay(settings, s, draws).files.Keys == s.files.Keys + CapturedFiles(settings, s.currentDrawCall, |draws|)
  {
    if |draws| > 0 {
      var init := draws[..|draws| - 1];
      ReplayFiles(settings, s, init);
      ReplayCounter(settings, s, init);
      DrawStepEffect(settings, Replay(settings, s, init), draws[|draws| - 1]);
    }
  }

  /** One draw: the counter advances and a captured number adds its file. */
  lemma DrawStepEffect(settings: Settings, t: CaptureState, a: DrawArgs)
    ensures DrawStep(settings, t, a).currentDrawCall == (t.currentDrawCall + 1) % Uint64Modulus
    ensures DrawStep(settings, t, a).files.Keys
            == t.files.Keys + (if Captured(settings, t.currentDrawCall)
                               then {AmberFileName(settings.outputFilePrefix, t.currentDrawCall)} else {})
  {
  }

  lemma CounterStep(c: nat, k: nat)
    requires c < Uint64Modulus
    ensures ((c + k) % Uint64Modulus + 1) % Uint64Modulus == (c + k + 1) % Uint64Modulus
  {
  }

  /** One more draw adds the file of its number when that number is captured. */
  lemma CapturedNamesStep(settings: Settings, c: nat, k: nat)
    ensures var n := (c + k) % Uint64Modulus;
      (set m | m in CapturedNumbers(settings, c, k + 1) :: AmberFileName(settings.outputFilePrefix, m))
      == (set m | m in CapturedNumbers(settings, c, k) :: AmberFileName(settings.outputFilePrefix, m))
         + (if Captured(settings, n) then {AmberFileName(settings.outputFilePrefix, n)} else {})
  {
  }

  /** Counting from zero past the window, exactly `last - start + 1` draws are
      captured, numbered `start, start + 1, ..., last`. */
  lemma {:induction false} CapturedFromZero(settings: Settings, k: nat)
    requires settings.startDrawCall <= settings.lastDrawCall < k <= Uint64Modulus
    ensures |CapturedNumbers(settings, 0, k)| == settings.lastDrawCall - settings.startDrawCall + 1
    ensures forall i :: 0 <= i < |CapturedNumbers(settings, 0, k)|
              ==> CapturedNumbers(settings, 0, k)[i] == settings.startDrawCall + i
  {
    CapturedPrefix(settings, k);
  }

  lemma {:induction false} CapturedPrefix(settings: Settings, k: nat)
    requires settings.startDrawCall <= settings.lastDrawCall && k <= Uint64Modulus
    ensures var r := CapturedNumbers(settings, 0, k);
            |r| == (if k <= settings.startDrawCall then 0
                    else if k <= settings.lastDrawCall + 1 then k - settings.startDrawCall
                    else settings.lastDrawCall - settings.startDrawCall + 1)
            && forall i :: 0 <= i < |r| ==> r[i] == settings.startDrawCall + i
    decreases k
  {
    if k > 0 {
      CapturedPrefix(settings, k - 1);
      assert (0 + k - 1) % Uint64Modulus == k - 1;
    }
  }

  /** `InitSettingsIfNeeded` with `draw_call_count` copies: the window is
      `draw_call_count + 1` draws wide, because its end is inclusive. */
  lemma WindowWidth(start: nat, count: nat)
    requires start + count < Uint64Modulus
    ensures var s := Settings(true, start, (start + count) % Uint64Modulus, "");
            |CapturedNumbers(s, 0, start + count + 1)| == count + 1
  {
    var s := Settings(true, start, (start + count) % Uint64Modulus, "");
    CapturedFromZero(s, start + count + 1);
  }

  /** The process-wide part of `GlobalData` the capture touches. */
  class GlobalData {
    var settings: Settings
    var currentDrawCall: nat
    /** The Amber files written, by file name. */
    var amberFiles: map<string, string>

    ghost function Capture(): CaptureState
      reads this
    {
      CaptureState(currentDrawCall, amberFiles)
    }

    ghost predicate Valid()
      reads this
    {
      currentDrawCall < Uint64Modulus
    }

    constructor ()
      ensures Valid() && settings == DefaultSettings && currentDrawCall == 0 && amberFiles == map[]
    {
      settings := DefaultSettings;
      currentDrawCall := 0;
      amberFiles := map[];
    }
  }

  class DrawCallTracker {
    const global: GlobalData
    const commandBuffer: Handle
    const queue: Handle
    /** The draw-call state the replay builds up. */
    var currentRenderPass: Option<Handle>
    var currentSubpass: nat
    var graphicsPipeline: Handle

    constructor (global: GlobalData, commandBuffer: Handle, queue: Handle)
      ensures this.global == global && this.commandBuffer == commandBuffer && this.queue == queue
      ensures currentRenderPass == None && currentSubpass == 0 && graphicsPipeline == 0
    {
      this.global := global;
      this.commandBuffer := commandBuffer;
      this.queue := queue;
      currentRenderPass := None;
      currentSubpass := 0;
      graphicsPipeline := 0;
    }

    /** `HandleDrawCall`: with `n` the counter before the call, the counter
        becomes `n + 1` (modulo 2^64), and when `start <= n <= last` the file
        `<prefix>_<n>.amber` is (re)written. */
    method HandleDrawCall(a: DrawArgs)
      requires global.Valid()
      modifies global`currentDrawCall, global`amberFiles
      ensures global.Valid() && global.settings == old(global.settings)
      ensures global.Capture() == DrawStep(global.settings, old(global.Capture()), a)
    {
      var current := global.currentDrawCall;
      if current < global.settings.startDrawCall || current > global.settings.lastDrawCall {
        global.currentDrawCall := (global.currentDrawCall + 1) % Uint64Modulus;
        return;
      }
      global.currentDrawCall := (global.currentDrawCall + 1) % Uint64Modulus;
      var name := global.settings.outputFilePrefix + "_" + NatToString(current) + ".amber";
      global.amberFiles := global.amberFiles[name := AmberFile(a)];
    }

    /** `ProcessSubmittedCommand` of each command kind: a render pass begins,
        a graphics pipeline is bound (other bind points are ignored), or a
        draw is handed to `HandleDrawCall`. */
    method ProcessSubmittedCommand(cmd: Cmd)
      requires global.Valid()
      modifies this, global`currentDrawCall, global`amberFiles
      ensures global.Valid() && global.settings == old(global.settings)
      ensures global.Capture()
              == if IsDrawCall(cmd) then DrawStep(global.settings, old(global.Capture()), DrawArgsOf(cmd))
                 else old(global.Capture())
      ensures cmd.BeginRenderPass? ==> currentRenderPass == Some(cmd.renderPassBegin) && currentSubpass == 0
      ensures cmd.BindPipeline? && cmd.pipelineBindPoint == PipelineBindPointGraphics
              ==> graphicsPipeline == cmd.pipeline
      ensures !cmd.BeginRenderPass? ==> currentRenderPass == old(currentRenderPass) && currentSubpass == old(currentSubpass)
      ensures !(cmd.BindPipeline? && cmd.pipelineBindPoint == PipelineBindPointGraphics)
              ==> graphicsPipeline == old(graphicsPipeline)
    {
      match cmd
      case BeginRenderPass(rp, _) =>
        currentRenderPass := Some(rp);
        currentSubpass := 0;
      case BindPipeline(bindPoint, pipeline) =>
        if bindPoint == PipelineBindPointGraphics {
          graphicsPipeline := pipeline;
        }
      case Draw(_, _, _, _) =>
        HandleDrawCall(DrawArgsOf(cmd));
      case DrawIndexed(_, _, _, _, _) =>
        HandleDrawCall(DrawArgsOf(cmd));
    }
  }
}
