/** `CommandBufferData`: the commands recorded into one command buffer since
    it was last reset, and the submitted / contains-draw-calls flags. */
module CommandBufferData {
  import opened VulkanCommands

  /** The tracker's observable state. */
  datatype State = State(isSubmitted: bool, containsDrawCalls: bool, commandList: seq<Cmd>)

  /** What a fresh tracker holds. */
  const Fresh := State(false, false, [])

  /** The draw flag agrees with the list. */
  predicate Consistent(s: State) {
    s.containsDrawCalls == HasDrawCall(s.commandList)
  }

  /** `AddCommand` on a state: a submitted buffer is reset first (Vulkan
      requires re-recording before reuse), then the command is appended. */
  function Added(s: State, cmd: Cmd): (t: State)
  {
    var base := if s.isSubmitted then Fresh else s;
    State(false, base.containsDrawCalls || IsDrawCall(cmd), base.commandList + [cmd])
  }

  /** `SetSubmitted` on a state. */
  function Submitted(s: State): (t: State)
  {
    s.(isSubmitted := true)
  }

  /** Adding keeps the draw flag in step with the list; the new command is the
      last one, preceded by what was recorded since the last reset. */
  lemma AddedKeepsConsistent(s: State, cmd: Cmd)
    requires Consistent(s)
    ensures Consistent(Added(s, cmd))
    ensures !Added(s, cmd).isSubmitted
    ensures Added(s, cmd).commandList == (if s.isSubmitted then [] else s.commandList) + [cmd]
  {
    var t := Added(s, cmd);
    var base := if s.isSubmitted then [] else s.commandList;
    assert t.commandList[..|t.commandList| - 1] == base;
  }

  /** Recording a list of commands into a fresh tracker holds exactly that
      list, and the draw flag says whether it has a draw call. */
  function Recorded(s: State, cmds: seq<Cmd>): (t: State)
    decreases |cmds|
  {
    if |cmds| == 0 then s else Added(Recorded(s, cmds[..|cmds| - 1]), cmds[|cmds| - 1])
  }

  lemma {:induction false} RecordedIntoFresh(cmds: seq<Cmd>)
    requires |cmds| > 0
    ensures Recorded(Fresh, cmds) == State(false, HasDrawCall(cmds), cmds)
    decreases |cmds|
  {
    var init := cmds[..|cmds| - 1];
    if |init| == 0 {
      assert cmds == [cmds[0]];
    } else {
      RecordedIntoFresh(init);
      assert init + [cmds[|cmds| - 1]] == cmds;
    }
  }

  /** Once submitted, the next command starts a new list. */
  lemma AddAfterSubmitStartsOver(s: State, cmd: Cmd)
    ensures Added(Submitted(s), cmd) == State(false, IsDrawCall(cmd), [cmd])
  {
  }

  class CommandBufferData {
    var isSubmitted: bool
    var containsDrawCalls: bool
    var commandList: seq<Cmd>

    ghost function Get(): State
      reads this
    {
      State(isSubmitted, containsDrawCalls, commandList)
    }

    ghost predicate Valid()
      reads this
    {
      Consistent(Get())
    }

    /** A fresh tracker: not submitted, no draw calls, empty list. */
    constructor ()
      ensures Valid() && Get() == Fresh
    {
      isSubmitted := false;
      containsDrawCalls := false;
      commandList := [];
    }

    method AddCommand(cmd: Cmd)
      requires Valid()
      modifies this
      ensures Valid() && Get() == Added(old(Get()), cmd)
    {
      if isSubmitted {
        commandList := [];
        isSubmitted := false;
        containsDrawCalls := false;
      }
      if IsDrawCall(cmd) {
        containsDrawCalls := true;
      }
      commandList := commandList + [cmd];
      assert commandList[..|commandList| - 1] == old(if isSubmitted then [] else commandList);
    }

    /** `SetSubmitted` only raises the flag; the list stays until the next
        `AddCommand`. */
    method SetSubmitted()
      requires Valid()
      modifies this`isSubmitted
      ensures Valid() && Get() == Submitted(old(Get()))
    {
      isSubmitted := true;
    }

    /** `ContainsDrawCalls`. */
    method ContainsDrawCalls() returns (b: bool)
      requires Valid()
      ensures b <==> HasDrawCall(commandList)
    {
      b := containsDrawCalls;
    }
  }
}
