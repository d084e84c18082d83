/** The recorded command-buffer commands the amber-scoop layer tracks
    (`Cmd` and its four kinds). Handles are opaque numbers; 0 is
    `VK_NULL_HANDLE`. */
module VulkanCommands {

  type Handle = nat

  /** `VK_PIPELINE_BIND_POINT_GRAPHICS`. */
  const PipelineBindPointGraphics: nat := 0

  datatype Cmd =
    | BeginRenderPass(renderPassBegin: Handle, contents: nat)
    | BindPipeline(pipelineBindPoint: nat, pipeline: Handle)
    | Draw(vertexCount: nat, instanceCount: nat, firstVertex: nat, firstInstance: nat)
    | DrawIndexed(indexCount: nat, instanceCount: nat, firstIndex: nat, vertexOffset: int, firstInstance: nat)

  /** The commands that produce a draw call: `kDraw` and `kDrawIndexed`. */
  predicate IsDrawCall(cmd: Cmd) {
    cmd.Draw? || cmd.DrawIndexed?
  }

  /** Whether some command of the list is a draw call. */
  function HasDrawCall(cmds: seq<Cmd>): bool
  {
    if |cmds| == 0 then false
    else HasDrawCall(cmds[..|cmds| - 1]) || IsDrawCall(cmds[|cmds| - 1])
  }

  /** `HasDrawCall` holds exactly when some command is a draw call. */
  lemma {:induction false} HasDrawCallSome(cmds: seq<Cmd>)
    ensures HasDrawCall(cmds) <==> exists i :: 0 <= i < |cmds| && IsDrawCall(cmds[i])
  {
    if |cmds| > 0 {
      var init := cmds[..|cmds| - 1];
      HasDrawCallSome(init);
      assert forall i :: 0 <= i < |init| ==> init[i] == cmds[i];
    }
  }

  /** The arguments `ProcessSubmittedCommand` passes to `HandleDrawCall`:
      first index, index count, first vertex, vertex count, first instance,
      instance count. A non-indexed draw passes zero for the index pair and an
      indexed draw passes zero for the vertex pair. */
  datatype DrawArgs = DrawArgs(firstIndex: nat, indexCount: nat, firstVertex: nat, vertexCount: nat,
                               firstInstance: nat, instanceCount: nat)

  function DrawArgsOf(cmd: Cmd): (a: DrawArgs)
    requires IsDrawCall(cmd)
    ensures cmd.Draw? ==> a.indexCount == 0 && a.vertexCount == cmd.vertexCount && a.firstVertex == cmd.firstVertex
    ensures cmd.DrawIndexed? ==> a.vertexCount == 0 && a.indexCount == cmd.indexCount && a.firstIndex == cmd.firstIndex
    ensures a.instanceCount == cmd.instanceCount && a.firstInstance == cmd.firstInstance
  {
    match cmd
    case Draw(vc, ic, fv, fi) => DrawArgs(0, 0, fv, vc, fi, ic)
    case DrawIndexed(xc, ic, fx, _, fi) => DrawArgs(fx, xc, 0, 0, fi, ic)
  }

  /** The draw arguments of the draw calls of a command list, in order. */
  function DrawCallsOf(cmds: seq<Cmd>): (r: seq<DrawArgs>)
    ensures |r| <= |cmds|
    ensures |r| == 0 <==> !HasDrawCall(cmds)
  {
    if |cmds| == 0 then []
    else
      var init := DrawCallsOf(cmds[..|cmds| - 1]);
      var last := cmds[|cmds| - 1];
      if IsDrawCall(last) then init + [DrawArgsOf(last)] else init
  }

  lemma {:induction false} DrawCallsOfAppend(cmds: seq<Cmd>, more: seq<Cmd>)
    ensures DrawCallsOf(cmds + more) == DrawCallsOf(cmds) + DrawCallsOf(more)
    decreases |more|
  {
    if |more| == 0 {
      assert cmds + more == cmds;
    } else {
      var init := more[..|more| - 1];
      assert (cmds + more)[..|cmds + more| - 1] == cmds + init;
      DrawCallsOfAppend(cmds, init);
    }
  }
}
