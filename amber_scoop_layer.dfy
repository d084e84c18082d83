/** The amber-scoop layer's own entry points, for one device: settings
    initialisation, command recording (`AddCommand`), the replay in
    `vkQueueSubmit`, and the shader-module map updates. The next layer in
    the chain is not modelled: what it returns is a parameter. */
module AmberScoopLayer {
  import opened Wrappers
  import opened VulkanLayer
  import opened VulkanCommands
  import opened Util
  import CBD = CommandBufferData
  import SMD = ShaderModuleData
  import DCT = DrawCallTracker

  /** `kLayerProperties[0]`. */
  const AmberScoopLayerProperties :=
    LayerProperties("VkLayer_GF_amber_scoop", MakeVersion(1, 1, 130), 1, "Amber scoop layer.")

  /** `IsThisLayer`: the name is present and is the layer's own. */
  function IsThisLayer(layerName: Option<string>): (b: bool)
    ensures b <==> layerName == Some("VkLayer_GF_amber_scoop")
  {
    VulkanLayer.IsThisLayer(layerName, AmberScoopLayerProperties)
  }

  /** `vkEnumerateInstanceLayerProperties`: the layer reports only itself. */
  method EnumerateInstanceLayerProperties(propertyCount: nat, properties: array?<LayerProperties>)
    returns (result: VkResult, count: nat)
    requires properties != null ==> propertyCount <= properties.Length
    modifies properties
    ensures properties == null ==> result == Success && count == 1
    ensures properties != null && propertyCount == 0 ==>
      result == Incomplete && count == 0 && properties[..] == old(properties[..])
    ensures properties != null && propertyCount > 0 ==>
      && result == Success && count == 1
      && properties[0].layerName == "VkLayer_GF_amber_scoop"
      && properties[0] == AmberScoopLayerProperties && properties[1..] == old(properties[1..])
  {
    result, count := VulkanLayer.EnumerateInstanceLayerProperties(AmberScoopLayerProperties, propertyCount, properties);
  }

  /** The command buffers handed to `vkQueueSubmit`, submit by submit, in order. */
  function Flatten(submits: seq<seq<Handle>>): (r: seq<Handle>)
    ensures forall h :: h in r <==> exists i :: 0 <= i < |submits| && h in submits[i]
  {
    if |submits| == 0 then []
    else
      var init := submits[..|submits| - 1];
      var r := Flatten(init) + submits[|submits| - 1];
      assert forall i :: 0 <= i < |init| ==> init[i] == submits[i];
      r
  }

  /** Every tracked buffer that was submitted is marked as such; nothing
      else changes. */
  function MarkSubmitted(tracked: map<Handle, CBD.State>, handles: seq<Handle>): (r: map<Handle, CBD.State>)
    ensures r.Keys == tracked.Keys
    ensures forall h :: h in r ==>
              && r[h].commandList == tracked[h].commandList
              && r[h].containsDrawCalls == tracked[h].containsDrawCalls
              && (r[h].isSubmitted <==> tracked[h].isSubmitted || h in handles)
  {
    map h | h in tracked :: if h in handles then CBD.Submitted(tracked[h]) else tracked[h]
  }

  /** The commands the replay walks through: the lists of the submitted,
      tracked buffers that contain draw calls, in submission order (a buffer
      submitted twice is replayed twice). */
  function ReplayedCommands(tracked: map<Handle, CBD.State>, handles: seq<Handle>): (r: seq<Cmd>)
  {
    if |handles| == 0 then []
    else
      var h := handles[|handles| - 1];
      ReplayedCommands(tracked, handles[..|handles| - 1])
      + (if h in tracked && tracked[h].containsDrawCalls then tracked[h].commandList else [])
  }

  /** A submit of buffers none of which has a draw call captures nothing. */
  lemma {:induction false} NoDrawNoReplay(tracked: map<Handle, CBD.State>, handles: seq<Handle>)
    requires forall h :: h in tracked ==> CBD.Consistent(tracked[h]) && !tracked[h].containsDrawCalls
    ensures ReplayedCommands(tracked, handles) == []
    decreases |handles|
  {
    if |handles| > 0 {
      NoDrawNoReplay(tracked, handles[..|handles| - 1]);
    }
  }

  /** Every replayed command comes from some submitted, tracked buffer that
      contains a draw call. */
  lemma {:induction false} ReplayedFromDrawBuffers(tracked: map<Handle, CBD.State>, handles: seq<Handle>, k: nat)
    requires k < |ReplayedCommands(tracked, handles)|
    ensures exists h :: h in handles && h in tracked && tracked[h].containsDrawCalls
                        && ReplayedCommands(tracked, handles)[k] in tracked[h].commandList
    decreases |handles|
  {
    var init := handles[..|handles| - 1];
    var h := handles[|handles| - 1];
    var prev := ReplayedCommands(tracked, init);
    if k < |prev| {
      ReplayedFromDrawBuffers(tracked, init, k);
      var g :| g in init && g in tracked && tracked[g].containsDrawCalls && prev[k] in tracked[g].commandList;
      assert g in handles;
    } else {
      assert ReplayedCommands(tracked, handles)[k] == tracked[h].commandList[k - |prev|];
    }
  }

  class AmberScoopLayer {
    const global: DCT.GlobalData
    /** `command_buffers_data` of the device: the map holds each buffer's
        tracker by value, and the layer updates it through the pointer
        `get` returns. */
    const commandBuffersData: ProtectedMap<Handle, CBD.State>
    /** `shader_modules_data` of the device. */
    const shaderModulesData: ProtectedMap<Handle, SMD.ShaderModuleData>

    /** Every tracker's draw flag agrees with its list. */
    ghost predicate Valid()
      reads this, global, commandBuffersData
    {
      && global.Valid()
      && forall h :: h in commandBuffersData.entries ==> CBD.Consistent(commandBuffersData.entries[h])
    }

    constructor ()
      ensures Valid() && fresh(global) && fresh(commandBuffersData) && fresh(shaderModulesData)
      ensures global.settings == DCT.DefaultSettings && global.Capture() == DCT.CaptureState(0, map[])
      ensures commandBuffersData.entries == map[] && shaderModulesData.entries == map[]
    {
      global := new DCT.GlobalData();
      commandBuffersData := new ProtectedMap<Handle, CBD.State>();
      shaderModulesData := new ProtectedMap<Handle, SMD.ShaderModuleData>();
    }

    /** `InitSettingsIfNeeded`. The three settings arrive already read (an
        environment variable or an Android property, `None` when unset);
        an unset setting keeps its default. The window's end is
        `start + count` in 64-bit arithmetic, with `count` defaulting to 1. */
    method InitSettingsIfNeeded(startDrawCall: Option<nat>, drawCallCount: Option<nat>, outputFilePrefix: Option<string>)
      requires startDrawCall.Some? ==> startDrawCall.value < DCT.Uint64Modulus
      requires drawCallCount.Some? ==> drawCallCount.value < DCT.Uint64Modulus
      modifies global`settings
      ensures old(global.settings).init ==> global.settings == old(global.settings)
      ensures !old(global.settings).init ==>
        var start := startDrawCall.GetOr(old(global.settings).startDrawCall);
        global.settings == DCT.Settings(true, start, (start + drawCallCount.GetOr(1)) % DCT.Uint64Modulus,
                                        outputFilePrefix.GetOr(old(global.settings).outputFilePrefix))
    {
      if !global.settings.init {
        var count := 1;
        if startDrawCall.Some? {
          global.settings := global.settings.(startDrawCall := startDrawCall.value);
        }
        if drawCallCount.Some? {
          count := drawCallCount.value;
        }
        if outputFilePrefix.Some? {
          global.settings := global.settings.(outputFilePrefix := outputFilePrefix.value);
        }
        global.settings := global.settings.(lastDrawCall := (global.settings.startDrawCall + count) % DCT.Uint64Modulus);
        global.settings := global.settings.(init := true);
      }
    }

    /** `AddCommand`: an untracked buffer gets a fresh tracker first; the
        command is then added to the buffer's tracker. */
    method AddCommand(commandBuffer: Handle, cmd: Cmd)
      requires Valid()
      modifies commandBuffersData
      ensures Valid()
      ensures commandBuffersData.entries == old(commandBuffersData.entries)[commandBuffer :=
        CBD.Added(if commandBuffer in old(commandBuffersData.entries)
                  then old(commandBuffersData.entries)[commandBuffer] else CBD.Fresh, cmd)]
    {
      var data := commandBuffersData.Get(commandBuffer);
      if data.None? {
        var _ := commandBuffersData.Put(commandBuffer, CBD.Fresh);
        data := commandBuffersData.Get(commandBuffer);
      }
      CBD.AddedKeepsConsistent(data.value, cmd);
      commandBuffersData.Update(commandBuffer, CBD.Added(data.value, cmd));
    }

    /** `vkCreateShaderModule`: after the next layer has created the module,
        a successful creation starts tracking it with a fresh lifetime record
        (`put` keeps an existing record for a reused handle); a failed one
        changes nothing. */
    method CreateShaderModule(code: seq<bv32>, nextLayerResult: VkResult, shaderModule: Handle)
      returns (result: VkResult)
      modifies shaderModulesData
      ensures result == nextLayerResult
      ensures nextLayerResult != Success || shaderModule in old(shaderModulesData.entries)
              ==> shaderModulesData.entries == old(shaderModulesData.entries)
      ensures nextLayerResult == Success && shaderModule !in old(shaderModulesData.entries) ==>
        && shaderModulesData.entries.Keys == old(shaderModulesData.entries).Keys + {shaderModule}
        && (forall h :: h in old(shaderModulesData.entries) ==> shaderModulesData.entries[h] == old(shaderModulesData.entries)[h])
        && var data := shaderModulesData.entries[shaderModule];
           fresh(data) && data.code == code && !data.isDestroyed && data.pipelines == {}
    {
      result := nextLayerResult;
      if result == Success {
        var data := new SMD.ShaderModuleData(code);
        var _ := shaderModulesData.Put(shaderModule, data);
      }
    }

    /** `vkDestroyShaderModule`: after the next layer has destroyed the
        module, its entry is erased. */
    method DestroyShaderModule(shaderModule: Handle)
      modifies shaderModulesData
      ensures shaderModulesData.entries == old(shaderModulesData.entries) - {shaderModule}
    {
      shaderModulesData.Erase(shaderModule);
    }

    /** `vkQueueSubmit`. Each submitted buffer that is tracked is marked
        submitted; each one that contains draw calls is replayed through a
        new `DrawCallTracker`, command by command. The result of the next
        layer's `vkQueueSubmit` is returned unchanged. */
    method QueueSubmit(queue: Handle, submits: seq<seq<Handle>>, nextLayerResult: VkResult)
      returns (result: VkResult)
      requires Valid()
      modifies commandBuffersData, global`currentDrawCall, global`amberFiles
      ensures Valid() && result == nextLayerResult
      ensures commandBuffersData.entries == MarkSubmitted(old(commandBuffersData.entries), Flatten(submits))
      ensures global.Capture()
              == DCT.Replay(global.settings, old(global.Capture()),
                            DrawCallsOf(ReplayedCommands(old(commandBuffersData.entries), Flatten(submits))))
    {
      ghost var start := commandBuffersData.entries;
      var submitIdx := 0;
      while submitIdx < |submits|
        invariant 0 <= submitIdx <= |submits|
        invariant Valid()
        invariant commandBuffersData.entries == MarkSubmitted(start, Flatten(submits[..submitIdx]))
        invariant global.Capture()
                  == DCT.Replay(global.settings, old(global.Capture()),
                                DrawCallsOf(ReplayedCommands(start, Flatten(submits[..submitIdx]))))
      {
        SubmitBuffers(queue, submits[submitIdx], start, old(global.Capture()), Flatten(submits[..submitIdx]));
        FlattenSnoc(submits, submitIdx);
        submitIdx := submitIdx + 1;
      }
      assert submits[..|submits|] == submits;
      result := nextLayerResult;
    }

    /** One command buffer of a submit: skipped if untracked, otherwise marked
        submitted and, if it contains draw calls, replayed. */
    method ProcessSubmittedBuffer(queue: Handle, commandBuffer: Handle)
      requires Valid()
      modifies commandBuffersData, global`currentDrawCall, global`amberFiles
      ensures Valid()
      ensures commandBuffersData.entries == MarkSubmitted(old(commandBuffersData.entries), [commandBuffer])
      ensures global.Capture()
              == DCT.Replay(global.settings, old(global.Capture()),
                            DrawCallsOf(ReplayedCommands(old(commandBuffersData.entries), [commandBuffer])))
    {
      SingleSubmit(commandBuffersData.entries, commandBuffer);
      var data := commandBuffersData.Get(commandBuffer);
      if data.None? {
        return;
      }
      var state := data.value;
      commandBuffersData.Update(commandBuffer, CBD.Submitted(state));
      if state.containsDrawCalls {
        ReplayCommands(queue, commandBuffer, state.commandList);
      }
    }

    /** The inner loop of `QueueSubmit`: the buffers of one submit, one
        after the other, continuing the walk over the buffers `before`. */
    method SubmitBuffers(queue: Handle, buffers: seq<Handle>, ghost start: map<Handle, CBD.State>,
                         ghost c: DCT.CaptureState, ghost before: seq<Handle>)
      requires Valid()
      requires commandBuffersData.entries == MarkSubmitted(start, before)
      requires global.Capture() == DCT.Replay(global.settings, c, DrawCallsOf(ReplayedCommands(start, before)))
      modifies commandBuffersData, global`currentDrawCall, global`amberFiles
      ensures Valid()
      ensures commandBuffersData.entries == MarkSubmitted(start, before + buffers)
      ensures global.Capture() == DCT.Replay(global.settings, c, DrawCallsOf(ReplayedCommands(start, before + buffers)))
    {
      PrefixEmpty(before, buffers);
      var bufferIdx := 0;
      while bufferIdx < |buffers|
        invariant 0 <= bufferIdx <= |buffers|
        invariant Valid()
        invariant commandBuffersData.entries == MarkSubmitted(start, before + buffers[..bufferIdx])
        invariant global.Capture()
                  == DCT.Replay(global.settings, c, DrawCallsOf(ReplayedCommands(start, before + buffers[..bufferIdx])))
      {
        ghost var done := before + buffers[..bufferIdx];
        ProcessSubmittedBuffer(queue, buffers[bufferIdx]);
        SubmitStepCaptured(global.settings, c, start, done, buffers[bufferIdx]);
        PrefixSnoc(before, buffers, bufferIdx);
        bufferIdx := bufferIdx + 1;
      }
      PrefixWhole(before, buffers);
    }

    /** The replay of one submitted buffer: a new `DrawCallTracker` processes
        the buffer's commands in order. */
    method ReplayCommands(queue: Handle, commandBuffer: Handle, cmds: seq<Cmd>)
      requires global.Valid()
      modifies global`currentDrawCall, global`amberFiles
      ensures global.Valid()
      ensures global.Capture() == DCT.Replay(global.settings, old(global.Capture()), DrawCallsOf(cmds))
    {
      var tracker := new DCT.DrawCallTracker(global, commandBuffer, queue);
      var k := 0;
      while k < |cmds|
        invariant 0 <= k <= |cmds|
        invariant global.Valid() && tracker.global == global
        invariant global.Capture() == DCT.Replay(global.settings, old(global.Capture()), DrawCallsOf(cmds[..k]))
      {
        tracker.ProcessSubmittedCommand(cmds[k]);
        ReplayPrefixStep(global.settings, old(global.Capture()), cmds, k);
        k := k + 1;
      }
      assert cmds[..|cmds|] == cmds;
    }
  }

  /** What one buffer of a submit does to the map and to what is replayed. */
  lemma SingleSubmit(tracked: map<Handle, CBD.State>, h: Handle)
    ensures MarkSubmitted(tracked, [h]) == if h in tracked then tracked[h := CBD.Submitted(tracked[h])] else tracked
    ensures ReplayedCommands(tracked, [h])
            == if h in tracked && tracked[h].containsDrawCalls then tracked[h].commandList else []
  {
    assert [h][..0] == [];
  }

  /** One more buffer processed after `done`: the map and the capture are
      those of `done + [h]`. */
  lemma SubmitStepCaptured(settings: DCT.Settings, c: DCT.CaptureState, tracked: map<Handle, CBD.State>,
                           done: seq<Handle>, h: Handle)
    ensures MarkSubmitted(MarkSubmitted(tracked, done), [h]) == MarkSubmitted(tracked, done + [h])
    ensures DCT.Replay(settings, DCT.Replay(settings, c, DrawCallsOf(ReplayedCommands(tracked, done))),
                       DrawCallsOf(ReplayedCommands(MarkSubmitted(tracked, done), [h])))
            == DCT.Replay(settings, c, DrawCallsOf(ReplayedCommands(tracked, done + [h])))
  {
    SubmitStep(tracked, done, h);
    ReplayedCommandsAppend(tracked, done, [h]);
    DrawCallsOfAppend(ReplayedCommands(tracked, done), ReplayedCommands(tracked, [h]));
    DCT.ReplayAppend(settings, c, DrawCallsOf(ReplayedCommands(tracked, done)),
                     DrawCallsOf(ReplayedCommands(tracked, [h])));
  }

  lemma PrefixEmpty(before: seq<Handle>, buffers: seq<Handle>)
    ensures before + buffers[..0] == before
  {
    assert buffers[..0] == [];
  }

  lemma PrefixSnoc(before: seq<Handle>, buffers: seq<Handle>, i: nat)
    requires i < |buffers|
    ensures before + buffers[..i + 1] == (before + buffers[..i]) + [buffers[i]]
  {
    assert buffers[..i + 1] == buffers[..i] + [buffers[i]];
  }

  lemma PrefixWhole(before: seq<Handle>, buffers: seq<Handle>)
    ensures before + buffers[..|buffers|] == before + buffers
  {
    assert buffers[..|buffers|] == buffers;
  }

  lemma FlattenSnoc(submits: seq<seq<Handle>>, i: nat)
    requires i < |submits|
    ensures Flatten(submits[..i + 1]) == Flatten(submits[..i]) + submits[i]
  {
    assert submits[..i + 1][..i] == submits[..i];
  }

  /** Replaying the first `k + 1` commands is replaying the first `k`, then
      the `k`-th if it is a draw call. */
  lemma ReplayPrefixStep(settings: DCT.Settings, c: DCT.CaptureState, cmds: seq<Cmd>, k: nat)
    requires k < |cmds|
    ensures DCT.Replay(settings, c, DrawCallsOf(cmds[..k + 1]))
            == if IsDrawCall(cmds[k]) then DCT.DrawStep(settings, DCT.Replay(settings, c, DrawCallsOf(cmds[..k])), DrawArgsOf(cmds[k]))
               else DCT.Replay(settings, c, DrawCallsOf(cmds[..k]))
  {
    assert cmds[..k + 1][..k] == cmds[..k];
    var d := DrawCallsOf(cmds[..k]);
    if IsDrawCall(cmds[k]) {
      assert (d + [DrawArgsOf(cmds[k])])[..|d|] == d;
    }
  }

  /** Marking buffer by buffer is marking them all at once. */
  lemma SubmitStep(tracked: map<Handle, CBD.State>, done: seq<Handle>, h: Handle)
    ensures MarkSubmitted(MarkSubmitted(tracked, done), [h]) == MarkSubmitted(tracked, done + [h])
    ensures ReplayedCommands(MarkSubmitted(tracked, done), [h]) == ReplayedCommands(tracked, [h])
  {
    assert [h][..0] == [];
  }

  lemma {:induction false} ReplayedCommandsAppend(tracked: map<Handle, CBD.State>, a: seq<Handle>, b: seq<Handle>)
    ensures ReplayedCommands(tracked, a + b) == ReplayedCommands(tracked, a) + ReplayedCommands(tracked, b)
    decreases |b|
  {
    if |b| == 0 {
      assert a + b == a;
    } else {
      var init := b[..|b| - 1];
      assert (a + b)[..|a + b| - 1] == a + init;
      ReplayedCommandsAppend(tracked, a, init);
    }
  }
}
