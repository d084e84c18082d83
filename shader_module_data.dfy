/** `ShaderModuleData`: the lifetime record of one shader module — the
    pipelines that use it and whether `vkDestroyShaderModule` has been
    called for it. */
module ShaderModuleData {
  import opened VulkanCommands

  class ShaderModuleData {
    /** The deep copy of the creation info, reduced to the SPIR-V words. */
    const code: seq<bv32>
    var isDestroyed: bool
    var pipelines: set<Handle>

    /** A fresh record: no pipelines, not destroyed, so not in use. */
    constructor (code: seq<bv32>)
      ensures this.code == code && !isDestroyed && pipelines == {}
      ensures !InUse()
    {
      this.code := code;
      isDestroyed := false;
      pipelines := {};
    }

    /** What `IsInUse` answers: some pipeline uses the module and it has not
        been destroyed. */
    predicate InUse()
      reads this
    {
      pipelines != {} && !isDestroyed
    }

    /** `AddPipeline` inserts into a set: adding a pipeline twice is the same
        as adding it once, and nothing is ever removed. */
    method AddPipeline(pipeline: Handle)
      modifies this`pipelines
      ensures pipelines == old(pipelines) + {pipeline}
      ensures old(pipelines) <= pipelines && pipeline in pipelines
    {
      pipelines := pipelines + {pipeline};
    }

    /** `IsInUse`. A destroyed module is never in use, whatever pipelines
        still refer to it. */
    method IsInUse() returns (b: bool)
      ensures b <==> InUse()
      ensures isDestroyed ==> !b
      ensures b ==> |pipelines| >= 1
    {
      b := pipelines != {} && !isDestroyed;
    }

    /** `SetDestroyed` is permanent: no operation clears the flag. */
    method SetDestroyed()
      modifies this`isDestroyed
      ensures isDestroyed && !InUse()
    {
      isDestroyed := true;
    }
  }
}
