/**
 One run, from claiming its fence to settling it: what `Execute` leaves behind on every
 way out, its deferred clean-up included.
 */
module RunEngine {
  import opened Prelude
  import opened FenceModel
  import opened FenceClient
  import opened ImageManager
  import opened LayerCacheInvariant
  import LayerCache
  import PruneRules

  datatype Keep = Never | OnFailure | Always

  predicate Keeps(k: Keep, exitCode: int, failed: bool) {
    k.Always? || (k.OnFailure? && (failed || exitCode != 0))
  }

  datatype Stage = Claiming | Imaging | Cloning | Starting | Uploading | Running

  /** `fault` is where the run erred; `exitCode` stays 0 unless the shell returned one. */
  datatype RunResult = RunResult(exitCode: int, kept: bool, fenceHeld: bool, fault: Option<Stage>)

  /** What the fence's server looks like while the job runs, and while it is settled. */
  datatype Meanwhile = Meanwhile(afterJob: Server, atFetch: Server, fetchOk: bool, atRelease: Server, net: Net)

  class Engine {
    const host: GitHost
    const images: Manager

    constructor (host: GitHost, images: Manager)
      ensures this.host == host && this.images == images
    {
      this.host := host;
      this.images := images;
    }

    /**
     Clone, start, upload and run, with the VM destroyed or kept on the way out. An earlier
     attempt of the task may have left a VM of the same name.
     */
    method RunJob(name: string, image: string, keep: Keep, uploaded: bool, code: Option<int>)
      returns (exitCode: int, kept: bool, fault: Option<Stage>)
      requires PruneRules.Managed(name) && name !in images.metas
      modifies images`instances, images`metas
      ensures Only(name, old(images.instances), old(images.metas), images.instances, images.metas) && name !in images.metas
      ensures fault.None? ==> code.Some?
      ensures exitCode == if fault.None? then code.value else 0
      ensures fault.None? || fault.value in {Cloning, Starting, Uploading, Running}
      ensures fault == Some(Cloning) || keep.Never? ==> !kept
      ensures fault != Some(Cloning) && keep.OnFailure? ==> (kept <==> fault.Some? || exitCode != 0)
      ensures fault != Some(Cloning) && keep.Always? ==> kept
      ensures (images.healthy && image in old(images.instances) && !old(images.instances)[image].running
               && uploaded && code.Some?) ==> fault.None?
      ensures kept ==> name in images.instances
      ensures name in images.instances ==> kept || name in images.stuck || fault == Some(Cloning)
    {
      exitCode, kept, fault := 0, false, None;
      var ok := images.Clone(image, name);
      if !ok { return 0, false, Some(Cloning); }
      ok := images.SwitchTo(name, true);
      if !ok {
        fault := Some(Starting);
      } else if !uploaded {
        fault := Some(Uploading);
      } else if code.None? {
        fault := Some(Running);
      } else {
        exitCode := code.value;
      }
      if Keeps(keep, exitCode, fault.Some?) {
        kept := true;
      } else {
        var _ := images.Destroy(name);
      }
    }

    /**
     `Execute`. The fence is claimed first and settled last, on every way out after the
     claim; a run that never got a code from its shell settles as if it had ended in 0.
     */
    method Execute(ghost m: string -> LayerCache.Content, plan: LayerCache.Plan, name: string, task: string, node: string,
                   now: int, keep: Keep, uploaded: bool, code: Option<int>, claimNet: Net, during: Meanwhile)
      returns (res: RunResult)
      requires AllRight(m, images.instances, images.metas) && PlanMeans(m, plan)
      requires forall n :: n in plan.chain ==> PruneRules.Managed(n)
      requires PruneRules.Managed(name) && name !in plan.chain && name !in images.metas
      requires NotBack(during.afterJob, during.atFetch, during.atRelease)
      modifies host, images`instances, images`metas
      ensures res.fault == Some(Claiming) <==> old(host.srv).fence.Some? || !claimNet.Delivered?
      ensures res.fault == Some(Claiming) ==> images.instances == old(images.instances) && images.metas == old(images.metas)
      ensures res.exitCode == ExitCode(if res.fault.None? then Code(res.exitCode) else NoCode)
      ensures res.fault.None? ==> code == Some(res.exitCode)
      ensures AllRight(m, images.instances, images.metas)
      ensures Kept(old(images.instances), old(images.metas), images.instances, images.metas)
      ensures name in images.instances ==>
                || res.kept || name in images.stuck || res.fault == Some(Cloning)
                || (name in old(images.instances) && (res.fault == Some(Claiming) || res.fault == Some(Imaging)))
      ensures res.kept ==> name in images.instances
      ensures res.kept <==>
                || (res.fault.None? && (keep.Always? || (keep.OnFailure? && res.exitCode != 0)))
                || (res.fault.Some? && res.fault.value in {Starting, Uploading, Running} && !keep.Never?)
      ensures images.healthy && uploaded && code.Some? && old(host.srv).fence.None? && claimNet.Delivered? ==> res.fault.None?
      ensures res.fault == Some(Claiming) ==>
                host.srv == if old(host.srv).fence.None? && !claimNet.NotDelivered?
                            then Server(Some(ClaimObject(task, node, now)), old(host.srv).branches) else old(host.srv)
      ensures (res.fault != Some(Claiming) && during.afterJob.fence.Some? && during.fetchOk && during.net.Delivered?
               && during.atFetch.fence == during.atRelease.fence == during.afterJob.fence
               && during.afterJob.fence.value.holder.task == task
               && (during.afterJob.fence == Some(ClaimObject(task, node, now)) || res.exitCode == 0)) ==>
                !res.fenceHeld
      ensures res.fault != Some(Claiming) && !res.fenceHeld ==>
                host.srv == during.atRelease.(fence := None)
                && during.atRelease.fence.Some? && during.atRelease.fence.value.holder.task == task
                && (during.atRelease.fence == Some(ClaimObject(task, node, now)) || res.exitCode == 0)
      ensures res.fault != Some(Claiming) && during.afterJob.fence.Some?
              && during.afterJob.fence != Some(ClaimObject(task, node, now)) && res.exitCode != 0 ==>
                res.fenceHeld && host.srv == during.atFetch
    {
      hide NotBack;
      var claimed := host.Claim(task, node, now, claimNet);
      if claimed.Err? { return RunResult(0, false, false, Some(Claiming)); }
      var exitCode, kept, fault := ImageAndJob(m, plan, name, now, keep, uploaded, code);
      host.Others(during.afterJob);
      var held := SettleFence(host, task, claimed.value, exitCode, during.atFetch, during.fetchOk, during.atRelease, during.net);
      res := RunResult(exitCode, kept, held, fault);
    }

    method ImageAndJob(ghost m: string -> LayerCache.Content, plan: LayerCache.Plan, name: string, now: int, keep: Keep,
                       uploaded: bool, code: Option<int>)
      returns (exitCode: int, kept: bool, fault: Option<Stage>)
      requires AllRight(m, images.instances, images.metas) && PlanMeans(m, plan)
      requires forall n :: n in plan.chain ==> PruneRules.Managed(n)
      requires PruneRules.Managed(name) && name !in plan.chain && name !in images.metas
      modifies images`instances, images`metas
      ensures AllRight(m, images.instances, images.metas)
      ensures Kept(old(images.instances), old(images.metas), images.instances, images.metas)
      ensures fault != Some(Claiming) && (fault.None? ==> code == Some(exitCode)) && (fault.Some? ==> exitCode == 0)
      ensures name in images.instances ==>
                || kept || name in images.stuck || fault == Some(Cloning)
                || (name in old(images.instances) && fault == Some(Imaging))
      ensures kept ==> name in images.instances
      ensures kept <==>
                || (fault.None? && (keep.Always? || (keep.OnFailure? && exitCode != 0)))
                || (fault.Some? && fault.value in {Starting, Uploading, Running} && !keep.Never?)
      ensures images.healthy && uploaded && code.Some? ==> fault.None?
      ensures fault.Some? ==> fault.value in {Imaging, Cloning, Starting, Uploading, Running}
    {
      var ok := images.Ensure(m, plan, now);
      if !ok { return 0, false, Some(Imaging); }
      ghost var i1, m1 := images.instances, images.metas;
      hide PlanMeans;
      exitCode, kept, fault := RunJob(name, plan.chain[|plan.layers|], keep, uploaded, code);
      BuildLeavesTheRest(m, name, i1, m1, images.instances, images.metas);
    }
  }
}
