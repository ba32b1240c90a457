/**
 The fence operations as the programs that run them: the host's client, the shell
 function inside the VM, and the settling of a run. Each remote command is one
 atomic access to the git host; what others do between two commands of one program
 appears as the server states it finds.
 */
module FenceClient {
  import opened Prelude
  import opened FenceModel
  import opened FenceInvariant
  import FenceSafety

  datatype FenceError = ErrHeld | ErrBroken | ErrNoFence | ErrTransport

  datatype Entry = Entry(oid: Commit, holder: Holder)

  /** The git host, holding one fence ref and the branches. */
  class GitHost {
    var srv: Server

    constructor (srv: Server)
      ensures this.srv == srv
    {
      this.srv := srv;
    }

    /** Other clients' commands, between two of ours, leave the host in some state. */
    method Others(next: Server)
      modifies this
      ensures srv == next
    {
      srv := next;
    }

    /** One atomic leased push, and what its client learns of it. */
    method Push(lease: Option<Commit>, updates: Branches, target: Option<Commit>, accepted: bool, net: Net)
      returns (answer: Option<bool>)
      modifies this
      ensures srv == if net.NotDelivered? then old(srv) else LeasedPush(old(srv), lease, updates, target, accepted)
      ensures answer == if net.Delivered? then Some(old(srv).fence == lease && accepted) else None
    {
      answer := None;
      if net.NotDelivered? { return; }
      var applied := srv.fence == lease && accepted;
      if applied {
        srv := Server(target, srv.branches + updates);
      }
      if net.Delivered? { answer := Some(applied); }
    }

    method Claim(task: string, node: string, now: int, net: Net) returns (r: Result<Commit, FenceError>)
      modifies this
      ensures r.Ok? <==> old(srv).fence == None && net.Delivered?
      ensures r.Ok? ==> r.value == ClaimObject(task, node, now)
      ensures r == Err(ErrHeld) <==> old(srv).fence.Some? && net.Delivered?
      ensures old(srv).fence.Some? || net.NotDelivered? ==> srv == old(srv)
      ensures old(srv).fence.None? && !net.NotDelivered? ==>
                srv == Server(Some(ClaimObject(task, node, now)), old(srv).branches)
    {
      var oid := ClaimObject(task, node, now);
      var answer := Push(None, map[], Some(oid), true, net);
      r := match answer
      case None => Err(ErrTransport)
      case Some(ok) => if ok then Ok(oid) else Err(ErrHeld);
    }

    /** Moves the fence and lands `updates` in one push, or changes nothing at all. */
    method Advance(claim: Option<Commit>, h: Holder, phase: string, now: int, updates: Branches, accepted: bool, net: Net)
      returns (r: Result<Commit, FenceError>)
      modifies this
      ensures claim.None? ==> r == Err(ErrNoFence) && srv == old(srv)
      ensures r.Ok? <==> claim.Some? && old(srv).fence == claim && accepted && net.Delivered?
      ensures r.Ok? ==> r.value == Commit(h.(phase := phase), now, claim)
      ensures claim.Some? && old(srv).fence == claim && accepted && !net.NotDelivered? ==>
                srv == Server(Some(Commit(h.(phase := phase), now, claim)), old(srv).branches + updates)
      ensures claim.None? || old(srv).fence != claim || !accepted || net.NotDelivered? ==> srv == old(srv)
      ensures r == Err(ErrBroken) <==> claim.Some? && net.Delivered? && !(old(srv).fence == claim && accepted)
    {
      if claim.None? { return Err(ErrNoFence); }
      var oid := Commit(h.(phase := phase), now, claim);
      var answer := Push(claim, updates, Some(oid), accepted, net);
      r := match answer
      case None => Err(ErrTransport)
      case Some(ok) => if ok then Ok(oid) else Err(ErrBroken);
    }

    method Release(claim: Option<Commit>, net: Net) returns (r: Result<(), FenceError>)
      modifies this
      ensures claim.None? ==> r == Err(ErrNoFence) && srv == old(srv)
      ensures r.Ok? <==> claim.Some? && old(srv).fence == claim && net.Delivered?
      ensures r == Err(ErrBroken) <==> claim.Some? && net.Delivered? && old(srv).fence != claim
      ensures srv == if claim.Some? && old(srv).fence == claim && !net.NotDelivered?
                     then old(srv).(fence := None) else old(srv)
    {
      if claim.None? { return Err(ErrNoFence); }
      var answer := Push(claim, map[], None, true, net);
      assert old(srv).branches + map[] == old(srv).branches;
      r := match answer
      case None => Err(ErrTransport)
      case Some(ok) => if ok then Ok(()) else Err(ErrBroken);
    }

    /** `named` absent leases the ref's absence, so it never removes anything. */
    method Break(named: Option<Commit>, net: Net) returns (r: Result<(), FenceError>)
      modifies this
      ensures srv == if old(srv).fence == named && !net.NotDelivered? then old(srv).(fence := None) else old(srv)
      ensures r.Ok? <==> old(srv).fence == named && net.Delivered?
    {
      var answer := Push(named, map[], None, true, net);
      assert old(srv).branches + map[] == old(srv).branches;
      r := match answer
      case None => Err(ErrTransport)
      case Some(ok) => if ok then Ok(()) else Err(ErrBroken);
    }

    /** The object is listed first and its record fetched by ref name afterwards. */
    method Show(atFetch: Server, fetchOk: bool) returns (r: Result<Entry, FenceError>)
      modifies this
      ensures r.Ok? <==> old(srv).fence.Some? && fetchOk && atFetch.fence.Some?
      ensures r.Ok? ==> r.value.oid == old(srv).fence.value && r.value.holder == atFetch.fence.value.holder
      ensures old(srv).fence.None? ==> r == Err(ErrNoFence)
      ensures srv == atFetch
    {
      var listed := srv.fence;
      Others(atFetch);
      if listed.None? { return Err(ErrNoFence); }
      if !fetchOk || srv.fence.None? { return Err(ErrTransport); }
      r := Ok(Entry(listed.value, srv.fence.value.holder));
    }

    method Adopt(task: string, atFetch: Server, fetchOk: bool) returns (r: Result<Commit, FenceError>)
      modifies this
      ensures r.Ok? <==> old(srv).fence.Some? && fetchOk && atFetch.fence.Some? && atFetch.fence.value.holder.task == task
      ensures r.Ok? ==> r.value == old(srv).fence.value
      ensures srv == atFetch
    {
      var entry := Show(atFetch, fetchOk);
      r := match entry
      case Err(e) => Err(e)
      case Ok(e) => if e.holder.task != task then Err(ErrBroken) else Ok(e.oid);
    }
  }

  /** The checkout inside a VM: the commits it has, and its own `refs/kranq/held`. */
  class Checkout {
    var have: set<Commit>
    var held: Option<Commit>

    constructor ()
      ensures have == {} && held == None
    {
      have, held := {}, None;
    }
  }

  /** An object the ref left between two looks is not back at the third. */
  predicate NotBack(first: Server, second: Server, third: Server) {
    first.fence.Some? && third.fence == first.fence ==> second.fence == first.fence
  }

  /** Every client of the protocol may count on that, whatever the others do meanwhile. */
  lemma ProtocolIsNotBack(w: World, during: seq<Action>, after: seq<Action>)
    requires Inv(w)
    ensures NotBack(w.srv, Run(w, during).srv, Run(Run(w, during), after).srv)
  {
    var v := Run(w, during);
    RunKeeps(w, during);
    if w.srv.fence.Some? && v.srv.fence != w.srv.fence {
      CurrentOccupies(w);
      FenceSafety.RunExtends(w, during);
      var k :| 0 <= k < |w.log| && After(w.log[k]) == w.srv.fence;
      assert v.log[k] == w.log[k];
      FenceSafety.LeftForGood(v, w.srv.fence.value, after);
    }
  }

  /**
   The shell function. `atFetch` and `atPush` are the server states its second and
   third command find. It lands only on a record that names its task, and installs a child
   of it; without errexit a failed fetch would leave the record of an earlier call to be
   checked, and without the listed object in the VM the push deletes the fence.
   */
  method KranqPush(host: GitHost, vm: Checkout, task: string, record: Holder, now: int, updates: Branches, accepted: bool,
                   atFetch: Server, fetchOk: bool, errexit: bool, atPush: Server, net: Net)
    returns (landed: bool)
    requires record.task == task
    requires NotBack(host.srv, atFetch, atPush)
    modifies host, vm
    ensures landed ==> atPush.fence == old(host.srv).fence && atPush.fence.Some?
    ensures landed && (errexit || (fetchOk && atFetch.fence.Some?)) ==>
              atPush.fence.value.holder.task == task && atPush.fence.value in vm.have
    ensures landed ==>
              host.srv == Server(if atPush.fence.value in vm.have then Some(Commit(record, now, atPush.fence)) else None,
                                 atPush.branches + updates)
    ensures !landed ==> host.srv in {old(host.srv), atFetch, atPush}
    ensures fetchOk && atFetch.fence.Some? ==>
              (landed <==> old(host.srv).fence.Some? && atFetch.fence == atPush.fence == old(host.srv).fence
                           && atPush.fence.value.holder.task == task && accepted && !net.NotDelivered?)
    ensures errexit && !(fetchOk && atFetch.fence.Some?) ==> !landed
    ensures !errexit && !(fetchOk && atFetch.fence.Some?) ==>
              (landed <==> old(host.srv).fence.Some? && atPush.fence == old(host.srv).fence
                           && old(vm.held).Some? && old(vm.held).value.holder.task == task && accepted && !net.NotDelivered?)
    ensures old(vm.have) <= vm.have
    ensures vm.held == if old(host.srv).fence.Some? && fetchOk && atFetch.fence.Some? then atFetch.fence else old(vm.held)
  {
    landed := false;
    var at := host.srv.fence;
    if at.None? { return; }
    host.Others(atFetch);
    if fetchOk && host.srv.fence.Some? {
      vm.held := host.srv.fence;
      vm.have := vm.have + Lineage(host.srv.fence.value);
    } else if errexit {
      return;
    }
    if vm.held.None? || vm.held.value.holder.task != task { return; }
    host.Others(atPush);
    var target := None;
    if at.value in vm.have {
      target := Some(Commit(record, now, at));
      vm.have := vm.have + {target.value};
    } else if errexit {
      return;
    }
    landed := host.srv.fence == at && accepted && !net.NotDelivered?;
    var _ := host.Push(at, updates, target, accepted, net);
  }

  /**
   `settleFence`: adopt, then hold or release. `held` is `res.FenceHeld`. The fence is
   removed only where it still names this task, and never after something was pushed
   with a nonzero exit code.
   */
  method SettleFence(host: GitHost, task: string, claim: Commit, exitCode: int,
                     atFetch: Server, fetchOk: bool, atRelease: Server, net: Net)
    returns (held: bool)
    requires NotBack(host.srv, atFetch, atRelease)
    modifies host
    ensures host.srv == atFetch || host.srv == atRelease || host.srv == atRelease.(fence := None)
    ensures !held ==> host.srv == atRelease.(fence := None) && atRelease.fence.Some?
                      && atRelease.fence == old(host.srv).fence && atRelease.fence.value.holder.task == task
                      && (atRelease.fence == Some(claim) || exitCode == 0)
    ensures old(host.srv).fence.Some? && old(host.srv).fence.value != claim && exitCode != 0 ==>
              held && host.srv == atFetch
    ensures (old(host.srv).fence.Some? && atFetch.fence == atRelease.fence == old(host.srv).fence && fetchOk
             && atRelease.fence.value.holder.task == task && net.Delivered?
             && (atRelease.fence == Some(claim) || exitCode == 0)) ==> !held
  {
    var current := host.Adopt(task, atFetch, fetchOk);
    if current.Err? { return true; }
    var pushed := current.value != claim;
    if pushed && exitCode != 0 { return true; }
    host.Others(atRelease);
    var released := host.Release(Some(current.value), net);
    held := released.Err?;
  }
}
