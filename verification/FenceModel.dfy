/**
 The fence protocol: one git ref used as a compare-and-swap cell.

 A git object id is a collision-free digest of the object, so an object is
 identified with its content, and a commit's parent is part of what it is.
 The world is the server (one fence ref and the branches), every attempt's host
 process, every `kranq_push` call in flight inside a VM, and a history of what
 happened to the fence ref. `Step` is one atomic action of any of them; a run is
 any sequence of actions.
 */
module FenceModel {
  import opened Prelude

  /** The record a fence object carries. */
  datatype Holder = Holder(task: string, node: string, phase: string, claimedAt: int)

  datatype Commit = Commit(holder: Holder, written: int, parent: Option<Commit>)

  type Branches = map<string, int>

  /** What the git host stores: the fence ref, and the branches effects land on. */
  datatype Server = Server(fence: Option<Commit>, branches: Branches)

  /**
   An atomic push of `updates` together with the fence ref going to `target`, under
   `--force-with-lease=<fence>:<lease>`. `accepted` is whether the server takes the
   branch updates on their own merits.
   */
  function LeasedPush(s: Server, lease: Option<Commit>, updates: Branches, target: Option<Commit>, accepted: bool): Server {
    if s.fence == lease && accepted then Server(target, s.branches + updates) else s
  }

  /** How a remote command ends, seen from the client. */
  datatype Net = Delivered | AckLost | NotDelivered

  /** What running the job's script came to: an exit code, or no answer at all. */
  datatype Outcome = Code(code: int) | NoCode

  /** `res.ExitCode` as `Execute` leaves it: it stays 0 when the run erred. */
  function ExitCode(o: Outcome): int {
    match o
    case Code(n) => n
    case NoCode => 0
  }

  predicate RunFailed(o: Outcome) {
    o != Code(0)
  }

  /** Where `settleFence` stands. */
  datatype Settle = Unsettled | Read(at: Commit) | Adopted(at: Commit) | Settled(held: bool)

  /**
   A host process that holds a claim. `tokens` are the claims it was ever given, by
   Claim, Advance or Adopt; `have` are the commits in the VM's repository, and `local`
   is its own `refs/kranq/held`.
   */
  datatype Attempt = Attempt(
    task: string, node: string, claim: Commit, tokens: set<Commit>,
    have: set<Commit>, local: Option<Commit>, outcome: Option<Outcome>, settle: Settle)

  /** Where one `kranq_push` call stands; `verified` is whether its own fetch worked. */
  datatype CallPc = Listed | Fetched(verified: bool) | Checked(verified: bool)

  datatype Call = Call(attempt: nat, at: Commit, pc: CallPc)

  /** What happened to the fence ref, in order; an effect may land and leave no fence behind. */
  datatype Event =
    | Claimed(task: string, obj: Commit)
    | Landed(task: string, before: Commit, after: Option<Commit>, updates: Branches, verified: bool)
    | Released(attempt: nat, task: string, exit: int, obj: Commit)
    | Broken(obj: Commit)

  /**
   `errexit`: every `kranq_push` runs where `set -e` is in force, so a failed fetch
   ends it. `freshClaims`: a claim writes an object the ref never pointed at.
   */
  datatype Config = Config(errexit: bool, freshClaims: bool)

  datatype World = World(
    cfg: Config, srv: Server, attempts: map<nat, Attempt>, calls: map<nat, Call>, log: seq<Event>)

  datatype Action =
    | Claim(a: nat, task: string, node: string, now: int, net: Net)
    | List(c: nat, a: nat)
    | Fetch(c: nat, ok: bool)
    | Check(c: nat)
    | Push(c: nat, now: int, updates: Branches, accepted: bool, net: Net)
    | Advance(a: nat, token: Commit, phase: string, now: int, updates: Branches, accepted: bool, net: Net)
    | Finish(a: nat, outcome: Outcome)
    | SettleList(a: nat)
    | SettleFetch(a: nat, ok: bool)
    | SettleDecide(a: nat, net: Net)
    | Break(named: Option<Commit>, net: Net)

  function Init(cfg: Config, branches: Branches): World {
    World(cfg, Server(None, branches), map[], map[], [])
  }

  /** The fence ref's value after an event. */
  function After(e: Event): Option<Commit> {
    match e
    case Claimed(_, obj) => Some(obj)
    case Landed(_, _, after, _, _) => after
    case Released(_, _, _, _) => None
    case Broken(_) => None
  }

  function Current(log: seq<Event>): Option<Commit> {
    if log == [] then None else After(log[|log| - 1])
  }

  /** Every object the fence ref ever pointed at. */
  function Occupants(log: seq<Event>): set<Commit> {
    set k | 0 <= k < |log| && After(log[k]).Some? :: After(log[k]).value
  }

  /** The object `Claim` writes: a parentless commit naming the claimant. */
  function ClaimObject(task: string, node: string, now: int): Commit {
    Commit(Holder(task, node, "claimed", now), now, None)
  }

  function Step(w: World, act: Action): World {
    match act
    case Claim(a, task, node, now, net) => DoClaim(w, a, task, node, now, net)
    case List(c, a) => DoList(w, c, a)
    case Fetch(c, ok) => DoFetch(w, c, ok)
    case Check(c) => DoCheck(w, c)
    case Push(c, now, updates, accepted, net) => DoPush(w, c, now, updates, accepted, net)
    case Advance(a, token, phase, now, updates, accepted, net) =>
      DoAdvance(w, a, token, phase, now, updates, accepted, net)
    case Finish(a, outcome) => DoFinish(w, a, outcome)
    case SettleList(a) => DoSettleList(w, a)
    case SettleFetch(a, ok) => DoSettleFetch(w, a, ok)
    case SettleDecide(a, net) => DoSettleDecide(w, a, net)
    case Break(named, net) => DoBreak(w, named, net)
  }

  function Run(w: World, acts: seq<Action>): World
    decreases |acts|
  {
    if acts == [] then w else Run(Step(w, acts[0]), acts[1..])
  }

  /** The push of a claim needs the ref to be absent; a lost answer leaves no holder. */
  function DoClaim(w: World, a: nat, task: string, node: string, now: int, net: Net): World {
    var obj := ClaimObject(task, node, now);
    if a in w.attempts || net.NotDelivered? || w.srv.fence.Some? then w
    else if w.cfg.freshClaims && obj in Occupants(w.log) then w
    else
      var claimed := w.(srv := LeasedPush(w.srv, None, map[], Some(obj), true), log := w.log + [Claimed(task, obj)]);
      if net.AckLost? then claimed
      else claimed.(attempts := w.attempts[a := Attempt(task, node, obj, {obj}, {}, None, None, Unsettled)])
  }

  /** `git ls-remote`; an absent fence ends the call. */
  function DoList(w: World, c: nat, a: nat): World {
    if a !in w.attempts || c in w.calls || w.srv.fence.None? then w
    else w.(calls := w.calls[c := Call(a, w.srv.fence.value, Listed)])
  }

  /** A fetched commit comes with all it descends from. */
  function Lineage(c: Commit): set<Commit> {
    {c} + if c.parent.Some? then Lineage(c.parent.value) else {}
  }

  /** `git fetch` of the ref into the VM's own ref, which an earlier call may have left set. */
  function DoFetch(w: World, c: nat, ok: bool): World {
    if c !in w.calls || !w.calls[c].pc.Listed? || w.calls[c].attempt !in w.attempts then w
    else
      var call := w.calls[c];
      var at := w.attempts[call.attempt];
      if ok && w.srv.fence.Some? then
        w.(attempts := w.attempts[call.attempt := at.(local := w.srv.fence, have := at.have + Lineage(w.srv.fence.value))],
           calls := w.calls[c := call.(pc := Fetched(true))])
      else if w.cfg.errexit then w.(calls := w.calls - {c})
      else w.(calls := w.calls[c := call.(pc := Fetched(false))])
  }

  /** The record in the VM's own ref must name this task. */
  function DoCheck(w: World, c: nat): World {
    if c !in w.calls || !w.calls[c].pc.Fetched? || w.calls[c].attempt !in w.attempts then w
    else
      var call := w.calls[c];
      var at := w.attempts[call.attempt];
      if at.local.Some? && at.local.value.holder.task == at.task then
        w.(calls := w.calls[c := call.(pc := Checked(call.pc.verified))])
      else w.(calls := w.calls - {c})
  }

  /** The fence moves and the branches land together, or neither does. */
  function Land(w: World, task: string, lease: Commit, next: Option<Commit>, updates: Branches, accepted: bool, verified: bool)
    : World
  {
    var srv := LeasedPush(w.srv, Some(lease), updates, next, accepted);
    if w.srv.fence == Some(lease) && accepted then
      w.(srv := srv, log := w.log + [Landed(task, lease, next, updates, verified)])
    else w.(srv := srv)
  }

  /**
   `git commit-tree` needs the listed object in the VM's repository. Without it the call
   ends, or, without errexit, goes on with an empty object name: then the refspec that
   should move the fence deletes it.
   */
  function DoPush(w: World, c: nat, now: int, updates: Branches, accepted: bool, net: Net): World {
    if c !in w.calls || !w.calls[c].pc.Checked? || w.calls[c].attempt !in w.attempts then w
    else
      var call := w.calls[c];
      var at := w.attempts[call.attempt];
      var done := w.(calls := w.calls - {c});
      if call.at !in at.have then
        if w.cfg.errexit || net.NotDelivered? then done
        else Land(done, at.task, call.at, None, updates, accepted, call.pc.verified)
      else
        var next := Commit(at.claim.holder.(phase := "pushed"), now, Some(call.at));
        var w' := done.(attempts := w.attempts[call.attempt := at.(have := at.have + {next})]);
        if net.NotDelivered? then w' else Land(w', at.task, call.at, Some(next), updates, accepted, call.pc.verified)
  }

  /** `Advance` from the host, on a claim it was given. */
  function DoAdvance(w: World, a: nat, token: Commit, phase: string, now: int, updates: Branches, accepted: bool, net: Net): World {
    if a !in w.attempts || token !in w.attempts[a].tokens || net.NotDelivered? then w
    else
      var at := w.attempts[a];
      var next := Commit(at.claim.holder.(phase := phase), now, Some(token));
      var landed := Land(w, at.task, token, Some(next), updates, accepted, true);
      if landed.log == w.log || net.AckLost? then landed
      else landed.(attempts := w.attempts[a := at.(tokens := at.tokens + {next})])
  }

  function DoFinish(w: World, a: nat, outcome: Outcome): World {
    if a !in w.attempts || w.attempts[a].outcome.Some? then w
    else w.(attempts := w.attempts[a := w.attempts[a].(outcome := Some(outcome))])
  }

  function SetSettle(w: World, a: nat, s: Settle): World
    requires a in w.attempts
  {
    w.(attempts := w.attempts[a := w.attempts[a].(settle := s)])
  }

  /** `settleFence` adopts first: `Show` lists the ref ... */
  function DoSettleList(w: World, a: nat): World {
    if a !in w.attempts || w.attempts[a].outcome.None? || !w.attempts[a].settle.Unsettled? then w
    else if w.srv.fence.None? then SetSettle(w, a, Settled(true))
    else SetSettle(w, a, Read(w.srv.fence.value))
  }

  /** ... and then fetches the ref again, by name, for the record it checks. */
  function DoSettleFetch(w: World, a: nat, ok: bool): World {
    if a !in w.attempts || !w.attempts[a].settle.Read? then w
    else
      var at := w.attempts[a];
      if !ok || w.srv.fence.None? || w.srv.fence.value.holder.task != at.task then SetSettle(w, a, Settled(true))
      else
        w.(attempts := w.attempts[a := at.(settle := Adopted(at.settle.at), tokens := at.tokens + {at.settle.at})])
  }

  /** Held when something was pushed and the exit code is nonzero, released otherwise. */
  function DoSettleDecide(w: World, a: nat, net: Net): World {
    if a !in w.attempts || !w.attempts[a].settle.Adopted? || w.attempts[a].outcome.None? then w
    else
      var at := w.attempts[a];
      var obj := at.settle.at;
      var exit := ExitCode(at.outcome.value);
      if (obj != at.claim && exit != 0) || net.NotDelivered? then SetSettle(w, a, Settled(true))
      else
        var gone := w.srv.fence == Some(obj);
        var w' := SetSettle(w, a, Settled(!gone || net.AckLost?));
        w'.(srv := LeasedPush(w.srv, Some(obj), map[], None, true),
            log := if gone then w.log + [Released(a, at.task, exit, obj)] else w.log)
  }

  /** A human's `fence break`; an empty expectation leases the ref's absence. */
  function DoBreak(w: World, named: Option<Commit>, net: Net): World {
    if net.NotDelivered? then w
    else
      w.(srv := LeasedPush(w.srv, named, map[], None, true),
         log := if w.srv.fence == named && named.Some? then w.log + [Broken(named.value)] else w.log)
  }
}
