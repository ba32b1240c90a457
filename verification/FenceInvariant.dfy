/**
 What every step of the fence protocol keeps. The centre is that the fence ref
 never points at the same object twice: a claim is fresh, and a landed push
 installs a child of the current object, whose parent link is unforgeable.
 */
module FenceInvariant {
  import opened Prelude
  import opened FenceModel

  /** The ref's value just before event `k`. */
  function Before(log: seq<Event>, k: nat): Option<Commit>
    requires k <= |log|
  {
    Current(log[..k])
  }

  /** One event against the value it found. */
  predicate EventOk(before: Option<Commit>, e: Event) {
    match e
    case Claimed(t, o) => before == None && o.parent == None && o.holder.task == t
    case Landed(t, b, n, _, v) =>
      && before == Some(b) && (v ==> b.holder.task == t)
      && (n.Some? ==> n.value.parent == Some(b) && n.value.holder.task == t)
    case Released(_, t, x, o) => before == Some(o) && o.holder.task == t && (o.parent.Some? ==> x == 0)
    case Broken(o) => before == Some(o)
  }

  ghost predicate LogOk(log: seq<Event>) {
    forall k :: 0 <= k < |log| ==> EventOk(Before(log, k), log[k])
  }

  /** No object is installed twice. */
  ghost predicate NeverTwice(log: seq<Event>) {
    forall i, k :: 0 <= i < k < |log| && After(log[i]).Some? ==> After(log[i]) != After(log[k])
  }

  /** If the ref still points at `at`, then `at` names `task`. */
  predicate NamesIfCurrent(w: World, at: Commit, task: string) {
    at in Occupants(w.log) && (w.srv.fence == Some(at) ==> at.holder.task == task)
  }

  predicate AttemptOk(w: World, t: Attempt) {
    && t.claim.parent == None && t.claim.holder.task == t.task
    && (forall x :: x in t.tokens ==> NamesIfCurrent(w, x, t.task))
    && (t.settle.Adopted? ==> NamesIfCurrent(w, t.settle.at, t.task))
    && (t.settle.Read? ==> t.settle.at in Occupants(w.log))
  }

  predicate CallOk(w: World, c: Call) {
    && c.attempt in w.attempts
    && c.at in Occupants(w.log)
    && (w.cfg.errexit && !c.pc.Listed? ==> c.pc.verified)
    && (c.pc.Fetched? && c.pc.verified && w.srv.fence == Some(c.at) ==>
          w.attempts[c.attempt].local == Some(c.at))
    && (c.pc.Checked? && c.pc.verified ==> NamesIfCurrent(w, c.at, w.attempts[c.attempt].task))
  }

  /** A Released event is the settle of an attempt that finished with that exit code. */
  predicate ReleaseOk(w: World, e: Event) {
    e.Released? ==>
      && e.attempt in w.attempts
      && w.attempts[e.attempt].task == e.task
      && w.attempts[e.attempt].outcome.Some?
      && e.exit == ExitCode(w.attempts[e.attempt].outcome.value)
  }

  ghost predicate Inv(w: World) {
    && w.cfg.freshClaims
    && w.srv.fence == Current(w.log)
    && LogOk(w.log) && NeverTwice(w.log)
    && (forall a :: a in w.attempts ==> AttemptOk(w, w.attempts[a]))
    && (forall c :: c in w.calls ==> CallOk(w, w.calls[c]))
    && (forall k :: 0 <= k < |w.log| ==> ReleaseOk(w, w.log[k]))
    && (forall k :: 0 <= k < |w.log| && w.cfg.errexit && w.log[k].Landed? ==> w.log[k].verified && w.log[k].after.Some?)
  }

  /** A history may be extended by one event that suits the current value. */
  lemma Extend(log: seq<Event>, e: Event)
    requires LogOk(log) && NeverTwice(log)
    requires EventOk(Current(log), e)
    requires After(e).Some? ==> After(e).value !in Occupants(log)
    ensures LogOk(log + [e]) && NeverTwice(log + [e])
    ensures Current(log + [e]) == After(e)
    ensures Occupants(log + [e]) == Occupants(log) + (if After(e).Some? then {After(e).value} else {})
  {
    var ext := log + [e];
    forall k | 0 <= k < |ext| ensures EventOk(Before(ext, k), ext[k]) {
      assert ext[..k] == log[..k];
      if k == |log| { assert log[..k] == log; }
    }
    forall i, k | 0 <= i < k < |ext| && After(ext[i]).Some? ensures After(ext[i]) != After(ext[k]) {
      assert After(ext[i]).value in Occupants(log);
    }
    var all := Occupants(log) + (if After(e).Some? then {After(e).value} else {});
    forall o | o in all ensures o in Occupants(ext) {
      if o in Occupants(log) {
        var k :| 0 <= k < |log| && After(log[k]) == Some(o);
        assert ext[k] == log[k];
      } else {
        assert ext[|log|] == e;
      }
    }
  }

  /** A child of the current object is an object the ref never held. */
  lemma ChildIsFresh(log: seq<Event>, next: Commit)
    requires LogOk(log) && NeverTwice(log)
    requires next.parent.Some? && Current(log) == next.parent
    ensures next !in Occupants(log)
  {
    forall k | 0 <= k < |log| ensures After(log[k]) != Some(next) {
      assert EventOk(Before(log, k), log[k]);
      if k > 0 {
        assert log[..k][k - 1] == log[k - 1];
        assert After(log[k - 1]).Some? ==> After(log[k - 1]) != After(log[|log| - 1]);
      }
    }
  }

  /** The ref has moved by one event, and whoever the step did not serve is as before. */
  ghost predicate OneMore(w: World, w': World, e: Event) {
    && w'.cfg == w.cfg && w'.log == w.log + [e] && w'.srv.fence == After(e)
    && (After(e).Some? ==> After(e).value !in Occupants(w.log))
    && (forall c :: c in w'.calls ==> c in w.calls && w'.calls[c] == w.calls[c])
    && (forall a :: a in w.attempts ==>
          && a in w'.attempts && w'.attempts[a].task == w.attempts[a].task
          && w'.attempts[a].local == w.attempts[a].local && w'.attempts[a].outcome == w.attempts[a].outcome)
  }

  /** Moving the ref by one event leaves every idle attempt and call as it should be. */
  lemma Moved(w: World, w': World, e: Event)
    requires Inv(w) && OneMore(w, w', e) && EventOk(w.srv.fence, e) && ReleaseOk(w', e)
    requires forall a :: a in w'.attempts && (a !in w.attempts || w'.attempts[a] != w.attempts[a]) ==>
                           AttemptOk(w', w'.attempts[a])
    requires w.cfg.errexit && e.Landed? ==> e.verified && e.after.Some?
    ensures Inv(w')
  {
    Extend(w.log, e);
    MovedAttempts(w, w', e);
    MovedCalls(w, w', e);
    MovedReleases(w, w', e);
    hide LogOk, NeverTwice, AttemptOk, CallOk, ReleaseOk, Occupants, EventOk, Current;
  }

  lemma MovedAttempts(w: World, w': World, e: Event)
    requires Inv(w) && OneMore(w, w', e) && EventOk(w.srv.fence, e)
    requires forall a :: a in w'.attempts && (a !in w.attempts || w'.attempts[a] != w.attempts[a]) ==>
                           AttemptOk(w', w'.attempts[a])
    ensures forall a :: a in w'.attempts ==> AttemptOk(w', w'.attempts[a])
  {
    Extend(w.log, e);
    hide LogOk, NeverTwice, AttemptOk, CallOk, ReleaseOk, Occupants, EventOk, Current;
    forall a | a in w'.attempts ensures AttemptOk(w', w'.attempts[a]) {
      if a in w.attempts && w'.attempts[a] == w.attempts[a] { IdleAttempt(w, w', e, w.attempts[a]); }
    }
  }

  lemma MovedCalls(w: World, w': World, e: Event)
    requires Inv(w) && OneMore(w, w', e) && EventOk(w.srv.fence, e)
    ensures forall c :: c in w'.calls ==> CallOk(w', w'.calls[c])
  {
    Extend(w.log, e);
    hide LogOk, NeverTwice, AttemptOk, ReleaseOk, Occupants, EventOk, Current;
    forall c | c in w'.calls ensures CallOk(w', w'.calls[c]) {
      assert CallOk(w, w.calls[c]);
      IdleCall(w, w', e, w.calls[c]);
    }
  }

  lemma MovedReleases(w: World, w': World, e: Event)
    requires Inv(w) && OneMore(w, w', e) && ReleaseOk(w', e)
    ensures forall k :: 0 <= k < |w'.log| ==> ReleaseOk(w', w'.log[k])
  {
    hide LogOk, NeverTwice, AttemptOk, CallOk, Occupants, EventOk, Current;
    forall k | 0 <= k < |w'.log| ensures ReleaseOk(w', w'.log[k]) {
      if k < |w.log| { assert ReleaseOk(w, w.log[k]); }
    }
  }

  lemma IdleCall(w: World, w': World, e: Event, c: Call)
    requires CallOk(w, c) && w'.cfg == w.cfg && w'.srv.fence == After(e)
    requires Occupants(w'.log) == Occupants(w.log) + (if After(e).Some? then {After(e).value} else {})
    requires After(e).Some? ==> After(e).value !in Occupants(w.log)
    requires c.attempt in w'.attempts && w'.attempts[c.attempt].task == w.attempts[c.attempt].task
    requires w'.attempts[c.attempt].local == w.attempts[c.attempt].local
    ensures CallOk(w', c)
  {
    hide Occupants;
  }

  lemma IdleAttempt(w: World, w': World, e: Event, t: Attempt)
    requires AttemptOk(w, t) && w'.log == w.log + [e] && w'.srv.fence == After(e)
    requires Occupants(w'.log) == Occupants(w.log) + (if After(e).Some? then {After(e).value} else {})
    requires After(e).Some? ==> After(e).value !in Occupants(w.log)
    ensures AttemptOk(w', t)
  {
    hide Occupants;
    forall x | x in t.tokens ensures NamesIfCurrent(w', x, t.task) {
      assert NamesIfCurrent(w, x, t.task);
    }
  }

  /** A step that leaves the ref alone only has to answer for what it changed. */
  lemma Still(w: World, w': World)
    requires Inv(w)
    requires w'.cfg == w.cfg && w'.log == w.log && w'.srv == w.srv
    requires forall a :: a in w.attempts ==> a in w'.attempts
    requires forall a :: a in w.attempts ==> w'.attempts[a].task == w.attempts[a].task
    requires forall a :: a in w.attempts ==>
                           w.attempts[a].outcome.Some? ==> w'.attempts[a].outcome == w.attempts[a].outcome
    requires forall a :: a in w.attempts ==>
                           w'.attempts[a].local == w.attempts[a].local || w'.attempts[a].local == w.srv.fence
    requires forall a :: a in w'.attempts && (a !in w.attempts || w'.attempts[a] != w.attempts[a]) ==>
                           AttemptOk(w', w'.attempts[a])
    requires forall c :: c in w'.calls && (c !in w.calls || w'.calls[c] != w.calls[c]) ==> CallOk(w', w'.calls[c])
    ensures Inv(w')
  {
    forall a | a in w'.attempts ensures AttemptOk(w', w'.attempts[a]) {
      if a in w.attempts && w'.attempts[a] == w.attempts[a] {
        assert AttemptOk(w, w.attempts[a]);
        var t := w.attempts[a];
        forall x | x in t.tokens ensures NamesIfCurrent(w', x, t.task) {
          assert NamesIfCurrent(w, x, t.task);
        }
      }
    }
    forall c | c in w'.calls ensures CallOk(w', w'.calls[c]) {
      if c in w.calls && w'.calls[c] == w.calls[c] { assert CallOk(w, w.calls[c]); }
    }
    forall k | 0 <= k < |w'.log| ensures ReleaseOk(w', w'.log[k]) {
      assert ReleaseOk(w, w.log[k]);
    }
  }

  /** With the ref and its history as they were, an attempt need only answer for new tokens and its settling. */
  lemma Carry(w: World, w': World, t: Attempt, t': Attempt)
    requires w'.srv == w.srv && w'.log == w.log && AttemptOk(w, t)
    requires t'.task == t.task && t'.claim == t.claim
    requires forall x :: x in t'.tokens ==> x in t.tokens || NamesIfCurrent(w, x, t.task)
    requires t'.settle.Adopted? && t'.settle != t.settle ==> NamesIfCurrent(w, t'.settle.at, t.task)
    requires t'.settle.Read? && t'.settle != t.settle ==> t'.settle.at in Occupants(w.log)
    ensures AttemptOk(w', t')
  {
    hide Occupants;
    forall x | x in t'.tokens ensures NamesIfCurrent(w', x, t'.task) {
      assert NamesIfCurrent(w, x, t.task);
    }
  }

  /** The ref's value is one of its occupants. */
  lemma CurrentOccupies(w: World)
    requires Inv(w) && w.srv.fence.Some?
    ensures w.srv.fence.value in Occupants(w.log)
  {
    assert After(w.log[|w.log| - 1]).value in Occupants(w.log);
  }

  /** A won claim, whose answer came or did not. */
  function AfterClaim(w: World, a: nat, obj: Commit, node: string, lost: bool): World {
    w.(srv := Server(Some(obj), w.srv.branches), log := w.log + [Claimed(obj.holder.task, obj)],
       attempts := if lost then w.attempts
                   else w.attempts[a := Attempt(obj.holder.task, node, obj, {obj}, {}, None, None, Unsettled)])
  }

  lemma WonClaimKeeps(w: World, a: nat, obj: Commit, node: string, lost: bool)
    requires Inv(w) && a !in w.attempts && w.srv.fence == None && obj.parent == None && obj !in Occupants(w.log)
    ensures Inv(AfterClaim(w, a, obj, node, lost))
  {
    var w', e := AfterClaim(w, a, obj, node, lost), Claimed(obj.holder.task, obj);
    assert EventOk(w.srv.fence, e);
    Extend(w.log, e);
    hide Inv, LogOk, NeverTwice, CallOk, Occupants, Current, EventOk;
    assert !lost ==> AttemptOk(w', w'.attempts[a]);
    hide AttemptOk;
    Moved(w, w', e);
  }

  lemma ClaimKeeps(w: World, a: nat, task: string, node: string, now: int, net: Net)
    requires Inv(w)
    ensures Inv(DoClaim(w, a, task, node, now, net))
  {
    var obj := ClaimObject(task, node, now);
    assert w.cfg.freshClaims && w.srv.branches + map[] == w.srv.branches;
    hide Inv, Occupants;
    if a !in w.attempts && !net.NotDelivered? && w.srv.fence.None? && obj !in Occupants(w.log) {
      WonClaimKeeps(w, a, obj, node, net.AckLost?);
    }
  }

  lemma ListKeeps(w: World, c: nat, a: nat)
    requires Inv(w)
    ensures Inv(DoList(w, c, a))
  {
    var w' := DoList(w, c, a);
    if w' != w {
      CurrentOccupies(w);
      Still(w, w');
    }
  }

  /** A call that is over. */
  lemma CallDropped(w: World, c: nat)
    requires Inv(w)
    ensures Inv(w.(calls := w.calls - {c}))
  {
    hide Inv, AttemptOk, CallOk, Occupants;
    Still(w, w.(calls := w.calls - {c}));
  }

  /** A call that has got further. */
  lemma CallMoved(w: World, c: nat, k: Call)
    requires Inv(w) && c in w.calls && CallOk(w, k)
    ensures Inv(w.(calls := w.calls[c := k]))
  {
    var w' := w.(calls := w.calls[c := k]);
    assert CallOk(w', k);
    hide Inv, AttemptOk, CallOk, Occupants;
    Still(w, w');
  }

  lemma FetchedKeeps(w: World, c: nat)
    requires Inv(w) && c in w.calls && w.calls[c].attempt in w.attempts && w.srv.fence.Some?
    ensures var a := w.calls[c].attempt;
            var t := w.attempts[a];
            Inv(w.(attempts := w.attempts[a := t.(local := w.srv.fence, have := t.have + Lineage(w.srv.fence.value))],
                   calls := w.calls[c := w.calls[c].(pc := Fetched(true))]))
  {
    var call, a := w.calls[c], w.calls[c].attempt;
    var t := w.attempts[a];
    var t' := t.(local := w.srv.fence, have := t.have + Lineage(w.srv.fence.value));
    var w1 := w.(attempts := w.attempts[a := t']);
    assert CallOk(w, call) && AttemptOk(w, t);
    hide Inv;
    Carry(w, w1, t, t');
    var k := call.(pc := Fetched(true));
    assert CallOk(w1, k);
    hide AttemptOk, CallOk, Occupants, Lineage;
    Still(w, w1);
    CallMoved(w1, c, k);
  }

  lemma FetchKeeps(w: World, c: nat, ok: bool)
    requires Inv(w)
    ensures Inv(DoFetch(w, c, ok))
  {
    if c in w.calls && w.calls[c].pc.Listed? && w.calls[c].attempt in w.attempts {
      assert CallOk(w, w.calls[c]);
      hide Inv, AttemptOk, Occupants, Lineage;
      if ok && w.srv.fence.Some? {
        FetchedKeeps(w, c);
      } else if w.cfg.errexit {
        CallDropped(w, c);
      } else {
        CallMoved(w, c, w.calls[c].(pc := Fetched(false)));
      }
    }
  }

  lemma CheckKeeps(w: World, c: nat)
    requires Inv(w)
    ensures Inv(DoCheck(w, c))
  {
    if c in w.calls && w.calls[c].pc.Fetched? && w.calls[c].attempt in w.attempts {
      var call := w.calls[c];
      var t := w.attempts[call.attempt];
      assert CallOk(w, call);
      hide Inv, AttemptOk, Occupants;
      if t.local.Some? && t.local.value.holder.task == t.task {
        var k := call.(pc := Checked(call.pc.verified));
        assert CallOk(w, k);
        CallMoved(w, c, k);
      } else {
        CallDropped(w, c);
      }
    }
  }

  /** A leased push by a caller whose lease names it, from any bookkeeping change. */
  lemma LandKeeps(w: World, task: string, lease: Commit, next: Option<Commit>, updates: Branches, accepted: bool, verified: bool)
    requires Inv(w)
    requires next.Some? ==> next.value.parent == Some(lease) && next.value.holder.task == task
    requires verified ==> NamesIfCurrent(w, lease, task)
    requires w.cfg.errexit ==> verified && next.Some?
    ensures Inv(Land(w, task, lease, next, updates, accepted, verified))
  {
    var w' := Land(w, task, lease, next, updates, accepted, verified);
    if w'.log != w.log {
      if next.Some? { ChildIsFresh(w.log, next.value); }
      hide Inv;
      Moved(w, w', Landed(task, lease, next, updates, verified));
    }
  }

  /** A VM with one commit more. */
  lemma HavingKeeps(w: World, a: nat, have: set<Commit>)
    requires Inv(w) && a in w.attempts
    ensures Inv(w.(attempts := w.attempts[a := w.attempts[a].(have := have)]))
  {
    var w' := w.(attempts := w.attempts[a := w.attempts[a].(have := have)]);
    assert AttemptOk(w, w.attempts[a]);
    hide Inv;
    Carry(w, w', w.attempts[a], w'.attempts[a]);
    hide AttemptOk;
    Still(w, w');
  }

  lemma PushKeeps(w: World, c: nat, now: int, updates: Branches, accepted: bool, net: Net)
    requires Inv(w)
    ensures Inv(DoPush(w, c, now, updates, accepted, net))
  {
    if c in w.calls && w.calls[c].pc.Checked? && w.calls[c].attempt in w.attempts {
      var call := w.calls[c];
      var at := w.attempts[call.attempt];
      assert CallOk(w, call);
      assert AttemptOk(w, at);
      hide Inv, CallOk, AttemptOk, Occupants, Land;
      var w1 := w.(calls := w.calls - {c});
      CallDropped(w, c);
      if call.at !in at.have {
        if !w.cfg.errexit && !net.NotDelivered? {
          LandKeeps(w1, at.task, call.at, None, updates, accepted, call.pc.verified);
        }
      } else {
        var next := Commit(at.claim.holder.(phase := "pushed"), now, Some(call.at));
        HavingKeeps(w1, call.attempt, at.have + {next});
        var w2 := w1.(attempts := w.attempts[call.attempt := at.(have := at.have + {next})]);
        if !net.NotDelivered? {
          LandKeeps(w2, at.task, call.at, Some(next), updates, accepted, call.pc.verified);
        }
      }
    }
  }

  lemma AdvanceKeeps(w: World, a: nat, token: Commit, phase: string, now: int, updates: Branches, accepted: bool, net: Net)
    requires Inv(w)
    ensures Inv(DoAdvance(w, a, token, phase, now, updates, accepted, net))
  {
    var w' := DoAdvance(w, a, token, phase, now, updates, accepted, net);
    if a in w.attempts && token in w.attempts[a].tokens && !net.NotDelivered? {
      var at := w.attempts[a];
      assert AttemptOk(w, at);
      assert NamesIfCurrent(w, token, at.task);
      var next := Commit(at.claim.holder.(phase := phase), now, Some(token));
      LandKeeps(w, at.task, token, Some(next), updates, accepted, true);
      var landed := Land(w, at.task, token, Some(next), updates, accepted, true);
      if landed.log != w.log && !net.AckLost? {
        CurrentOccupies(landed);
        assert AttemptOk(landed, landed.attempts[a]);
        hide Inv;
        Carry(landed, w', landed.attempts[a], w'.attempts[a]);
        hide AttemptOk;
        Still(landed, w');
      }
    }
  }

  lemma FinishKeeps(w: World, a: nat, outcome: Outcome)
    requires Inv(w)
    ensures Inv(DoFinish(w, a, outcome))
  {
    var w' := DoFinish(w, a, outcome);
    if w' != w {
      assert AttemptOk(w, w.attempts[a]);
      hide Inv;
      Carry(w, w', w.attempts[a], w'.attempts[a]);
      hide AttemptOk;
      Still(w, w');
    }
  }

  /** One attempt settles a little further; the ref stays where it is. */
  lemma SettlingKeeps(w: World, a: nat, t': Attempt)
    requires Inv(w) && a in w.attempts
    requires t' == w.attempts[a].(settle := t'.settle, tokens := t'.tokens)
    requires forall x :: x in t'.tokens ==> x in w.attempts[a].tokens || NamesIfCurrent(w, x, t'.task)
    requires t'.settle.Adopted? ==> NamesIfCurrent(w, t'.settle.at, t'.task)
    requires t'.settle.Read? ==> t'.settle.at in Occupants(w.log)
    ensures Inv(w.(attempts := w.attempts[a := t']))
  {
    var w' := w.(attempts := w.attempts[a := t']);
    assert AttemptOk(w, w.attempts[a]);
    hide Inv;
    Carry(w, w', w.attempts[a], t');
    hide AttemptOk;
    Still(w, w');
  }

  lemma SettleListKeeps(w: World, a: nat)
    requires Inv(w)
    ensures Inv(DoSettleList(w, a))
  {
    var w' := DoSettleList(w, a);
    if w' != w {
      if w.srv.fence.Some? { CurrentOccupies(w); }
      hide Inv;
      SettlingKeeps(w, a, w'.attempts[a]);
    }
  }

  lemma SettleFetchKeeps(w: World, a: nat, ok: bool)
    requires Inv(w)
    ensures Inv(DoSettleFetch(w, a, ok))
  {
    var w' := DoSettleFetch(w, a, ok);
    if w' != w {
      assert AttemptOk(w, w.attempts[a]);
      assert w.attempts[a].settle.at in Occupants(w.log);
      hide Inv;
      SettlingKeeps(w, a, w'.attempts[a]);
    }
  }

  /** Settling without touching the ref. */
  lemma SettledKeeps(w: World, a: nat, held: bool)
    requires Inv(w) && a in w.attempts
    ensures Inv(SetSettle(w, a, Settled(held)))
  {
    hide Inv;
    SettlingKeeps(w, a, w.attempts[a].(settle := Settled(held)));
  }

  /** The ref is emptied and one attempt is settled, when the lease still held. */
  function AfterRelease(w: World, a: nat, lost: bool): World
    requires a in w.attempts && w.attempts[a].settle.Adopted? && w.attempts[a].outcome.Some?
  {
    var t := w.attempts[a];
    w.(srv := Server(None, w.srv.branches), attempts := w.attempts[a := t.(settle := Settled(lost))],
       log := w.log + [Released(a, t.task, ExitCode(t.outcome.value), t.settle.at)])
  }

  lemma ReleaseIs(w: World, a: nat, net: Net)
    requires a in w.attempts && w.attempts[a].settle.Adopted? && w.attempts[a].outcome.Some?
    requires w.srv.fence == Some(w.attempts[a].settle.at)
    requires w.attempts[a].settle.at == w.attempts[a].claim || ExitCode(w.attempts[a].outcome.value) == 0
    requires !net.NotDelivered?
    ensures DoSettleDecide(w, a, net) == AfterRelease(w, a, net.AckLost?)
  {
    assert w.srv.branches + map[] == w.srv.branches;
  }

  lemma ReleaseKeeps(w: World, a: nat, lost: bool)
    requires Inv(w)
    requires a in w.attempts && w.attempts[a].settle.Adopted? && w.attempts[a].outcome.Some?
    requires w.srv.fence == Some(w.attempts[a].settle.at)
    requires w.attempts[a].settle.at == w.attempts[a].claim || ExitCode(w.attempts[a].outcome.value) == 0
    ensures Inv(AfterRelease(w, a, lost))
  {
    var w', t := AfterRelease(w, a, lost), w.attempts[a];
    assert AttemptOk(w, t);
    var e := w'.log[|w.log|];
    assert EventOk(w.srv.fence, e);
    Extend(w.log, e);
    hide Inv, LogOk, NeverTwice, AttemptOk, CallOk, Occupants, Current, EventOk, ExitCode;
    IdleAttempt(w, w', e, t);
    Carry(w', w', t, w'.attempts[a]);
    Moved(w, w', e);
  }

  lemma SettleDecideKeeps(w: World, a: nat, net: Net)
    requires Inv(w)
    ensures Inv(DoSettleDecide(w, a, net))
  {
    if a in w.attempts && w.attempts[a].settle.Adopted? && w.attempts[a].outcome.Some? {
      var t := w.attempts[a];
      var hold := (t.settle.at != t.claim && ExitCode(t.outcome.value) != 0) || net.NotDelivered?;
      if !hold && w.srv.fence == Some(t.settle.at) {
        ReleaseIs(w, a, net);
        ReleaseKeeps(w, a, net.AckLost?);
      } else {
        SettledKeeps(w, a, true);
        assert DoSettleDecide(w, a, net) == SetSettle(w, a, Settled(true));
      }
    }
  }

  lemma BreakKeeps(w: World, named: Option<Commit>, net: Net)
    requires Inv(w)
    ensures Inv(DoBreak(w, named, net))
  {
    var w' := DoBreak(w, named, net);
    if w'.log != w.log {
      assert EventOk(w.srv.fence, Broken(named.value));
      hide Inv, LogOk, NeverTwice, AttemptOk, CallOk, Occupants, Current, EventOk;
      Moved(w, w', Broken(named.value));
    } else {
      assert w' == w;
    }
  }

  lemma StepKeeps(w: World, act: Action)
    requires Inv(w)
    ensures Inv(Step(w, act))
  {
    hide Inv, DoClaim, DoList, DoFetch, DoCheck, DoPush, DoAdvance, DoFinish, DoSettleList, DoSettleFetch, DoSettleDecide, DoBreak;
    match act
    case Claim(a, task, node, now, net) => ClaimKeeps(w, a, task, node, now, net);
    case List(c, a) => ListKeeps(w, c, a);
    case Fetch(c, ok) => FetchKeeps(w, c, ok);
    case Check(c) => CheckKeeps(w, c);
    case Push(c, now, updates, accepted, net) => PushKeeps(w, c, now, updates, accepted, net);
    case Advance(a, token, phase, now, updates, accepted, net) =>
      AdvanceKeeps(w, a, token, phase, now, updates, accepted, net);
    case Finish(a, outcome) => FinishKeeps(w, a, outcome);
    case SettleList(a) => SettleListKeeps(w, a);
    case SettleFetch(a, ok) => SettleFetchKeeps(w, a, ok);
    case SettleDecide(a, net) => SettleDecideKeeps(w, a, net);
    case Break(named, net) => BreakKeeps(w, named, net);
  }

  lemma {:induction false} RunKeeps(w: World, acts: seq<Action>)
    requires Inv(w)
    ensures Inv(Run(w, acts))
    decreases |acts|
  {
    hide Inv, Step;
    if acts != [] {
      StepKeeps(w, acts[0]);
      RunKeeps(Step(w, acts[0]), acts[1..]);
    }
  }
}
