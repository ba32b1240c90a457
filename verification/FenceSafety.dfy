/**
 At-most-once effects: what holds of every run of the fence protocol, and the
 exact assumptions it needs.
 */
module FenceSafety {
  import opened Prelude
  import opened FenceModel
  import opened FenceInvariant

  const SOUND := Config(true, true)

  /** Every landed effect found a record naming the task that pushed it. */
  ghost predicate AllNamed(log: seq<Event>) {
    forall k :: 0 <= k < |log| && log[k].Landed? ==>
      Before(log, k).Some? && Before(log, k).value.holder.task == log[k].task
  }

  /** Once the ref has left an object it never points at it again. */
  ghost predicate NeverReturns(log: seq<Event>) {
    forall i, j, k :: 0 <= i < j < k < |log| && After(log[i]).Some? && After(log[j]) != After(log[i]) ==>
      After(log[k]) != After(log[i])
  }

  lemma InitKeeps(cfg: Config, branches: Branches)
    requires cfg.freshClaims
    ensures Inv(Init(cfg, branches))
  {
  }

  ghost predicate Reachable(cfg: Config, w: World) {
    exists branches, acts :: w == Run(Init(cfg, branches), acts)
  }

  /** Everything proved of the invariant holds of every reachable world. */
  lemma ReachableKeeps(cfg: Config, w: World)
    requires Reachable(cfg, w)
    ensures w.cfg == cfg
    ensures cfg.freshClaims ==> Inv(w)
  {
    hide Run, Inv;
    var branches, acts :| w == Run(Init(cfg, branches), acts);
    RunExtends(Init(cfg, branches), acts);
    if cfg.freshClaims {
      InitKeeps(cfg, branches);
      RunKeeps(Init(cfg, branches), acts);
    }
  }

  lemma {:induction false} RunConcat(w: World, xs: seq<Action>, ys: seq<Action>)
    ensures Run(w, xs + ys) == Run(Run(w, xs), ys)
    decreases |xs|
  {
    if xs == [] {
      assert xs + ys == ys;
    } else {
      assert (xs + ys)[1..] == xs[1..] + ys;
      RunConcat(Step(w, xs[0]), xs[1..], ys);
    }
  }

  lemma RunThree(w: World, xs: seq<Action>, ys: seq<Action>, zs: seq<Action>)
    ensures Run(w, xs + ys + zs) == Run(Run(Run(w, xs), ys), zs)
  {
    hide Run;
    RunConcat(w, xs + ys, zs);
    RunConcat(w, xs, ys);
  }

  lemma RunSnoc(w: World, xs: seq<Action>, act: Action)
    ensures Run(w, xs + [act]) == Step(Run(w, xs), act)
  {
    RunConcat(w, xs, [act]);
    assert [act][1..] == [];
  }

  lemma RunCons(w: World, acts: seq<Action>)
    requires acts != []
    ensures Run(w, acts) == Run(Step(w, acts[0]), acts[1..])
    ensures |acts| == 1 ==> Run(w, acts) == Step(w, acts[0])
  {
    if |acts| == 1 { assert acts[1..] == []; }
  }

  /** A step adds at most one event, and the configuration never changes. */
  lemma StepExtends(w: World, act: Action)
    ensures w.log <= Step(w, act).log && |Step(w, act).log| <= |w.log| + 1
    ensures Step(w, act).cfg == w.cfg
  {
  }

  lemma {:induction false} RunExtends(w: World, acts: seq<Action>)
    ensures w.log <= Run(w, acts).log && Run(w, acts).cfg == w.cfg
    decreases |acts|
  {
    if acts != [] {
      StepExtends(w, acts[0]);
      RunExtends(Step(w, acts[0]), acts[1..]);
    }
  }

  // ---------------------------------------------------------------- no return

  /** The ref never returns to an object, whatever the interleaving. */
  lemma FenceNeverReturns(cfg: Config, w: World)
    requires cfg.freshClaims && Reachable(cfg, w)
    ensures NeverReturns(w.log) && NeverTwice(w.log)
  {
    ReachableKeeps(cfg, w);
  }

  /** Two claims by one task inside one second write one object. */
  function SameSecondRun(): seq<Action> {
    var c := ClaimObject("a", "n", 1);
    [Claim(0, "a", "n", 1, Delivered)] + [Break(Some(c), Delivered)] + [Claim(1, "a", "n", 1, Delivered)]
  }

  lemma SameSecondReturns(branches: Branches)
    ensures !NeverReturns(Run(Init(Config(true, false), branches), SameSecondRun()).log)
  {
    var w0 := Init(Config(true, false), branches);
    var c := ClaimObject("a", "n", 1);
    var a1 := [Claim(0, "a", "n", 1, Delivered)];
    var a2 := a1 + [Break(Some(c), Delivered)];
    RunSnoc(w0, [], Claim(0, "a", "n", 1, Delivered));
    assert [] + a1 == a1;
    RunSnoc(w0, a1, Break(Some(c), Delivered));
    RunSnoc(w0, a2, Claim(1, "a", "n", 1, Delivered));
    var log := Run(w0, SameSecondRun()).log;
    assert log == [Claimed("a", c), Broken(c), Claimed("a", c)];
    assert After(log[0]) == Some(c) && After(log[1]) == None && After(log[2]) == Some(c);
  }

  /** No return holds of every run exactly when claims are fresh. */
  lemma NoReturnExactly(freshClaims: bool, branches: Branches)
    ensures freshClaims <==>
            forall acts :: NeverReturns(Run(Init(Config(true, freshClaims), branches), acts).log)
  {
    if freshClaims {
      forall acts ensures NeverReturns(Run(Init(Config(true, freshClaims), branches), acts).log) {
        var w := Run(Init(Config(true, freshClaims), branches), acts);
        FenceNeverReturns(Config(true, freshClaims), w);
      }
    } else {
      SameSecondReturns(branches);
    }
  }

  // ------------------------------------------------- a landed effect is named

  /**
   Whatever interleaves with the separate reads of `kranq_push`, a push whose own
   fetch worked lands only on a record naming its task.
   */
  lemma VerifiedPushIsNamed(cfg: Config, w: World, k: nat)
    requires cfg.freshClaims && Reachable(cfg, w)
    requires k < |w.log| && w.log[k].Landed? && w.log[k].verified
    ensures Before(w.log, k) == Some(w.log[k].before) && w.log[k].before.holder.task == w.log[k].task
    ensures w.log[k].after.Some? ==> w.log[k].after.value.parent == Some(w.log[k].before)
  {
    ReachableKeeps(cfg, w);
    assert EventOk(Before(w.log, k), w.log[k]);
  }

  lemma EveryEffectIsNamed(w: World)
    requires Reachable(SOUND, w)
    ensures AllNamed(w.log)
  {
    ReachableKeeps(SOUND, w);
    forall k | 0 <= k < |w.log| && w.log[k].Landed?
      ensures Before(w.log, k).Some? && Before(w.log, k).value.holder.task == w.log[k].task
    {
      assert EventOk(Before(w.log, k), w.log[k]);
    }
  }

  /**
   A failed fetch that does not end the call leaves the record of an earlier fetch to be
   checked, and the VM without the object it listed: "a" lands its branch on the fence "b"
   holds, and deletes that fence.
   */
  function StaleRecordRun(): seq<Action> {
    LeftBehindActs() + TakenOverActs() + UnverifiedActs()
  }

  /** "a" claims, and its VM lists and fetches the fence. */
  function FetchedActs(): seq<Action> {
    [Claim(0, "a", "n", 1, Delivered), List(0, 0), Fetch(0, true)]
  }

  function FetchedWorld(cfg: Config, branches: Branches): World {
    var ca := ClaimObject("a", "n", 1);
    World(cfg, Server(Some(ca), branches),
          map[0 := Attempt("a", "n", ca, {ca}, {ca}, Some(ca), None, Unsettled)],
          map[0 := Call(0, ca, Fetched(true))], [Claimed("a", ca)])
  }

  lemma FetchedRun(cfg: Config, branches: Branches)
    requires cfg.freshClaims
    ensures Run(Init(cfg, branches), FetchedActs()) == FetchedWorld(cfg, branches)
  {
    var w0, ca := Init(cfg, branches), ClaimObject("a", "n", 1);
    var t := Attempt("a", "n", ca, {ca}, {}, None, None, Unsettled);
    var w1 := World(cfg, Server(Some(ca), branches), map[0 := t], map[], [Claimed("a", ca)]);
    var w2 := w1.(calls := map[0 := Call(0, ca, Listed)]);
    assert branches + map[] == branches && ca !in Occupants([]) && [] + [Claimed("a", ca)] == [Claimed("a", ca)];
    assert Step(w0, FetchedActs()[0]) == w1;
    assert Step(w1, FetchedActs()[1]) == w2;
    assert Lineage(ca) == {ca} && {} + {ca} == {ca};
    assert Step(w2, FetchedActs()[2]) == FetchedWorld(cfg, branches);
    hide Step;
    RunCons(w0, FetchedActs());
    RunCons(w1, FetchedActs()[1..]);
    assert FetchedActs()[1..][1..] == FetchedActs()[2..];
    RunCons(w2, FetchedActs()[2..]);
  }

  function LeftBehindActs(): seq<Action> {
    FetchedActs() + [Break(Some(ClaimObject("a", "n", 1)), Delivered)]
  }

  function TakenOverActs(): seq<Action> {
    [Claim(1, "b", "n", 2, Delivered), List(1, 0)]
  }

  function UnverifiedActs(): seq<Action> {
    [Fetch(1, false), Check(1), Push(1, 3, map["pr" := 1], true, Delivered)]
  }

  /** "a" fetched its own record, and then a human broke its fence. */
  function LeftBehindWorld(branches: Branches): World {
    var ca := ClaimObject("a", "n", 1);
    World(Config(false, true), Server(None, branches),
          map[0 := Attempt("a", "n", ca, {ca}, {ca}, Some(ca), None, Unsettled)],
          map[0 := Call(0, ca, Fetched(true))], [Claimed("a", ca), Broken(ca)])
  }

  /** "b" claimed, and the next call of "a" listed the fence of "b". */
  function TakenOverWorld(branches: Branches): World {
    var w, cb := LeftBehindWorld(branches), ClaimObject("b", "n", 2);
    w.(srv := Server(Some(cb), branches),
       attempts := w.attempts[1 := Attempt("b", "n", cb, {cb}, {}, None, None, Unsettled)],
       calls := w.calls[1 := Call(0, cb, Listed)], log := w.log + [Claimed("b", cb)])
  }

  lemma LeftBehindRun(branches: Branches)
    ensures Run(Init(Config(false, true), branches), LeftBehindActs()) == LeftBehindWorld(branches)
  {
    var cfg, ca := Config(false, true), ClaimObject("a", "n", 1);
    var w := FetchedWorld(cfg, branches);
    var act := Break(Some(ca), Delivered);
    assert branches + map[] == branches;
    assert Step(w, act) == LeftBehindWorld(branches);
    hide Step;
    FetchedRun(cfg, branches);
    RunSnoc(Init(cfg, branches), FetchedActs(), act);
  }

  lemma TakenOverRun(branches: Branches)
    ensures Run(LeftBehindWorld(branches), TakenOverActs()) == TakenOverWorld(branches)
  {
    var w, cb := LeftBehindWorld(branches), ClaimObject("b", "n", 2);
    assert cb !in Occupants(w.log);
    RunCons(w, TakenOverActs());
    RunCons(Step(w, TakenOverActs()[0]), TakenOverActs()[1..]);
  }

  lemma UnverifiedRun(branches: Branches)
    ensures var w, cb := Run(TakenOverWorld(branches), UnverifiedActs()), ClaimObject("b", "n", 2);
            && w.log == TakenOverWorld(branches).log + [Landed("a", cb, None, map["pr" := 1], false)]
            && w.srv == Server(None, branches + map["pr" := 1])
  {
    var w, cb := TakenOverWorld(branches), ClaimObject("b", "n", 2);
    var w1 := Step(w, UnverifiedActs()[0]);
    assert w1 == w.(calls := w.calls[1 := Call(0, cb, Fetched(false))]);
    var w2 := Step(w1, UnverifiedActs()[1]);
    assert w2 == w.(calls := w.calls[1 := Call(0, cb, Checked(false))]);
    RunCons(w, UnverifiedActs());
    RunCons(w1, UnverifiedActs()[1..]);
    RunCons(w2, UnverifiedActs()[2..]);
  }

  lemma StaleRecordLands(branches: Branches)
    ensures var w := Run(Init(Config(false, true), branches), StaleRecordRun());
            !AllNamed(w.log) && w.srv == Server(None, branches + map["pr" := 1])
  {
    var w0 := Init(Config(false, true), branches);
    LeftBehindRun(branches);
    TakenOverRun(branches);
    UnverifiedRun(branches);
    RunThree(w0, LeftBehindActs(), TakenOverActs(), UnverifiedActs());
    hide Run;
    var log := Run(w0, StaleRecordRun()).log;
    assert log[..3] == TakenOverWorld(branches).log;
    assert Before(log, 3) == Some(ClaimObject("b", "n", 2)) && log[3].Landed?;
  }

  /** Every landed effect is named in every run exactly when errexit is in force. */
  lemma NamedExactly(errexit: bool, branches: Branches)
    ensures errexit <==> forall acts :: AllNamed(Run(Init(Config(errexit, true), branches), acts).log)
  {
    if errexit {
      forall acts ensures AllNamed(Run(Init(Config(errexit, true), branches), acts).log) {
        EveryEffectIsNamed(Run(Init(Config(errexit, true), branches), acts));
      }
    } else {
      StaleRecordLands(branches);
    }
  }

  // ----------------------------------------------------------- at most once

  /** A break, or the settle of `task` with exit code 0. */
  predicate Frees(e: Event, task: string) {
    e.Broken? || (e.Released? && e.task == task && e.exit == 0)
  }

  /** A history every event of which suits the value it found, with errexit in force. */
  ghost predicate CleanLog(log: seq<Event>) {
    LogOk(log) && forall k :: 0 <= k < |log| && log[k].Landed? ==> log[k].verified && log[k].after.Some?
  }

  lemma ReachableLogIsClean(w: World)
    requires Reachable(SOUND, w)
    ensures CleanLog(w.log) && (forall k :: 0 <= k < |w.log| ==> ReleaseOk(w, w.log[k])) && w.srv.fence == Current(w.log)
  {
    ReachableKeeps(SOUND, w);
    hide Reachable, LogOk;
  }

  /** What the ref names from event `i` to just after event `m - 1`. */
  ghost predicate Tenure(log: seq<Event>, i: nat, m: nat)
    requires i < m <= |log| && log[i].Landed?
  {
    && After(log[m - 1]).Some?
    && After(log[m - 1]).value.holder.task == log[i].task && After(log[m - 1]).value.parent.Some?
    && forall k :: i < k < m ==> log[k].Landed? && log[k].task == log[i].task
  }

  lemma {:induction false} TenureOf(log: seq<Event>, i: nat, m: nat)
    requires CleanLog(log) && i < m <= |log| && log[i].Landed?
    requires forall k :: i < k < m ==> !Frees(log[k], log[i].task)
    ensures Tenure(log, i, m)
    decreases m
  {
    hide *;
    if m > i + 1 {
      TenureOf(log, i, m - 1);
      EventIsClean(log, m - 1);
      TenureGrows(log, i, m);
    } else {
      TenureBegins(log, i);
    }
  }

  lemma TenureBegins(log: seq<Event>, i: nat)
    requires CleanLog(log) && i < |log| && log[i].Landed?
    ensures Tenure(log, i, i + 1)
  {
    assert EventOk(Before(log, i), log[i]);
    hide LogOk, Before;
  }

  lemma TenureGrows(log: seq<Event>, i: nat, m: nat)
    requires i + 1 < m <= |log| && log[i].Landed? && Tenure(log, i, m - 1)
    requires var e := log[m - 1];
             EventOk(After(log[m - 2]), e) && (e.Landed? ==> e.verified && e.after.Some?) && !Frees(e, log[i].task)
    ensures Tenure(log, i, m)
  {
    var e, before, task := log[m - 1], After(log[m - 2]), log[i].task;
    TenureStep(before, e, task);
    hide EventOk, Frees, After;
    assert e.Landed? && e.task == task && After(e).Some?;
  }

  lemma EventIsClean(log: seq<Event>, k: nat)
    requires CleanLog(log) && 0 < k < |log|
    ensures EventOk(After(log[k - 1]), log[k]) && (log[k].Landed? ==> log[k].verified && log[k].after.Some?)
  {
    assert EventOk(Before(log, k), log[k]);
    assert log[..k][k - 1] == log[k - 1];
    hide LogOk, EventOk, After;
  }

  /** From a landed effect on, the ref names that task until something frees it, and only that task lands. */
  lemma TenureHolds(w: World, i: nat, m: nat)
    requires Reachable(SOUND, w)
    requires i < m <= |w.log| && w.log[i].Landed?
    requires forall k :: i < k < m ==> !Frees(w.log[k], w.log[i].task)
    ensures Tenure(w.log, i, m)
  {
    ReachableLogIsClean(w);
    hide Reachable, CleanLog, Frees;
    TenureOf(w.log, i, m);
  }

  /** While a fence that has landed something names a task, only that task's effects leave it so. */
  lemma TenureStep(before: Option<Commit>, e: Event, task: string)
    requires EventOk(before, e) && !Frees(e, task) && (e.Landed? ==> e.verified && e.after.Some?)
    requires before.Some? && before.value.holder.task == task && before.value.parent.Some?
    ensures e.Landed? && e.task == task && After(e).Some?
    ensures After(e).value.holder.task == task && After(e).value.parent.Some?
  {
  }

  /** Two tasks' effects are never adjacent: the first one's fence was freed in between. */
  lemma EffectsAreSeparated(w: World, i: nat, j: nat)
    requires Reachable(SOUND, w)
    requires i < j < |w.log| && w.log[i].Landed? && w.log[j].Landed? && w.log[i].task != w.log[j].task
    ensures exists k :: i < k < j && Frees(w.log[k], w.log[i].task)
  {
    hide Reachable;
    if forall k :: i < k < j ==> !Frees(w.log[k], w.log[i].task) {
      assert !Frees(w.log[j], w.log[i].task);
      TenureHolds(w, i, j + 1);
    }
  }

  /**
   A task that pushed and whose finished attempts all left a nonzero exit code keeps
   the fence until a break: every later claim, its own included, changes nothing.
   */
  lemma HeldUntilBroken(w: World, i: nat)
    requires Reachable(SOUND, w)
    requires i < |w.log| && w.log[i].Landed?
    requires forall k :: i < k < |w.log| ==> !w.log[k].Broken?
    requires forall t :: t in w.attempts.Values && t.task == w.log[i].task && t.outcome.Some? ==>
                           ExitCode(t.outcome.value) != 0
    ensures w.srv.fence.Some? && w.srv.fence.value.holder.task == w.log[i].task
    ensures forall k :: i < k < |w.log| ==> w.log[k].Landed?
    ensures forall a, task, node, now, net :: Step(w, Claim(a, task, node, now, net)) == w
  {
    ReachableLogIsClean(w);
    forall k | i < k < |w.log| ensures !Frees(w.log[k], w.log[i].task) {
      assert ReleaseOk(w, w.log[k]);
      if w.log[k].Released? {
        assert w.attempts[w.log[k].attempt] in w.attempts.Values;
      }
    }
    hide Reachable, CleanLog, Frees;
    TenureOf(w.log, i, |w.log|);
  }

  /** What `settleFence` releases straight after an effect had ended in exit code 0. */
  lemma ReleaseAfterEffectIsClean(w: World, i: nat, k: nat)
    requires Reachable(SOUND, w)
    requires i < k < |w.log| && w.log[i].Landed? && w.log[k].Released?
    requires forall m :: i < m < k ==> w.log[m].Landed?
    ensures w.log[k].task == w.log[i].task && w.log[k].attempt in w.attempts
    ensures var t := w.attempts[w.log[k].attempt];
            t.task == w.log[i].task && t.outcome.Some? && ExitCode(t.outcome.value) == 0
  {
    ReachableLogIsClean(w);
    forall m | i < m < k ensures !Frees(w.log[m], w.log[i].task) {
      assert w.log[m].Landed?;
    }
    TenureOf(w.log, i, k);
    assert EventOk(Before(w.log, k), w.log[k]);
    assert w.log[..k][k - 1] == w.log[k - 1];
    hide Reachable, CleanLog;
    assert ReleaseOk(w, w.log[k]);
  }

  // ------------------------------------------------------- stale claims

  /** An object the ref has left stays left. */
  lemma LeftForGood(w: World, x: Commit, acts: seq<Action>)
    requires Inv(w) && x in Occupants(w.log) && w.srv.fence != Some(x)
    ensures Run(w, acts).srv.fence != Some(x)
  {
    hide Run;
    RunKeeps(w, acts);
    RunExtends(w, acts);
    var v := Run(w, acts);
    var k :| 0 <= k < |w.log| && After(w.log[k]) == Some(x);
    assert v.log[k] == w.log[k];
    if |v.log| == |w.log| {
      assert v.log == w.log;
    } else {
      assert After(v.log[k]) != After(v.log[|v.log| - 1]);
    }
  }

  /** The actions that lease the fence on `x`. */
  predicate LeasedOn(w: World, act: Action, x: Commit) {
    match act
    case Advance(_, token, _, _, _, _, _) => token == x
    case Push(c, _, _, _, _) => c in w.calls && w.calls[c].at == x
    case SettleDecide(a, _) => a in w.attempts && w.attempts[a].settle == Adopted(x)
    case Break(named, _) => named == Some(x)
    case _ => false
  }

  /**
   Once the ref has left an object, nothing leased on it ever changes a ref again: not
   a push, not an advance, not a release, not a break, after any further run.
   */
  lemma StaleClaimIsInert(cfg: Config, w: World, x: Commit, acts: seq<Action>, act: Action)
    requires cfg.freshClaims && Reachable(cfg, w) && x in Occupants(w.log) && w.srv.fence != Some(x)
    requires LeasedOn(Run(w, acts), act, x)
    ensures Step(Run(w, acts), act).srv == Run(w, acts).srv
  {
    ReachableKeeps(cfg, w);
    LeftForGood(w, x, acts);
    hide Reachable, Inv, Run, Occupants, Lineage;
    LeasedOnElsewhere(Run(w, acts), act, x);
  }

  lemma LeasedOnElsewhere(w: World, act: Action, x: Commit)
    requires w.srv.fence != Some(x) && LeasedOn(w, act, x)
    ensures Step(w, act).srv == w.srv
  {
    hide Lineage, Occupants;
  }

  /** A break, or a settle, that named the object the ref points at. */
  predicate NamesWhatItRemoves(w: World, act: Action) {
    || (act.Break? && act.named == w.srv.fence)
    || (act.SettleDecide? && act.a in w.attempts && w.srv.fence.Some?
        && w.attempts[act.a].settle == Adopted(w.srv.fence.value))
  }

  /** No step empties the ref but such a break or settle, and that touches no branch. */
  ghost predicate RemovalIsNamed(w: World) {
    forall act :: w.srv.fence.Some? && Step(w, act).srv.fence.None? ==>
      NamesWhatItRemoves(w, act) && Step(w, act).srv.branches == w.srv.branches
  }

  /** Otherwise it is a push, without errexit, whose VM lacks the object it listed. */
  lemma RemovalNamesItsObject(w: World, act: Action)
    requires w.srv.fence.Some? && Step(w, act).srv.fence.None?
    ensures
      || (NamesWhatItRemoves(w, act) && Step(w, act).srv.branches == w.srv.branches)
      || (!w.cfg.errexit && act.Push? && act.c in w.calls && w.calls[act.c].at == w.srv.fence.value
          && w.calls[act.c].attempt in w.attempts && w.srv.fence.value !in w.attempts[w.calls[act.c].attempt].have)
  {
  }

  /** In every run only a break or a settle empties the ref, exactly when errexit is in force. */
  lemma RemovalIsNamedExactly(errexit: bool, branches: Branches)
    ensures errexit <==> forall acts :: RemovalIsNamed(Run(Init(Config(errexit, true), branches), acts))
  {
    var w0 := Init(Config(errexit, true), branches);
    if errexit {
      forall acts ensures RemovalIsNamed(Run(w0, acts)) {
        var w := Run(w0, acts);
        RunExtends(w0, acts);
        forall act | w.srv.fence.Some? && Step(w, act).srv.fence.None?
          ensures NamesWhatItRemoves(w, act) && Step(w, act).srv.branches == w.srv.branches
        {
          RemovalNamesItsObject(w, act);
        }
      }
    } else {
      StaleRemoval(branches);
    }
  }

  /** The last step of the stale run empties the ref, and is neither. */
  lemma StaleRemoval(branches: Branches)
    ensures !RemovalIsNamed(Run(Init(Config(false, true), branches), BeforeTheStalePush()))
  {
    var w := TakenOverWorld(branches).(calls := TakenOverWorld(branches).calls[1 := Call(0, ClaimObject("b", "n", 2), Checked(false))]);
    LeftBehindRun(branches);
    TakenOverRun(branches);
    CheckedRun(branches);
    RunThree(Init(Config(false, true), branches), LeftBehindActs(), TakenOverActs(), UnverifiedActs()[..2]);
    hide Run;
    assert Run(Init(Config(false, true), branches), BeforeTheStalePush()) == w;
    StalePushRemoves(branches, w);
  }

  lemma StalePushRemoves(branches: Branches, w: World)
    requires w == TakenOverWorld(branches).(calls := TakenOverWorld(branches).calls[1 := Call(0, ClaimObject("b", "n", 2), Checked(false))])
    ensures !RemovalIsNamed(w)
  {
    var push := UnverifiedActs()[2];
    assert Step(w, push).srv.fence.None?;
    hide Step;
    assert !NamesWhatItRemoves(w, push);
  }

  function BeforeTheStalePush(): seq<Action> {
    LeftBehindActs() + TakenOverActs() + UnverifiedActs()[..2]
  }

  lemma CheckedRun(branches: Branches)
    ensures var w, cb := TakenOverWorld(branches), ClaimObject("b", "n", 2);
            Run(w, UnverifiedActs()[..2]) == w.(calls := w.calls[1 := Call(0, cb, Checked(false))])
  {
    var w, cb := TakenOverWorld(branches), ClaimObject("b", "n", 2);
    var acts := UnverifiedActs()[..2];
    var w1 := Step(w, acts[0]);
    assert w1 == w.(calls := w.calls[1 := Call(0, cb, Fetched(false))]);
    RunCons(w, acts);
    RunCons(w1, acts[1..]);
  }

  // ------------------------------------------------------- effects and history

  /** The branches a history accounts for. */
  function Replay(branches: Branches, log: seq<Event>): Branches {
    if log == [] then branches
    else
      var e := log[|log| - 1];
      var r := Replay(branches, log[..|log| - 1]);
      if e.Landed? then r + e.updates else r
  }

  /** History and branches stay, or grow by one event and what it landed. */
  ghost predicate Accounts(w: World, w': World) {
    || (w'.log == w.log && w'.srv.branches == w.srv.branches)
    || (|w'.log| == |w.log| + 1 && w'.log[..|w.log|] == w.log
        && var e := w'.log[|w.log|];
           w'.srv.branches == if e.Landed? then w.srv.branches + e.updates else w.srv.branches)
  }

  lemma PushAccounts(w: World, act: Action)
    requires act.Push? || act.Advance?
    ensures Accounts(w, Step(w, act))
  {
    hide Lineage;
  }

  lemma StepAccounts(w: World, act: Action)
    ensures Accounts(w, Step(w, act))
  {
    assert w.srv.branches + map[] == w.srv.branches;
    hide Lineage, Occupants;
    match act
    case Push(_, _, _, _, _) => PushAccounts(w, act);
    case Advance(_, _, _, _, _, _, _) => PushAccounts(w, act);
    case Claim(_, _, _, _, _) =>
    case SettleDecide(_, _) =>
    case Break(_, _) =>
    case _ =>
  }

  lemma StepReplays(branches: Branches, w: World, act: Action)
    requires w.srv.branches == Replay(branches, w.log)
    ensures Step(w, act).srv.branches == Replay(branches, Step(w, act).log)
  {
    StepAccounts(w, act);
    hide Step;
    var w' := Step(w, act);
    assert |w'.log| == |w.log| + 1 ==> w'.log[..|w'.log| - 1] == w.log[..] || w'.log == w.log;
  }

  lemma {:induction false} RunReplays(branches: Branches, w: World, acts: seq<Action>)
    requires w.srv.branches == Replay(branches, w.log)
    ensures Run(w, acts).srv.branches == Replay(branches, Run(w, acts).log)
    decreases |acts|
  {
    if acts != [] {
      StepReplays(branches, w, acts[0]);
      RunReplays(branches, Step(w, acts[0]), acts[1..]);
    }
  }

  /** No branch ever changes except in a push that moved the fence with it. */
  lemma BranchesAreTheLandedEffects(cfg: Config, branches: Branches, acts: seq<Action>)
    ensures var w := Run(Init(cfg, branches), acts); w.srv.branches == Replay(branches, w.log)
  {
    RunReplays(branches, Init(cfg, branches), acts);
  }

  // ------------------------------------------------------- release or hold

  /** The decision on an adopted fence with something on it goes by the code alone. */
  lemma DecisionGoesByTheCode(w: World, a: nat, net: Net)
    requires a in w.attempts && w.attempts[a].settle.Adopted? && w.attempts[a].outcome.Some?
    requires w.attempts[a].settle.at != w.attempts[a].claim && w.srv.fence == Some(w.attempts[a].settle.at)
    requires RunFailed(w.attempts[a].outcome.value) && !net.NotDelivered?
    ensures Step(w, SettleDecide(a, net)).srv == w.srv <==> w.attempts[a].outcome.value.Code?
  {
  }

  /**
   In every run, where a fence is released straight after an effect: the run that released
   it had failed exactly when its shell returned no code. `Execute` leaves the exit code 0
   then. So a failed run whose shell returned a code is always held.
   */
  lemma FailedRunIsHeldExactly(w: World, i: nat, k: nat)
    requires Reachable(SOUND, w)
    requires i < k < |w.log| && w.log[i].Landed? && w.log[k].Released?
    requires forall m :: i < m < k ==> w.log[m].Landed?
    ensures w.log[k].attempt in w.attempts && w.attempts[w.log[k].attempt].outcome.Some?
    ensures var outcome := w.attempts[w.log[k].attempt].outcome.value;
            RunFailed(outcome) <==> outcome == NoCode
  {
    ReleaseAfterEffectIsClean(w, i, k);
    hide Reachable;
  }

  /** "a" claims, pushes, and loses the acknowledgement; then the shell gives no code. */
  function PushedActs(): seq<Action> {
    FetchedActs() + [Check(0)] + [Push(0, 2, map["pr" := 1], true, AckLost)]
  }

  function NoCodeActs(): seq<Action> {
    [Finish(0, NoCode), SettleList(0), SettleFetch(0, true), SettleDecide(0, Delivered)]
  }

  function PushedWorld(branches: Branches): World {
    var ca := ClaimObject("a", "n", 1);
    var pa := Commit(ca.holder.(phase := "pushed"), 2, Some(ca));
    var up := map["pr" := 1];
    World(SOUND, Server(Some(pa), branches + up), map[0 := Attempt("a", "n", ca, {ca}, {ca, pa}, Some(ca), None, Unsettled)],
          map[], [Claimed("a", ca), Landed("a", ca, Some(pa), up, true)])
  }

  lemma PushedRun(branches: Branches)
    ensures Run(Init(SOUND, branches), PushedActs()) == PushedWorld(branches)
  {
    var w0, ca := Init(SOUND, branches), ClaimObject("a", "n", 1);
    var w := FetchedWorld(SOUND, branches);
    var w1 := w.(calls := map[0 := Call(0, ca, Checked(true))]);
    var push := Push(0, 2, map["pr" := 1], true, AckLost);
    assert Step(w, Check(0)) == w1;
    PushesOn(branches, w1, push);
    hide Step;
    FetchedRun(SOUND, branches);
    RunSnoc(w0, FetchedActs(), Check(0));
    RunSnoc(w0, FetchedActs() + [Check(0)], push);
  }

  lemma PushesOn(branches: Branches, w: World, push: Action)
    requires var ca := ClaimObject("a", "n", 1);
             w == FetchedWorld(SOUND, branches).(calls := map[0 := Call(0, ca, Checked(true))])
    requires push == Push(0, 2, map["pr" := 1], true, AckLost)
    ensures Step(w, push) == PushedWorld(branches)
  {
    var pa := PushedWorld(branches).srv.fence.value;
    var t := w.attempts[0];
    assert w.calls - {0} == map[] && t.have + {pa} == {t.claim, pa} && w.attempts[0 := t.(have := t.have + {pa})] == PushedWorld(branches).attempts;
  }

  lemma NoCodeRun(branches: Branches)
    ensures var w := Run(PushedWorld(branches), NoCodeActs());
            && w.srv.fence == None && |w.log| == 3 && w.log[..2] == PushedWorld(branches).log && w.log[2].Released?
            && 0 in w.attempts && w.attempts[0].outcome == Some(NoCode)
  {
    var w5 := PushedWorld(branches);
    var pa := w5.log[1].after.value;
    var t := w5.attempts[0];
    var w6 := Step(w5, NoCodeActs()[0]);
    var w7 := Step(w6, NoCodeActs()[1]);
    var w8 := Step(w7, NoCodeActs()[2]);
    assert w8 == w5.(attempts := map[0 := t.(outcome := Some(NoCode), settle := Adopted(pa), tokens := t.tokens + {pa})]);
    RunCons(w5, NoCodeActs());
    RunCons(w6, NoCodeActs()[1..]);
    RunCons(w7, NoCodeActs()[2..]);
    RunCons(w8, NoCodeActs()[3..]);
  }

  /** An effect landed, the run failed, and yet the fence is free for a second one. */
  lemma NoCodeReleasesALandedEffect(branches: Branches)
    ensures var w := Run(Init(SOUND, branches), PushedActs() + NoCodeActs());
            && w.srv.fence == None && |w.log| == 3 && w.log[1].Landed? && w.log[2].Released?
            && 0 in w.attempts && w.attempts[0].outcome == Some(NoCode) && RunFailed(NoCode)
  {
    PushedRun(branches);
    NoCodeRun(branches);
    RunConcat(Init(SOUND, branches), PushedActs(), NoCodeActs());
    var w := Run(Init(SOUND, branches), PushedActs() + NoCodeActs());
    assert w.log[1] == w.log[..2][1];
  }

  // --------------------------------------------------- a run nobody disturbs

  /** A task of its own attempt `a`, its one call `c`, and what it comes to. */
  datatype Solo = Solo(a: nat, c: nat, task: string, node: string, claimed: int, pushed: int, updates: Branches, outcome: Outcome)

  /** Claim, list, fetch, check, push, finish, and settle in three steps. */
  function SoloActs(s: Solo): seq<Action> {
    [Claim(s.a, s.task, s.node, s.claimed, Delivered), List(s.c, s.a), Fetch(s.c, true), Check(s.c)]
    + [Push(s.c, s.pushed, s.updates, true, Delivered), Finish(s.a, s.outcome), SettleList(s.a), SettleFetch(s.a, true)]
    + [SettleDecide(s.a, Delivered)]
  }

  function SoloClaim(s: Solo): Commit { ClaimObject(s.task, s.node, s.claimed) }

  function SoloPush(s: Solo): Commit {
    Commit(SoloClaim(s).holder.(phase := "pushed"), s.pushed, Some(SoloClaim(s)))
  }

  predicate CanClaim(w: World, s: Solo) {
    w.srv.fence.None? && s.a !in w.attempts && s.c !in w.calls && (w.cfg.freshClaims ==> SoloClaim(s) !in Occupants(w.log))
  }

  /** After the check of the fetched record. */
  function SoloChecked(w: World, s: Solo): World {
    var x := SoloClaim(s);
    w.(srv := Server(Some(x), w.srv.branches), log := w.log + [Claimed(s.task, x)],
       attempts := w.attempts[s.a := Attempt(s.task, s.node, x, {x}, {x}, Some(x), None, Unsettled)],
       calls := w.calls[s.c := Call(s.a, x, Checked(true))])
  }

  /** After the settle has adopted what the push left. */
  function SoloAdopted(w: World, s: Solo): World {
    var x, y := SoloClaim(s), SoloPush(s);
    w.(srv := Server(Some(y), w.srv.branches + s.updates),
       log := w.log + [Claimed(s.task, x)] + [Landed(s.task, x, Some(y), s.updates, true)],
       attempts := w.attempts[s.a := Attempt(s.task, s.node, x, {x, y}, {x, y}, Some(x), Some(s.outcome), Adopted(y))])
  }

  lemma ClaimsAndChecks(w: World, s: Solo)
    requires CanClaim(w, s)
    ensures Run(w, [Claim(s.a, s.task, s.node, s.claimed, Delivered), List(s.c, s.a), Fetch(s.c, true), Check(s.c)])
            == SoloChecked(w, s)
  {
    var acts := [Claim(s.a, s.task, s.node, s.claimed, Delivered), List(s.c, s.a), Fetch(s.c, true), Check(s.c)];
    var x, v := SoloClaim(s), SoloChecked(w, s);
    var w1 := v.(attempts := w.attempts[s.a := Attempt(s.task, s.node, x, {x}, {}, None, None, Unsettled)], calls := w.calls);
    var w2 := w1.(calls := w.calls[s.c := Call(s.a, x, Listed)]);
    var w3 := v.(calls := w.calls[s.c := Call(s.a, x, Fetched(true))]);
    SoloClaims(w, s, w1);
    assert Step(w1, acts[1]) == w2;
    SoloFetches(w, s, w2, w3);
    assert Step(w3, acts[3]) == v by { assert w3.calls[s.c := Call(s.a, x, Checked(true))] == v.calls; }
    hide Step, SoloChecked, CanClaim;
    RunCons(w, acts);
    RunCons(w1, acts[1..]);
    assert acts[1..][1..] == acts[2..] && acts[2..][1..] == acts[3..];
    RunCons(w2, acts[2..]);
    RunCons(w3, acts[3..]);
  }

  lemma SoloClaims(w: World, s: Solo, w1: World)
    requires CanClaim(w, s)
    requires var x := SoloClaim(s);
             w1 == SoloChecked(w, s).(attempts := w.attempts[s.a := Attempt(s.task, s.node, x, {x}, {}, None, None, Unsettled)],
                                      calls := w.calls)
    ensures Step(w, Claim(s.a, s.task, s.node, s.claimed, Delivered)) == w1
  {
    hide Occupants;
    assert w.srv.branches + map[] == w.srv.branches;
  }

  lemma SoloFetches(w: World, s: Solo, w2: World, w3: World)
    requires var x := SoloClaim(s);
             w2 == SoloChecked(w, s).(attempts := w.attempts[s.a := Attempt(s.task, s.node, x, {x}, {}, None, None, Unsettled)],
                                      calls := w.calls[s.c := Call(s.a, x, Listed)])
    requires w3 == SoloChecked(w, s).(calls := w.calls[s.c := Call(s.a, SoloClaim(s), Fetched(true))])
    ensures Step(w2, Fetch(s.c, true)) == w3
  {
    var x := SoloClaim(s);
    assert Lineage(x) == {x} && {} + {x} == {x};
    assert w2.attempts[s.a := w3.attempts[s.a]] == w3.attempts && w2.calls[s.c := w3.calls[s.c]] == w3.calls;
  }

  lemma PushesAndAdopts(w: World, s: Solo)
    requires s.c !in w.calls
    ensures Run(SoloChecked(w, s),
                [Push(s.c, s.pushed, s.updates, true, Delivered), Finish(s.a, s.outcome), SettleList(s.a), SettleFetch(s.a, true)])
            == SoloAdopted(w, s)
  {
    var acts := [Push(s.c, s.pushed, s.updates, true, Delivered), Finish(s.a, s.outcome), SettleList(s.a), SettleFetch(s.a, true)];
    var x, y, v := SoloClaim(s), SoloPush(s), SoloAdopted(w, s);
    var t := Attempt(s.task, s.node, x, {x}, {x, y}, Some(x), None, Unsettled);
    var w1 := v.(attempts := w.attempts[s.a := t]);
    var w2 := v.(attempts := w.attempts[s.a := t.(outcome := Some(s.outcome))]);
    var w3 := v.(attempts := w.attempts[s.a := t.(outcome := Some(s.outcome), settle := Read(y))]);
    SoloPushes(w, s, w1);
    assert Step(w1, acts[1]) == w2 by { assert w1.attempts[s.a := w2.attempts[s.a]] == w2.attempts; }
    assert Step(w2, acts[2]) == w3 by { assert w2.attempts[s.a := w3.attempts[s.a]] == w3.attempts; }
    assert Step(w3, acts[3]) == v by {
      assert {x} + {y} == {x, y} && w3.attempts[s.a := v.attempts[s.a]] == v.attempts;
    }
    hide Step, SoloAdopted;
    RunCons(SoloChecked(w, s), acts);
    RunCons(w1, acts[1..]);
    assert acts[1..][1..] == acts[2..] && acts[2..][1..] == acts[3..];
    RunCons(w2, acts[2..]);
    RunCons(w3, acts[3..]);
  }

  lemma SoloPushes(w: World, s: Solo, w1: World)
    requires s.c !in w.calls
    requires var x := SoloClaim(s);
             w1 == SoloAdopted(w, s).(attempts := w.attempts[s.a :=
                     Attempt(s.task, s.node, x, {x}, {x, SoloPush(s)}, Some(x), None, Unsettled)])
    ensures Step(SoloChecked(w, s), Push(s.c, s.pushed, s.updates, true, Delivered)) == w1
  {
    var x, y, v := SoloClaim(s), SoloPush(s), SoloChecked(w, s);
    assert v.calls - {s.c} == w.calls && {x} + {y} == {x, y};
    assert v.attempts[s.a := w1.attempts[s.a]] == w1.attempts;
  }

  /**
   From any world with a free fence, a task nobody disturbs gets all its branches landed;
   then its fence is free again when its exit code is 0, and stays on its push otherwise.
   */
  lemma UndisturbedRunGoesThrough(w: World, s: Solo)
    requires CanClaim(w, s)
    ensures var v := Run(w, SoloActs(s));
            && v.srv == Server(if ExitCode(s.outcome) == 0 then None else Some(SoloPush(s)), w.srv.branches + s.updates)
            && Landed(s.task, SoloClaim(s), Some(SoloPush(s)), s.updates, true) in v.log
  {
    ClaimsAndChecks(w, s);
    PushesAndAdopts(w, s);
    SoloSettles(w, s);
    hide Step, SoloChecked, SoloAdopted, CanClaim, Run;
    RunThree(w, [Claim(s.a, s.task, s.node, s.claimed, Delivered), List(s.c, s.a), Fetch(s.c, true), Check(s.c)],
             [Push(s.c, s.pushed, s.updates, true, Delivered), Finish(s.a, s.outcome), SettleList(s.a), SettleFetch(s.a, true)],
             [SettleDecide(s.a, Delivered)]);
  }

  lemma SoloSettles(w: World, s: Solo)
    ensures var v := Run(SoloAdopted(w, s), [SettleDecide(s.a, Delivered)]);
            && v.srv == Server(if ExitCode(s.outcome) == 0 then None else Some(SoloPush(s)), w.srv.branches + s.updates)
            && Landed(s.task, SoloClaim(s), Some(SoloPush(s)), s.updates, true) in v.log
  {
    var u := SoloAdopted(w, s);
    RunCons(u, [SettleDecide(s.a, Delivered)]);
    assert u.srv.branches + map[] == u.srv.branches;
    assert u.log[|w.log| + 1] == Landed(s.task, SoloClaim(s), Some(SoloPush(s)), s.updates, true);
    var v := Step(u, SettleDecide(s.a, Delivered));
    assert u.log <= v.log && v.log[|w.log| + 1] == u.log[|w.log| + 1];
  }

  /** An advance on a claim that still holds lands its branches on a child of it. */
  lemma AdvanceGoesThrough(w: World, a: nat, token: Commit, phase: string, now: int, updates: Branches)
    requires a in w.attempts && token in w.attempts[a].tokens && w.srv.fence == Some(token)
    ensures var next := Commit(w.attempts[a].claim.holder.(phase := phase), now, Some(token));
            var v := Step(w, Advance(a, token, phase, now, updates, true, Delivered));
            v.srv == Server(Some(next), w.srv.branches + updates) && a in v.attempts && next in v.attempts[a].tokens
  {
    hide Occupants, Lineage;
  }
}
