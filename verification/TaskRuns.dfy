/**
 The life of tasks under the daemon: ticks, runs, cancels, crashes at any point and
 restarts. The store is durable; the running map, the tick and the goroutines are not.
 */
module TaskRuns {
  import opened Prelude
  import opened Tasks

  /**
   One task. `ours` says that it spends the machine's claude usage: it needs claude and
   brings no token of its own. `status` and `attempts` are in the store. `listed` says the tick under way
   saw it pending and has not examined it; `found` that `Recover` saw it running and has
   not dealt with it; `counted` that it has an entry in the running map. Goroutines are
   counted by what they do next: start the job, wait for it, give the slot back.
   `starts` and `exits75` count what has happened to the task since it was created.
   */
  datatype Slot = Slot(
    ours: bool, status: Status, attempts: nat, listed: bool, found: bool, counted: bool,
    starting: nat, awaiting: nat, finishing: nat, starts: nat, exits75: nat)
  {
    predicate Pending() { PendingStatus(status) }

    predicate Terminal() { TerminalStatus(status) }

    function Active(): nat { starting + awaiting }
  }

  datatype Daemon = Down | Recovering | Up

  /** `launch` is the task whose slot is taken but whose start is not yet in the store. */
  datatype World = World(tasks: map<Id, Slot>, daemon: Daemon, launch: Option<Id>)

  /** `saved` says whether the store write works. */
  datatype Act =
    | Create(id: Id, ours: bool)
    | Cancel(id: Id)
    | TickList
    | TickEnd
    | Hold(id: Id, saved: bool)
    | Leave(id: Id)
    | Take(id: Id)
    | Record(id: Id, saved: bool)
    | Begin(id: Id)
    | Broken(id: Id, saved: bool)
    | Outcome75(id: Id, saved: bool)
    | Outcome(id: Id, status: Status, saved: bool)
    | Finish(id: Id)
    | Crash
    | Restart
    | Adopt(id: Id)
    | Lose(id: Id, saved: bool)
    | Recovered

  function New(ours: bool): Slot {
    Slot(ours, Queued, 0, false, false, false, 0, 0, 0, 0, 0)
  }

  /** The writes that spare a terminal task. */
  function Guarded(t: Slot, saved: bool, status: Status): Slot {
    if saved && !t.Terminal() then t.(status := status) else t
  }

  /** The writes that do not look. */
  function Unguarded(t: Slot, saved: bool, status: Status): Slot {
    if saved then t.(status := status) else t
  }

  /** What an act on one task does to it. */
  function Local(a: Act, t: Slot): Option<Slot> {
    match a
    case Cancel(_) => Some(Guarded(t, true, Cancelled))
    case Hold(_, saved) =>
      if t.listed then Some(Unguarded(t, saved, Blocked).(listed := false)) else None
    case Leave(_) =>
      if t.listed then Some(t.(listed := false)) else None
    case Take(_) =>
      if t.listed then Some(t.(listed := false, counted := true)) else None
    case Record(_, saved) =>
      if saved then Some(t.(status := Running, attempts := t.attempts + 1, starting := t.starting + 1))
      else Some(t.(counted := false))
    case Begin(_) =>
      if t.starting > 0 then Some(t.(starting := t.starting - 1, awaiting := t.awaiting + 1, starts := t.starts + 1)) else None
    case Broken(_, saved) =>
      if t.starting > 0 then
        Some(Guarded(t, saved, Failed).(starting := t.starting - 1, finishing := t.finishing + 1))
      else None
    case Outcome75(_, saved) =>
      if t.ours && t.awaiting > 0 then
        Some(Unguarded(t, saved, Blocked).(awaiting := t.awaiting - 1, finishing := t.finishing + 1,
          exits75 := if saved then t.exits75 + 1 else t.exits75))
      else None
    case Outcome(_, status, saved) =>
      if t.awaiting > 0 && (status.Succeeded? || status.Failed? || status.Lost?) then
        Some(Guarded(t, saved, status).(awaiting := t.awaiting - 1, finishing := t.finishing + 1))
      else None
    case Finish(_) =>
      if t.finishing > 0 then Some(t.(finishing := t.finishing - 1, counted := false)) else None
    case Adopt(_) =>
      if t.found then Some(t.(found := false, counted := true, awaiting := t.awaiting + 1)) else None
    case Lose(_, saved) =>
      if t.found then Some(Guarded(t, saved, Lost).(found := false)) else None
    case _ => None
  }

  /** A tick lists the pending tasks once its last launch is over. */
  function SeenByTick(t: Slot): Slot { t.(listed := t.Pending()) }

  function Unlisted(t: Slot): Slot { t.(listed := false) }

  /** A crash leaves what is in the store, and the counts of what has happened. */
  function AfterCrash(t: Slot): Slot {
    t.(listed := false, found := false, counted := false, starting := 0, awaiting := 0, finishing := 0)
  }

  function SeenByRecover(t: Slot): Slot { t.(found := t.status.Running?) }

  function Each(f: Slot -> Slot, tasks: map<Id, Slot>): map<Id, Slot> {
    map id | id in tasks :: f(tasks[id])
  }

  predicate Ready(w: World, a: Act) {
    match a
    case TickList => w.daemon == Up && w.launch.None?
    case TickEnd => w.daemon == Up && w.launch.None?
    case Hold(_, _) => w.daemon == Up && w.launch.None?
    case Leave(_) => w.daemon == Up && w.launch.None?
    case Take(_) => w.daemon == Up && w.launch.None?
    case Record(id, _) => w.daemon == Up && w.launch == Some(id)
    case Crash => w.daemon != Down
    case Restart => w.daemon == Down
    case Adopt(_) => w.daemon == Recovering
    case Lose(_, _) => w.daemon == Recovering
    case Recovered => w.daemon == Recovering && forall id :: id in w.tasks ==> !w.tasks[id].found
    case _ => w.daemon != Down
  }

  /** Acts on a task that is there already, and on nothing else. */
  predicate OnOne(a: Act) {
    !(a.Create? || a.TickList? || a.TickEnd? || a.Crash? || a.Restart? || a.Recovered?)
  }

  function OneStep(w: World, a: Act): Option<World>
    requires OnOne(a)
  {
    if a.id !in w.tasks then None
    else
      var t := Local(a, w.tasks[a.id]);
      if t.None? then None
      else
        var launch := match a
          case Take(id) => Some(id)
          case Record(_, _) => None
          case _ => w.launch;
        Some(w.(tasks := w.tasks[a.id := t.value], launch := launch))
  }

  function Step(w: World, a: Act): Option<World> {
    if !Ready(w, a) then None
    else if OnOne(a) then OneStep(w, a)
    else match a
      case Create(id, ours) => if id in w.tasks then None else Some(w.(tasks := w.tasks[id := New(ours)]))
      case TickList => Some(w.(tasks := Each(SeenByTick, w.tasks)))
      case TickEnd => Some(w.(tasks := Each(Unlisted, w.tasks)))
      case Crash => Some(World(Each(AfterCrash, w.tasks), Down, None))
      case Restart => Some(World(Each(SeenByRecover, w.tasks), Recovering, None))
      case Recovered => Some(w.(daemon := Up))
      case _ => None
  }

  function Run(w: World, acts: seq<Act>): Option<World>
    decreases |acts|
  {
    if acts == [] then Some(w)
    else
      var n := Step(w, acts[0]);
      if n.None? then None else Run(n.value, acts[1..])
  }

  const EMPTY := World(map[], Down, None)

  // ------------------------------------------------------------------ invariant

  function Bit(b: bool): nat { if b then 1 else 0 }

  /** The task may still be launched without anything further happening to it. */
  predicate Waiting(t: Slot, mine: bool) {
    t.listed || mine || t.Pending()
  }

  /**
   Every attempt after the first was paid for by an exit 75; a task has at most one run,
   one place in a tick or one in a recovery; and none of the three while it is pending in the store,
   save the place in the tick.
   */
  predicate SlotInv(t: Slot, d: Daemon, mine: bool) {
    && t.starts + t.starting <= t.attempts
    && t.attempts + Bit(Waiting(t, mine)) <= 1 + t.exits75
    && t.Active() + Bit(t.listed) + Bit(mine) + Bit(t.found) <= 1
    && (t.Active() > 0 || t.found ==> !t.Pending())
    && (t.listed || mine ==> d == Up && !t.status.Running?)
    && (t.found ==> d == Recovering && !t.counted && t.finishing == 0)
    && (d == Down ==> t.Active() == 0 && t.finishing == 0 && !t.counted)
  }

  ghost predicate Inv(w: World) {
    && (forall id :: id in w.tasks ==> SlotInv(w.tasks[id], w.daemon, w.launch == Some(id)))
    && (w.launch.Some? ==> w.launch.value in w.tasks)
  }

  predicate ByTick(a: Act) { a.Hold? || a.Leave? || a.Take? || a.Record? }

  predicate ByRun(a: Act) { a.Begin? || a.Broken? || a.Outcome75? || a.Outcome? || a.Finish? }

  lemma TickActKeeps(a: Act, t: Slot, mine: bool)
    requires ByTick(a) && SlotInv(t, Up, mine) && Local(a, t).Some? && (mine <==> a.Record?)
    ensures SlotInv(Local(a, t).value, Up, a.Take?)
  {
  }

  lemma RunActKeeps(a: Act, t: Slot, d: Daemon, mine: bool)
    requires ByRun(a) && SlotInv(t, d, mine) && Local(a, t).Some?
    ensures SlotInv(Local(a, t).value, d, mine)
  {
  }

  lemma OtherActKeeps(a: Act, t: Slot, d: Daemon, mine: bool)
    requires OnOne(a) && !ByTick(a) && !ByRun(a) && SlotInv(t, d, mine) && Local(a, t).Some? && d != Down
    ensures SlotInv(Local(a, t).value, d, mine)
  {
  }

  /** An act on one task keeps the task's own invariant. */
  lemma LocalKeeps(a: Act, t: Slot, d: Daemon, mine: bool)
    requires OnOne(a) && SlotInv(t, d, mine) && Local(a, t).Some? && d != Down
    requires ByTick(a) ==> d == Up && (mine <==> a.Record?)
    ensures SlotInv(Local(a, t).value, d, if a.Take? then true else if a.Record? then false else mine)
  {
    hide SlotInv, Local;
    if ByTick(a) {
      TickActKeeps(a, t, mine);
    } else if ByRun(a) {
      RunActKeeps(a, t, d, mine);
    } else {
      OtherActKeeps(a, t, d, mine);
    }
  }

  lemma PassKeeps(t: Slot)
    requires SlotInv(t, Up, false)
    ensures SlotInv(SeenByTick(t), Up, false) && SlotInv(Unlisted(t), Up, false)
  {
  }

  lemma CrashKeeps(t: Slot, d: Daemon, mine: bool)
    requires SlotInv(t, d, mine)
    ensures SlotInv(AfterCrash(t), Down, false)
  {
  }

  lemma RecoverKeeps(t: Slot)
    ensures SlotInv(t, Down, false) ==> SlotInv(SeenByRecover(t), Recovering, false)
    ensures SlotInv(t, Recovering, false) && !t.found ==> SlotInv(t, Up, false)
  {
  }

  lemma StepKeeps(w: World, a: Act)
    requires Inv(w) && Step(w, a).Some?
    ensures Inv(Step(w, a).value)
  {
    if OnOne(a) {
      hide SlotInv, Local;
      LocalKeeps(a, w.tasks[a.id], w.daemon, w.launch == Some(a.id));
    } else {
      GlobalKeeps(w, a);
    }
  }

  lemma LaunchIsUp(w: World)
    requires Inv(w)
    ensures w.launch.Some? ==> w.daemon == Up
  {
    if w.launch.Some? { assert SlotInv(w.tasks[w.launch.value], w.daemon, true); }
  }

  lemma EachKeeps(f: Slot -> Slot, w: World, w': World)
    requires w'.tasks == Each(f, w.tasks) && w'.launch.None?
    requires forall id :: id in w.tasks ==> SlotInv(f(w.tasks[id]), w'.daemon, false)
    ensures Inv(w')
  {
    hide SlotInv;
  }

  lemma GlobalKeeps(w: World, a: Act)
    requires Inv(w) && Step(w, a).Some? && !OnOne(a)
    ensures Inv(Step(w, a).value)
  {
    assert forall d: Daemon, ours: bool :: SlotInv(New(ours), d, false);
    hide SlotInv, SeenByTick, Unlisted, AfterCrash, SeenByRecover;
    LaunchIsUp(w);
    var w' := Step(w, a).value;
    match a
    case TickList =>
      forall id | id in w.tasks ensures SlotInv(SeenByTick(w.tasks[id]), Up, false) { PassKeeps(w.tasks[id]); }
      EachKeeps(SeenByTick, w, w');
    case TickEnd =>
      forall id | id in w.tasks ensures SlotInv(Unlisted(w.tasks[id]), Up, false) { PassKeeps(w.tasks[id]); }
      EachKeeps(Unlisted, w, w');
    case Crash =>
      forall id | id in w.tasks ensures SlotInv(AfterCrash(w.tasks[id]), Down, false) {
        CrashKeeps(w.tasks[id], w.daemon, w.launch == Some(id));
      }
      EachKeeps(AfterCrash, w, w');
    case Restart =>
      forall id | id in w.tasks ensures SlotInv(SeenByRecover(w.tasks[id]), Recovering, false) { RecoverKeeps(w.tasks[id]); }
      EachKeeps(SeenByRecover, w, w');
    case Recovered =>
      forall id | id in w.tasks ensures SlotInv(w.tasks[id], Up, false) { RecoverKeeps(w.tasks[id]); }
    case Create(_, _) =>
  }

  lemma {:induction false} RunKeeps(w: World, acts: seq<Act>)
    requires Inv(w) && Run(w, acts).Some?
    ensures Inv(Run(w, acts).value)
    decreases |acts|
  {
    hide Inv, Step;
    if acts != [] {
      StepKeeps(w, acts[0]);
      RunKeeps(Step(w, acts[0]).value, acts[1..]);
    }
  }

  lemma {:induction false} RunConcat(w: World, a: seq<Act>, b: seq<Act>)
    requires Run(w, a).Some?
    ensures Run(w, a + b) == Run(Run(w, a).value, b)
    decreases |a|
  {
    hide Step;
    if a == [] {
      assert a + b == b;
    } else {
      assert (a + b)[0] == a[0] && (a + b)[1..] == a[1..] + b;
      RunConcat(Step(w, a[0]).value, a[1..], b);
    }
  }

  /** A daemon that has never run, over an empty store. */
  ghost predicate Reachable(w: World) {
    exists acts :: Run(EMPTY, acts) == Some(w)
  }

  lemma ReachableKeeps(w: World)
    requires Reachable(w)
    ensures Inv(w)
  {
    var acts :| Run(EMPTY, acts) == Some(w);
    RunKeeps(EMPTY, acts);
  }

  // -------------------------------------------------------------- at most once

  /**
   Over every run, with crashes and restarts anywhere: a task's job is started at most
   once more often than it was recorded as out of claude usage, and no more often than
   its stored attempt count says.
   */
  lemma StartsAreBounded(w: World, id: Id)
    requires Reachable(w) && id in w.tasks
    ensures w.tasks[id].starts <= w.tasks[id].attempts <= 1 + w.tasks[id].exits75
    ensures w.tasks[id].Pending() ==> w.tasks[id].starts <= w.tasks[id].exits75
  {
    ReachableKeeps(w);
  }

  // ------------------------------------------------------------------ terminal

  /** Something is under way whose write does not look whether the task is terminal. */
  predicate InHand(t: Slot, mine: bool) {
    t.listed || mine || (t.ours && (t.Active() > 0 || t.found))
  }

  predicate Settled(w: World, id: Id) {
    id in w.tasks && w.tasks[id].Terminal() && !InHand(w.tasks[id], w.launch == Some(id))
  }

  /** The same terminal task: never launched again, started at most by a run already begun. */
  predicate StillThere(t: Slot, t': Slot) {
    t'.status == t.status && t'.attempts == t.attempts && t'.starts + t'.starting <= t.starts + t.starting
  }

  lemma {:induction false} SettledForGood(w: World, acts: seq<Act>, id: Id)
    requires Settled(w, id) && Run(w, acts).Some?
    ensures Settled(Run(w, acts).value, id) && StillThere(w.tasks[id], Run(w, acts).value.tasks[id])
    decreases |acts|
  {
    if acts != [] {
      SettledForNow(w, acts[0], id);
      hide Step;
      SettledForGood(Step(w, acts[0]).value, acts[1..], id);
    }
  }

  lemma SettledForNow(w: World, a: Act, id: Id)
    requires Settled(w, id) && Step(w, a).Some?
    ensures Settled(Step(w, a).value, id) && StillThere(w.tasks[id], Step(w, a).value.tasks[id])
  {
    if OnOne(a) {
      if a.id == id { SettledLocally(a, w.tasks[id]); }
      hide Local;
    }
  }

  lemma SettledLocally(a: Act, t: Slot)
    requires OnOne(a) && t.Terminal() && !InHand(t, false) && Local(a, t).Some? && !a.Record?
    ensures Local(a, t).value.Terminal() && !InHand(Local(a, t).value, false) && StillThere(t, Local(a, t).value)
    ensures !a.Take?
  {
  }

  /** The acts that bring a terminal task still in hand back. */
  function Revival(w: World, id: Id): seq<Act>
    requires id in w.tasks
  {
    var t := w.tasks[id];
    if w.launch == Some(id) then [Record(id, true)]
    else if t.listed && w.launch.Some? then [Record(w.launch.value, true), Hold(id, true)]
    else if t.listed then [Hold(id, true)]
    else if t.found then [Adopt(id), Outcome75(id, true)]
    else if t.awaiting == 0 then [Begin(id), Outcome75(id, true)]
    else [Outcome75(id, true)]
  }

  /**
   A terminal status stays for good exactly when no tick has the task in hand, and, for a
   task on the machine's own token, no run or recovery either. Otherwise a cancel has
   landed before a write that does not look, and that write may bring the task back.
   */
  lemma TerminalIsForGoodExactly(w: World, id: Id)
    requires Reachable(w) && id in w.tasks && w.tasks[id].Terminal()
    ensures !InHand(w.tasks[id], w.launch == Some(id)) <==>
            forall acts :: Run(w, acts).Some? ==> id in Run(w, acts).value.tasks && Run(w, acts).value.tasks[id].Terminal()
  {
    ReachableKeeps(w);
    hide Inv, Run;
    if Settled(w, id) {
      forall acts | Run(w, acts).Some?
        ensures id in Run(w, acts).value.tasks && Run(w, acts).value.tasks[id].Terminal()
      {
        SettledForGood(w, acts, id);
      }
    } else {
      Revives(w, id);
    }
  }

  lemma RevivesAtOnce(w: World, a: Act, id: Id)
    requires id in w.tasks && Step(w, a).Some? && id in Step(w, a).value.tasks && !Step(w, a).value.tasks[id].Terminal()
    ensures Run(w, [a]).Some? && id in Run(w, [a]).value.tasks && !Run(w, [a]).value.tasks[id].Terminal()
  {
    hide Step;
    Follow(w, [a], Step(w, a).value);
  }

  lemma RevivesNext(w: World, first: Act, a: Act, id: Id)
    requires Step(w, first).Some?
    ensures Run(w, [first, a]) == Run(Step(w, first).value, [a])
  {
    hide Step;
    assert [first, a][1..] == [a];
    Follow(w, [first, a], Step(w, first).value);
  }

  lemma Revives(w: World, id: Id)
    requires Inv(w) && id in w.tasks && w.tasks[id].Terminal() && InHand(w.tasks[id], w.launch == Some(id))
    ensures Run(w, Revival(w, id)).Some? && id in Run(w, Revival(w, id)).value.tasks
    ensures !Run(w, Revival(w, id)).value.tasks[id].Terminal()
  {
    LaunchIsUp(w);
    assert SlotInv(w.tasks[id], w.daemon, w.launch == Some(id));
    if w.launch == Some(id) {
      hide Inv, Run, SlotInv;
      RevivesAtOnce(w, Record(id, true), id);
    } else if w.tasks[id].listed {
      hide Run, SlotInv;
      RevivesFromTick(w, id);
    } else {
      hide Inv, Run;
      RevivesFromRun(w, id);
    }
  }

  lemma RevivesFromTick(w: World, id: Id)
    requires id in w.tasks && w.tasks[id].Terminal() && w.tasks[id].listed && w.daemon == Up
    requires w.launch != Some(id) && (w.launch.Some? ==> w.launch.value in w.tasks)
    ensures Run(w, Revival(w, id)).Some? && id in Run(w, Revival(w, id)).value.tasks
    ensures !Run(w, Revival(w, id)).value.tasks[id].Terminal()
  {
    hide Run;
    if w.launch.Some? {
      var first := Record(w.launch.value, true);
      var w1 := Step(w, first).value;
      RevivesNext(w, first, Hold(id, true), id);
      RevivesAtOnce(w1, Hold(id, true), id);
    } else {
      RevivesAtOnce(w, Hold(id, true), id);
    }
  }

  lemma RevivesFromRun(w: World, id: Id)
    requires id in w.tasks && w.tasks[id].Terminal() && w.tasks[id].ours && w.launch != Some(id) && !w.tasks[id].listed
    requires SlotInv(w.tasks[id], w.daemon, false) && (w.tasks[id].Active() > 0 || w.tasks[id].found)
    ensures Run(w, Revival(w, id)).Some? && id in Run(w, Revival(w, id)).value.tasks
    ensures !Run(w, Revival(w, id)).value.tasks[id].Terminal()
  {
    hide Run;
    var t := w.tasks[id];
    if t.found || t.awaiting == 0 {
      var first := if t.found then Adopt(id) else Begin(id);
      var w1 := Step(w, first).value;
      RevivesNext(w, first, Outcome75(id, true), id);
      RevivesAtOnce(w1, Outcome75(id, true), id);
    } else {
      RevivesAtOnce(w, Outcome75(id, true), id);
    }
  }

  /** Only a cancel can make a task terminal that something still has in hand. */
  lemma OnlyCancelUnsettles(w: World, a: Act, id: Id)
    requires Reachable(w) && Step(w, a).Some? && id in w.tasks && !w.tasks[id].Terminal()
    requires Step(w, a).value.tasks[id].Terminal() && !Settled(Step(w, a).value, id)
    ensures a == Cancel(id)
  {
    ReachableKeeps(w);
    assert SlotInv(w.tasks[id], w.daemon, w.launch == Some(id));
    hide Inv;
    assert OnOne(a) && a.id == id;
    LocallyUnsettled(a, w.tasks[id], w.daemon, w.launch == Some(id));
  }

  lemma LocallyUnsettled(a: Act, t: Slot, d: Daemon, mine: bool)
    requires OnOne(a) && SlotInv(t, d, mine) && !t.Terminal() && Local(a, t).Some? && Local(a, t).value.Terminal()
    ensures a.Cancel? || !InHand(Local(a, t).value, mine)
  {
  }

  // ------------------------------------------------------- counting what runs

  /** What runs, or is stored as running, has its entry in the running map, or `Recover` still has it in hand. */
  predicate Entered(t: Slot, mine: bool) {
    && (t.status.Running? ==> t.counted || t.found)
    && (t.Active() > 0 || mine ==> t.counted)
  }

  ghost predicate AllEntered(w: World) {
    w.daemon != Down ==> forall id :: id in w.tasks ==> Entered(w.tasks[id], w.launch == Some(id))
  }

  /** The end of one run, while the store says running or the next run is under way. */
  predicate StaleFinish(w: World, a: Act) {
    a.Finish? && a.id in w.tasks
    && (w.tasks[a.id].status.Running? || w.tasks[a.id].Active() > 0 || w.launch == Some(a.id))
  }

  /** A recovery that finds no job, and cannot write that down. */
  predicate LossUnsaved(w: World, a: Act) {
    a.Lose? && !a.saved && a.id in w.tasks && w.tasks[a.id].status.Running?
  }

  lemma LocalEnters(a: Act, t: Slot, mine: bool)
    requires OnOne(a) && Local(a, t).Some? && Entered(t, mine) && exists d :: SlotInv(t, d, mine)
    requires a.Hold? || a.Take? || a.Leave? ==> !mine
    requires a.Record? ==> mine
    ensures Entered(Local(a, t).value, if a.Take? then true else if a.Record? then false else mine)
            <==> !(a.Finish? && (t.status.Running? || t.Active() > 0 || mine)) && !(a.Lose? && !a.saved && t.status.Running?)
  {
  }

  /** One act breaks the count exactly when it is a stale finish, or a loss that is not written down. */
  lemma CountBreaksExactly(w: World, a: Act)
    requires Inv(w) && AllEntered(w) && Step(w, a).Some?
    ensures AllEntered(Step(w, a).value) <==> !StaleFinish(w, a) && !LossUnsaved(w, a)
  {
    if OnOne(a) {
      OneEnters(w, a);
    } else {
      EachEnters(w, a);
    }
  }

  lemma OneEnters(w: World, a: Act)
    requires Inv(w) && AllEntered(w) && Step(w, a).Some? && OnOne(a)
    ensures AllEntered(Step(w, a).value) <==> !StaleFinish(w, a) && !LossUnsaved(w, a)
  {
    var t, mine := w.tasks[a.id], w.launch == Some(a.id);
    assert SlotInv(t, w.daemon, mine) && Entered(t, mine);
    LocalEnters(a, t, mine);
    hide SlotInv, Inv, Local, Entered;
    var after := Step(w, a).value;
    assert after.tasks[a.id] == Local(a, t).value;
    assert forall id :: id in w.tasks && id != a.id ==>
      after.tasks[id] == w.tasks[id] && (after.launch == Some(id) <==> w.launch == Some(id));
  }

  lemma EachEnters(w: World, a: Act)
    requires Inv(w) && AllEntered(w) && Step(w, a).Some? && !OnOne(a)
    ensures AllEntered(Step(w, a).value)
  {
    LaunchIsUp(w);
    assert a.TickList? || a.TickEnd? || a.Crash? || a.Restart? || a.Recovered? || a.Create?;
    if a.Restart? {
      forall id | id in w.tasks
        ensures Entered(SeenByRecover(w.tasks[id]), false)
      {
        assert SlotInv(w.tasks[id], Down, false);
      }
    } else {
      hide SlotInv, Local;
    }
  }

  // ------------------------------------------------ settle and finish as one step

  predicate Settles(a: Act) {
    a.Broken? || a.Outcome75? || a.Outcome?
  }

  /** An outcome is written and its slot given back with nothing between. */
  function Whole(w: World, a: Act): Option<World> {
    if a.Finish? then None
    else if Settles(a) then Run(w, [a, Finish(a.id)])
    else Step(w, a)
  }

  predicate Saves(a: Act) {
    a.Broken? || a.Outcome75? || a.Outcome? || a.Lose? ==> a.saved
  }

  function WholeRun(w: World, acts: seq<Act>): Option<World>
    decreases |acts|
  {
    if acts == [] then Some(w)
    else
      var n := Whole(w, acts[0]);
      if n.None? then None else WholeRun(n.value, acts[1..])
  }

  lemma WholeCounts(w: World, a: Act)
    requires Inv(w) && AllEntered(w) && Saves(a) && Whole(w, a).Some?
    ensures Inv(Whole(w, a).value) && AllEntered(Whole(w, a).value)
  {
    hide Inv, AllEntered, Step, SlotInv;
    if Settles(a) {
      Follow(w, [a, Finish(a.id)], Step(w, a).value);
      assert [a, Finish(a.id)][1..] == [Finish(a.id)];
      var w1 := Step(w, a).value;
      NotStale(w, a);
      StepCounts(w, a);
      Follow(w1, [Finish(a.id)], Step(w1, Finish(a.id)).value);
      StepCounts(w1, Finish(a.id));
    } else {
      StepCounts(w, a);
    }
  }

  lemma StepCounts(w: World, a: Act)
    requires Inv(w) && AllEntered(w) && Step(w, a).Some? && !StaleFinish(w, a) && !LossUnsaved(w, a)
    ensures Inv(Step(w, a).value) && AllEntered(Step(w, a).value)
  {
    hide Inv, AllEntered, Step, SlotInv;
    StepKeeps(w, a);
    CountBreaksExactly(w, a);
  }

  lemma NotStale(w: World, a: Act)
    requires Inv(w) && Settles(a) && Saves(a) && Step(w, a).Some?
    ensures !StaleFinish(Step(w, a).value, Finish(a.id))
  {
    assert SlotInv(w.tasks[a.id], w.daemon, w.launch == Some(a.id));
  }

  /**
   With settle and finish as one step and every outcome written: in every state of every
   run, a task stored as running is in the running map, unless `Recover` still has it in
   hand; and so is every task with a job under way.
   */
  lemma {:induction false} RunningIsCounted(w: World, acts: seq<Act>, id: Id)
    requires Inv(w) && AllEntered(w) && WholeRun(w, acts).Some?
    requires forall a :: a in acts ==> Saves(a)
    ensures var after := WholeRun(w, acts).value;
            && Inv(after) && AllEntered(after)
            && (after.daemon == Up && id in after.tasks && (after.tasks[id].status.Running? || after.tasks[id].Active() > 0)
                ==> after.tasks[id].counted)
    decreases |acts|
  {
    hide Whole, Inv, AllEntered;
    if acts == [] {
      FoundOnlyInRecovery(w, id);
    } else {
      assert acts[0] in acts && forall a :: a in acts[1..] ==> a in acts;
      WholeCounts(w, acts[0]);
      RunningIsCounted(Whole(w, acts[0]).value, acts[1..], id);
    }
  }

  lemma FoundOnlyInRecovery(w: World, id: Id)
    requires Inv(w) && AllEntered(w)
    ensures w.daemon == Up && id in w.tasks && (w.tasks[id].status.Running? || w.tasks[id].Active() > 0) ==> w.tasks[id].counted
  {
    if id in w.tasks { assert SlotInv(w.tasks[id], w.daemon, w.launch == Some(id)); }
  }

  /** From the empty store; a daemon that is down has nothing to count. */
  lemma RunningIsCountedFromStart(acts: seq<Act>, id: Id)
    requires WholeRun(EMPTY, acts).Some? && forall a :: a in acts ==> Saves(a)
    ensures var w := WholeRun(EMPTY, acts).value;
            w.daemon == Up && id in w.tasks && (w.tasks[id].status.Running? || w.tasks[id].Active() > 0) ==> w.tasks[id].counted
  {
    RunningIsCounted(EMPTY, acts, id);
  }

  function Alone(t: Slot, launch: Option<Id>): World {
    World(map["t" := t], Up, launch)
  }

  lemma Follow(w: World, acts: seq<Act>, next: World)
    requires |acts| > 0 && Step(w, acts[0]) == Some(next)
    ensures Run(w, acts) == Run(next, acts[1..])
    ensures |acts| == 1 ==> Run(w, acts) == Some(next)
  {
  }

  lemma AloneStep(a: Act, t: Slot, launch: Option<Id>, t': Slot, launch': Option<Id>)
    requires a.TickList? || (OnOne(a) && a.id == "t")
    requires Ready(Alone(t, launch), a)
    requires if a.TickList? then t' == SeenByTick(t) else Local(a, t) == Some(t')
    requires launch' == if a.Take? then Some("t") else if a.Record? then None else launch
    ensures Step(Alone(t, launch), a) == Some(Alone(t', launch'))
  {
    assert map["t" := t]["t" := t'] == map["t" := t'];
    assert a.TickList? ==> Each(SeenByTick, map["t" := t]) == map["t" := t'];
  }

  const LAUNCH: seq<Act> := [TickList, Take("t"), Record("t", true), Begin("t")]

  function Started(t: Slot): Slot {
    t.(status := Running, counted := true, attempts := t.attempts + 1, awaiting := t.awaiting + 1, starts := t.starts + 1)
  }

  /** A tick lists the task, takes a slot for it, writes it down and starts its job. */
  lemma Launched(t: Slot)
    requires t.Pending() && !t.listed && t.starting == 0
    ensures Run(Alone(t, None), LAUNCH) == Some(Alone(Started(t), None))
  {
    hide Run, Step;
    var t1 := t.(listed := true);
    var t2 := t.(counted := true);
    var t3 := t2.(status := Running, attempts := t.attempts + 1, starting := 1);
    AloneStep(LAUNCH[0], t, None, t1, None);
    AloneStep(LAUNCH[1], t1, None, t2, Some("t"));
    AloneStep(LAUNCH[2], t2, Some("t"), t3, None);
    AloneStep(LAUNCH[3], t3, None, Started(t), None);
    Follow(Alone(t, None), LAUNCH, Alone(t1, None));
    Follow(Alone(t1, None), LAUNCH[1..], Alone(t2, Some("t")));
    assert LAUNCH[1..][1..] == LAUNCH[2..] && LAUNCH[2..][1..] == LAUNCH[3..];
    Follow(Alone(t2, Some("t")), LAUNCH[2..], Alone(t3, None));
    Follow(Alone(t3, None), LAUNCH[3..], Alone(Started(t), None));
  }

  /** How a run ends: with a code, with an error, or interrupted. */
  datatype End = Exited(code: int) | Errored | CutShort

  const RATE_LIMIT := 75

  /** What `settle` writes about it. */
  function Settle(ours: bool, end: End): Act {
    if end == Exited(RATE_LIMIT) && ours then Outcome75("t", true)
    else Outcome("t", if end == Exited(0) then Succeeded else if end.CutShort? then Status.Lost else Failed, true)
  }

  function Ending(ours: bool, end: End): seq<Act> {
    [Settle(ours, end), Finish("t")]
  }

  /** A task that has had its run, and nothing of it is left but what the store says. */
  predicate Ended(t: Slot, was: Slot, end: End) {
    && t.attempts == was.attempts + 1 && t.starts == was.starts + 1
    && t.Active() == 0 && !t.listed && !t.found && !t.counted && t.finishing == was.finishing
    && (t.status.Succeeded? <==> end == Exited(0))
    && (t.status.Blocked? <==> end == Exited(75) && was.ours)
    && (t.status.Lost? <==> end == CutShort)
    && (t.status.Failed? <==> end == Errored || (end.Exited? && end.code != 0 && !(end.code == 75 && was.ours)))
    && t.exits75 == was.exits75 + (if t.status.Blocked? then 1 else 0)
  }

  lemma RunEnds(u: Slot, end: End)
    requires u.awaiting > 0
    ensures var s := Local(Settle(u.ours, end), u);
            s.Some? && Run(Alone(u, None), Ending(u.ours, end))
                       == Some(Alone(s.value.(finishing := u.finishing, counted := false), None))
  {
    var acts := Ending(u.ours, end);
    var s := Local(acts[0], u).value;
    var last := s.(finishing := u.finishing, counted := false);
    AloneStep(acts[0], u, None, s, None);
    AloneStep(Finish("t"), s, None, last, None);
    hide Run, Step;
    Follow(Alone(u, None), acts, Alone(s, None));
    assert acts[1..] == [Finish("t")];
    Follow(Alone(s, None), acts[1..], Alone(last, None));
  }

  /** A pending task that is launched runs once, and ends as its run does. */
  lemma RunsToItsEnd(t: Slot, end: End)
    requires t.Pending() && !t.listed && !t.found && t.Active() == 0
    ensures var w := Run(Alone(t, None), LAUNCH + Ending(t.ours, end));
            w.Some? && "t" in w.value.tasks && Ended(w.value.tasks["t"], t, end)
  {
    hide *;
    StartedIs(t);
    Launched(t);
    RunEnds(Started(t), end);
    EndedMeans(t, end);
    RunThen(Alone(t, None), LAUNCH, Alone(Started(t), None), Ending(t.ours, end),
            Run(Alone(Started(t), None), Ending(t.ours, end)).value);
  }

  lemma StartedIs(t: Slot)
    ensures Started(t).awaiting > 0 && Started(t).ours == t.ours
    ensures t.Active() == 0 ==> t.starting == 0
    ensures forall u: Slot :: "t" in Alone(u, None).tasks && Alone(u, None).tasks["t"] == u
  {
  }

  lemma EndedMeans(t: Slot, end: End)
    requires t.Pending() && !t.listed && !t.found && t.Active() == 0
    ensures Local(Settle(t.ours, end), Started(t)).Some?
    ensures Ended(Local(Settle(t.ours, end), Started(t)).value.(finishing := Started(t).finishing, counted := false), t, end)
  {
  }

  const RESTART: seq<Act> := [Crash, Restart, Adopt("t"), Recovered]

  /** A daemon that dies and comes back finds a running task's job again. */
  lemma Readopted(u: Slot)
    requires u.status.Running? && u.counted && u.awaiting == 1 && u.starting == 0 && u.finishing == 0 && !u.listed && !u.found
    ensures Run(Alone(u, None), RESTART) == Some(Alone(u, None))
  {
    var acts := RESTART;
    var u1 := AfterCrash(u);
    var u2 := SeenByRecover(u1);
    var w1, w2, w3 := World(map["t" := u1], Down, None), World(map["t" := u2], Recovering, None), World(map["t" := u], Recovering, None);
    EachOfOne(AfterCrash, u);
    EachOfOne(SeenByRecover, u1);
    assert Step(Alone(u, None), acts[0]) == Some(w1);
    assert Step(w1, acts[1]) == Some(w2);
    assert w2.tasks["t" := u] == w3.tasks && Local(acts[2], u2) == Some(u);
    assert Step(w2, acts[2]) == Some(w3);
    assert Step(w3, acts[3]) == Some(Alone(u, None));
    hide Run, Step;
    assert acts[1..][1..] == acts[2..] && acts[2..][1..] == acts[3..];
    Follow(Alone(u, None), acts, w1);
    Follow(w1, acts[1..], w2);
    Follow(w2, acts[2..], w3);
    Follow(w3, acts[3..], Alone(u, None));
  }

  lemma EachOfOne(f: Slot -> Slot, t: Slot)
    ensures Each(f, map["t" := t]) == map["t" := f(t)]
  {
  }

  /** A daemon that dies in mid-run and comes back makes no difference to how the task ends. */
  lemma RestartChangesNothing(t: Slot, end: End)
    requires t.Pending() && !t.listed && !t.found && t.Active() == 0 && t.finishing == 0
    ensures Run(Alone(t, None), LAUNCH + RESTART + Ending(t.ours, end)) == Run(Alone(t, None), LAUNCH + Ending(t.ours, end))
  {
    var u, acts := Started(t), Ending(t.ours, end);
    Launched(t);
    Readopted(u);
    RunEnds(u, end);
    hide Run;
    var last := Run(Alone(u, None), acts).value;
    RunThen(Alone(t, None), LAUNCH, Alone(u, None), acts, last);
    RunThen(Alone(t, None), LAUNCH, Alone(u, None), RESTART, Alone(u, None));
    RunThen(Alone(t, None), LAUNCH + RESTART, Alone(u, None), acts, last);
  }

  lemma CancelledMeans(t: Slot, end: End)
    ensures var s := Local(Settle(t.ours, end), Started(t).(status := Cancelled));
            s.Some? && (s.value.status.Cancelled? <==> end != Exited(75) || !t.ours)
  {
  }

  /** A cancel in mid-run is what the task ends in, unless the run used up the machine's own claude. */
  lemma CancelStandsExactly(t: Slot, end: End)
    requires t.Pending() && !t.listed && !t.found && t.Active() == 0
    ensures var w := Run(Alone(t, None), LAUNCH + [Cancel("t")] + Ending(t.ours, end));
            w.Some? && "t" in w.value.tasks && (w.value.tasks["t"].status.Cancelled? <==> end != Exited(75) || !t.ours)
  {
    var u := Started(t);
    var c := u.(status := Cancelled);
    AloneStep(Cancel("t"), u, None, c, None);
    CancelledMeans(t, end);
    hide *;
    StartedIs(t);
    Launched(t);
    RunEnds(c, end);
    Follow(Alone(u, None), [Cancel("t")], Alone(c, None));
    var last := Run(Alone(c, None), Ending(t.ours, end)).value;
    RunThen(Alone(t, None), LAUNCH, Alone(u, None), [Cancel("t")], Alone(c, None));
    RunThen(Alone(t, None), LAUNCH + [Cancel("t")], Alone(c, None), Ending(t.ours, end), last);
  }

  function OutOfUsage(t: Slot): Slot
    requires t.awaiting > 0
  {
    t.(status := Blocked, awaiting := t.awaiting - 1, finishing := t.finishing + 1, exits75 := t.exits75 + 1)
  }

  lemma RunsOut(t: Slot)
    requires t.ours && t.awaiting > 0
    ensures Run(Alone(t, None), [Outcome75("t", true)]) == Some(Alone(OutOfUsage(t), None))
  {
    AloneStep(Outcome75("t", true), t, None, OutOfUsage(t), None);
    hide Run, Step;
    Follow(Alone(t, None), [Outcome75("t", true)], Alone(OutOfUsage(t), None));
  }

  lemma FinishesLate(t: Slot)
    requires t.finishing > 0
    ensures Run(Alone(t, None), [Finish("t")]) == Some(Alone(t.(finishing := t.finishing - 1, counted := false), None))
  {
    var t' := t.(finishing := t.finishing - 1, counted := false);
    AloneStep(Finish("t"), t, None, t', None);
    hide Run, Step;
    Follow(Alone(t, None), [Finish("t")], Alone(t', None));
  }

  lemma RunThen(w: World, xs: seq<Act>, mid: World, ys: seq<Act>, last: World)
    requires Run(w, xs) == Some(mid) && Run(mid, ys) == Some(last)
    ensures Run(w, xs + ys) == Some(last)
  {
    RunConcat(w, xs, ys);
  }

  const FIRST := Slot(true, Running, 1, false, false, true, 0, 1, 0, 1, 0)
  const BLOCKED := Slot(true, Blocked, 1, false, false, true, 0, 0, 1, 1, 1)
  const SECOND := Slot(true, Running, 2, false, false, true, 0, 1, 1, 2, 1)
  const UNCOUNTED := Slot(true, Running, 2, false, false, false, 0, 1, 0, 2, 1)

  /** Taken apart, they let a relaunch in between: then a job runs that nothing counts. */
  lemma RelaunchIsUncounted()
    ensures Run(EMPTY, OPENING + LAUNCH + [Outcome75("t", true)] + LAUNCH + [Finish("t")]) == Some(Alone(UNCOUNTED, None))
    ensures UNCOUNTED.status.Running? && UNCOUNTED.awaiting == 1 && !UNCOUNTED.counted
  {
    RelaunchParts();
    hide Run, Alone;
    RunFive(EMPTY, OPENING, Alone(New(true), None), LAUNCH, Alone(FIRST, None), [Outcome75("t", true)],
            Alone(BLOCKED, None), LAUNCH, Alone(SECOND, None), [Finish("t")], Alone(UNCOUNTED, None));
  }

  lemma RelaunchParts()
    ensures Run(EMPTY, OPENING) == Some(Alone(New(true), None))
    ensures Run(Alone(New(true), None), LAUNCH) == Some(Alone(FIRST, None))
    ensures Run(Alone(FIRST, None), [Outcome75("t", true)]) == Some(Alone(BLOCKED, None))
    ensures Run(Alone(BLOCKED, None), LAUNCH) == Some(Alone(SECOND, None))
    ensures Run(Alone(SECOND, None), [Finish("t")]) == Some(Alone(UNCOUNTED, None))
  {
    hide Run, Alone;
    Opening();
    Launched(New(true));
    RunsOut(FIRST);
    Launched(BLOCKED);
    FinishesLate(SECOND);
  }

  lemma RunFive(w0: World, a: seq<Act>, w1: World, b: seq<Act>, w2: World, c: seq<Act>, w3: World, d: seq<Act>, w4: World,
                e: seq<Act>, w5: World)
    requires Run(w0, a) == Some(w1) && Run(w1, b) == Some(w2) && Run(w2, c) == Some(w3)
    requires Run(w3, d) == Some(w4) && Run(w4, e) == Some(w5)
    ensures Run(w0, a + b + c + d + e) == Some(w5)
  {
    hide Run;
    RunThen(w0, a, w1, b, w2);
    RunThen(w0, a + b, w2, c, w3);
    RunThen(w0, a + b + c, w3, d, w4);
    RunThen(w0, a + b + c + d, w4, e, w5);
  }

  const OPENING: seq<Act> := [Restart, Recovered, Create("t", true)]

  lemma Opening()
    ensures Run(EMPTY, OPENING) == Some(Alone(New(true), None))
  {
    var acts := OPENING;
    assert Step(EMPTY, acts[0]) == Some(World(map[], Recovering, None));
    assert Step(World(map[], Recovering, None), acts[1]) == Some(World(map[], Up, None));
    assert Step(World(map[], Up, None), acts[2]) == Some(Alone(New(true), None));
    hide Step, Run;
    Follow(EMPTY, acts, World(map[], Recovering, None));
    Follow(World(map[], Recovering, None), acts[1..], World(map[], Up, None));
    assert acts[1..][1..] == acts[2..];
    Follow(World(map[], Up, None), acts[2..], Alone(New(true), None));
  }
}
