/**
 Admission: one `Tick` decides, oldest first, which pending tasks start. Jobs finish,
 cancels land and disk writes fail while it runs; what happens just before each task is
 examined is a `Moment` given from outside.
 */
module Admission {
  import opened Tasks

  datatype Snapshot = Snapshot(available: int, cpus: int, ok: bool) {
    predicate Fits(need: int, headroom: int) {
      need <= 0 || (ok && available - need >= headroom)
    }

    predicate FitsCPU(need: int, inUse: int) {
      need <= 0 || (ok && inUse + need <= cpus)
    }
  }

  datatype Config = Config(maxVMs: int, headroom: int)

  datatype Stop = NoStop | SlotsInUse | MemoryShort(id: Id) | CPUsShort(id: Id)

  /**
   `created` are new tasks, `settled` status writes of other goroutines, `freed` runs that
   finish; `saved` says that the next store write works.
   */
  datatype Moment = Moment(created: map<Id, Task>, settled: map<Id, Status>, freed: set<Id>, gateOpen: bool, saved: bool) {
    /** New tasks lie under their own ids and ask for no negative CPUs. */
    predicate Proper() {
      forall id :: id in created ==> created[id].id == id && created[id].cpus >= 0
    }
  }

  type Index = map<Id, Task>

  datatype State = State(store: Index, running: set<Id>, stopped: Stop)

  /** Tasks may have been created; none is removed, and what one asks for is unchanged. */
  predicate Grown(a: Index, b: Index) {
    b.Keys <= a.Keys && forall id :: id in b ==> a[id].cpus == b[id].cpus && a[id].id == b[id].id
  }

  predicate Keyed(store: Index) {
    forall id :: id in store ==> store[id].id == id
  }

  predicate NoneNegative(store: Index) {
    forall id :: id in store ==> store[id].cpus >= 0
  }

  /**
   Writes of other goroutines change only the status of a task; a task whose id is taken is
   not created.
   */
  function Meanwhile(s: State, m: Moment): (r: State)
    ensures r.running <= s.running && r.stopped == s.stopped && Grown(r.store, s.store)
    ensures m.Proper() && Keyed(s.store) ==> Keyed(r.store)
    ensures m.Proper() && NoneNegative(s.store) ==> NoneNegative(r.store)
  {
    s.(running := s.running - m.freed,
       store := map id | id in s.store.Keys + m.created.Keys ::
         if id !in s.store then m.created[id]
         else if id in m.settled then s.store[id].(status := m.settled[id])
         else s.store[id])
  }

  function Update(store: Index, saved: bool, id: Id, f: Task -> Task): Index {
    if saved && id in store then store[id := f(store[id])] else store
  }

  /** A task already blocked for the same reason is not written again. */
  function Block(s: State, m: Moment, t: Task, on: Blocker): (r: State)
    ensures r.running == s.running && r.stopped == s.stopped && r.store.Keys == s.store.Keys && Grown(r.store, s.store)
  {
    if t.status.Blocked? && t.blockedOn == on then s
    else s.(store := Update(s.store, m.saved, t.id, (u: Task) => u.(status := Blocked, blockedOn := on)))
  }

  /** The slot is taken first; a launch that cannot be recorded gives it back. */
  function Launch(s: State, m: Moment, t: Task): (r: State)
    ensures r.running == if m.saved && t.id in s.store then s.running + {t.id} else s.running - {t.id}
    ensures r.stopped == s.stopped && r.store.Keys == s.store.Keys && Grown(r.store, s.store)
  {
    if m.saved && t.id in s.store then
      s.(running := s.running + {t.id},
         store := Update(s.store, true, t.id, (u: Task) => u.(status := Running, blockedOn := OnNothing, attempts := u.attempts + 1)))
    else s.(running := s.running - {t.id})
  }

  /** The gate records that the machine's own token is used up. */
  predicate GateShut(t: Task, m: Moment) {
    t.OnMachineToken() && !m.gateOpen
  }

  /**
   A pass part-way: `left` is the free memory not yet promised, `inUse` the CPUs counted,
   `passed` how many listed tasks it has gone beyond.
   */
  datatype Scan = Scan(state: State, left: int, inUse: int, started: seq<Task>, passed: nat, over: bool)

  /** One task of the listing. A shortage ends the pass; the gate does not. */
  function Examine(cfg: Config, snap: Snapshot, t: Task, m: Moment, c: Scan): Scan {
    var now := Meanwhile(c.state, m);
    if !t.Pending() then c.(state := now, passed := c.passed + 1)
    else if |now.running| >= cfg.maxVMs then c.(state := now.(stopped := SlotsInUse), over := true)
    else if GateShut(t, m) then c.(state := Block(now, m, t, OnClaude), passed := c.passed + 1)
    else if !snap.(available := c.left).Fits(t.memory, cfg.headroom) then
      c.(state := Block(now, m, t, OnMemory).(stopped := MemoryShort(t.id)), over := true)
    else if !snap.FitsCPU(t.cpus, c.inUse) then
      c.(state := Block(now, m, t, OnSlots).(stopped := CPUsShort(t.id)), over := true)
    else
      Scan(Launch(now, m, t), c.left - t.memory, c.inUse + t.cpus,
           c.started + (if m.saved && t.id in now.store then [t] else []), c.passed + 1, false)
  }

  /** The pass over the first `n` tasks of a listing. */
  function Pass(cfg: Config, snap: Snapshot, tasks: seq<Task>, ms: nat -> Moment, n: nat, from: Scan): Scan
    requires n <= |tasks|
  {
    if n == 0 then from
    else
      var c := Pass(cfg, snap, tasks, ms, n - 1, from);
      if c.over then c else Examine(cfg, snap, tasks[n - 1], ms(n - 1), c)
  }

  // --------------------------------------------------------------------- slots

  function Max(a: int, b: int): int { if a < b then b else a }

  lemma SmallerSet(a: set<Id>, b: set<Id>)
    requires a <= b
    ensures |a| <= |b|
  {
    assert b == a + (b - a);
    assert |b| == |a| + |b - a|;
  }

  lemma ExamineHoldsSlots(cfg: Config, snap: Snapshot, t: Task, m: Moment, c: Scan)
    ensures |Examine(cfg, snap, t, m, c).state.running| <= Max(|c.state.running|, cfg.maxVMs)
  {
    hide Meanwhile, Block, Launch, Grown;
    var now := Meanwhile(c.state, m);
    SmallerSet(now.running, c.state.running);
    SmallerSet(now.running - {t.id}, now.running);
  }

  /** A pass never raises the number of running tasks above `MaxVMs`. */
  lemma {:induction false} SlotsHold(cfg: Config, snap: Snapshot, tasks: seq<Task>, ms: nat -> Moment, n: nat, from: Scan)
    requires n <= |tasks|
    ensures |Pass(cfg, snap, tasks, ms, n, from).state.running| <= Max(|from.state.running|, cfg.maxVMs)
  {
    hide Examine;
    if n > 0 {
      SlotsHold(cfg, snap, tasks, ms, n - 1, from);
      ExamineHoldsSlots(cfg, snap, tasks[n - 1], ms(n - 1), Pass(cfg, snap, tasks, ms, n - 1, from));
    }
  }

  // -------------------------------------------------------------------- memory

  function Memory(tasks: seq<Task>): int {
    if tasks == [] then 0 else Memory(tasks[..|tasks| - 1]) + tasks[|tasks| - 1].memory
  }

  /** What is left never falls under the headroom for the sake of a start. */
  predicate MemorySafe(cfg: Config, snap: Snapshot, c: Scan) {
    && 0 <= Memory(c.started) <= snap.available - c.left
    && (c.left < snap.available ==> snap.ok && c.left >= cfg.headroom)
  }

  lemma ExamineHoldsMemory(cfg: Config, snap: Snapshot, t: Task, m: Moment, c: Scan)
    requires t.memory >= 0 && MemorySafe(cfg, snap, c)
    ensures MemorySafe(cfg, snap, Examine(cfg, snap, t, m, c))
  {
    hide Meanwhile, Block, Launch, Grown;
    assert (c.started + [t])[..|c.started|] == c.started && c.started + [] == c.started;
  }

  lemma {:induction false} MemoryHolds(cfg: Config, snap: Snapshot, tasks: seq<Task>, ms: nat -> Moment, n: nat, from: Scan)
    requires n <= |tasks| && forall t :: t in tasks ==> t.memory >= 0
    requires from.left == snap.available && from.started == []
    ensures MemorySafe(cfg, snap, Pass(cfg, snap, tasks, ms, n, from))
    ensures var started := Pass(cfg, snap, tasks, ms, n, from).started;
            Memory(started) > 0 ==> snap.ok && snap.available - Memory(started) >= cfg.headroom
  {
    hide Examine;
    if n > 0 {
      MemoryHolds(cfg, snap, tasks, ms, n - 1, from);
      assert tasks[n - 1] in tasks;
      ExamineHoldsMemory(cfg, snap, tasks[n - 1], ms(n - 1), Pass(cfg, snap, tasks, ms, n - 1, from));
    }
  }

  // ---------------------------------------------------------------------- CPUs

  /** A task the store does not know counts for nothing. */
  function Cpus(store: Index, id: Id): int {
    if id in store then store[id].cpus else 0
  }

  ghost function Load(store: Index, ids: set<Id>): int {
    if ids == {} then 0
    else
      var id :| id in ids;
      Cpus(store, id) + Load(store, ids - {id})
  }

  /** The order of summing does not matter. */
  lemma {:induction false} LoadTakeOut(store: Index, ids: set<Id>, x: Id)
    requires x in ids
    ensures Load(store, ids) == Cpus(store, x) + Load(store, ids - {x})
    decreases ids
  {
    var id :| id in ids && Load(store, ids) == Cpus(store, id) + Load(store, ids - {id});
    if id != x {
      LoadTakeOut(store, ids - {id}, x);
      LoadTakeOut(store, ids - {x}, id);
      assert ids - {id} - {x} == ids - {x} - {id};
    }
  }

  lemma {:induction false} LoadShrinks(a: Index, b: Index, less: set<Id>, ids: set<Id>)
    requires Grown(a, b) && NoneNegative(b) && less <= ids <= b.Keys
    ensures 0 <= Load(a, less) <= Load(b, ids)
    decreases ids
  {
    if ids != {} {
      var id :| id in ids;
      LoadTakeOut(b, ids, id);
      LoadShrinks(a, b, less - {id}, ids - {id});
      if id in less {
        LoadTakeOut(a, less, id);
      } else {
        assert less - {id} == less;
      }
    }
  }

  lemma LoadAdds(a: Index, b: Index, ids: set<Id>, x: Id)
    requires Grown(a, b) && NoneNegative(b) && ids <= b.Keys && x in b
    ensures Load(a, ids + {x}) <= Load(b, ids) + b[x].cpus
  {
    LoadTakeOut(a, ids + {x}, x);
    assert ids + {x} - {x} == ids - {x};
    LoadShrinks(a, b, ids - {x}, ids);
  }

  /** The listing shows tasks of the store, and what it shows of their CPUs stays true. */
  predicate Listed(tasks: seq<Task>, store: Index) {
    forall t :: t in tasks ==> t.id in store && store[t.id].cpus == t.cpus
  }

  /** A store under its own ids, with no negative CPUs, that knows all that runs. */
  predicate Proper(s: State) {
    Keyed(s.store) && NoneNegative(s.store) && s.running <= s.store.Keys
  }

  /** `inUse` may count runs that have finished since. */
  ghost predicate Counted(was: Index, bound: int, c: Scan) {
    && Proper(c.state) && Grown(c.state.store, was) && Load(c.state.store, c.state.running) <= c.inUse <= bound
  }

  lemma GrownChain(a: Index, b: Index, c: Index)
    requires Grown(a, b) && Grown(b, c)
    ensures Grown(a, c)
  {
  }

  lemma GrownProper(a: Index, b: Index)
    requires Grown(a, b) && a.Keys == b.Keys
    ensures Keyed(b) ==> Keyed(a)
    ensures NoneNegative(b) ==> NoneNegative(a)
  {
  }

  lemma ExamineCharges(cfg: Config, snap: Snapshot, t: Task, m: Moment, c: Scan)
    requires m.Proper() && Proper(c.state)
    ensures var e := Examine(cfg, snap, t, m, c);
            && Proper(e.state) && Grown(e.state.store, c.state.store)
            && ((e.state.running <= c.state.running && e.inUse == c.inUse)
                || (e.state.running <= c.state.running + {t.id} && e.inUse == c.inUse + t.cpus
                    && (t.cpus > 0 ==> e.inUse <= snap.cpus)))
  {
    hide Meanwhile, Block, Launch, Load, GateShut, Snapshot.Fits, Grown, Keyed, NoneNegative, Moment.Proper;
    var now := Meanwhile(c.state, m);
    var after := Examine(cfg, snap, t, m, c);
    KeysGrow(now.store, c.state.store);
    GrownSelf(now.store);
    GrownProper(after.state.store, now.store);
    GrownChain(after.state.store, now.store, c.state.store);
  }

  lemma KeysGrow(a: Index, b: Index)
    requires Grown(a, b)
    ensures b.Keys <= a.Keys
  {
  }

  lemma GrownSelf(a: Index)
    ensures Grown(a, a)
  {
  }

  lemma ExamineCounts(cfg: Config, snap: Snapshot, tasks: seq<Task>, t: Task, m: Moment, was: Index, bound: int, c: Scan)
    requires m.Proper() && t in tasks && Listed(tasks, was) && NoneNegative(was) && bound >= snap.cpus
    requires Counted(was, bound, c)
    ensures Counted(was, bound, Examine(cfg, snap, t, m, c))
  {
    hide Examine, Load;
    ExamineCharges(cfg, snap, t, m, c);
    var before, after := c.state, Examine(cfg, snap, t, m, c).state;
    assert t.id in before.store && before.store[t.id].cpus == t.cpus >= 0;
    GrownChain(after.store, before.store, was);
    hide Grown, Keyed, Listed, Moment.Proper;
    if after.running <= before.running {
      LoadShrinks(after.store, before.store, after.running, before.running);
    } else {
      LoadAdds(after.store, before.store, before.running, t.id);
      GrownSelf(after.store);
      KeysGrow(after.store, before.store);
      LoadShrinks(after.store, after.store, after.running, before.running + {t.id});
    }
  }

  /**
   The CPUs of the running tasks never exceed the larger of what was already counted and
   what the machine has, whatever is created meanwhile.
   */
  lemma {:induction false} CpusHold(cfg: Config, snap: Snapshot, tasks: seq<Task>, ms: nat -> Moment, n: nat, from: Scan)
    requires n <= |tasks| && Listed(tasks, from.state.store) && Proper(from.state) && forall i :: ms(i).Proper()
    requires Load(from.state.store, from.state.running) <= from.inUse
    ensures Counted(from.state.store, Max(from.inUse, snap.cpus), Pass(cfg, snap, tasks, ms, n, from))
    ensures var after := Pass(cfg, snap, tasks, ms, n, from).state;
            Load(after.store, after.running) <= Max(from.inUse, snap.cpus)
  {
    hide Examine, Load, Listed, Moment.Proper;
    if n == 0 {
      GrownSelf(from.state.store);
    } else {
      CpusHold(cfg, snap, tasks, ms, n - 1, from);
      var c := Pass(cfg, snap, tasks, ms, n - 1, from);
      ExamineCounts(cfg, snap, tasks, tasks[n - 1], ms(n - 1), from.state.store, Max(from.inUse, snap.cpus), c);
    }
  }

  // ------------------------------------------------------------- no overtaking

  /** A pending task that brings its own token, needs none, or finds the gate open. */
  predicate LetThrough(t: Task, m: Moment) {
    (t.status.Queued? || t.status.Blocked?) && (!t.needsClaude || t.token != "" || m.gateOpen)
  }

  predicate Started(tasks: seq<Task>, ms: nat -> Moment, k: nat)
    requires k < |tasks|
  {
    LetThrough(tasks[k], ms(k)) && ms(k).saved
  }

  /** The pending tasks of a prefix, save those the gate holds and those whose start could not be recorded. */
  function Admitted(tasks: seq<Task>, ms: nat -> Moment, n: nat): seq<Task>
    requires n <= |tasks|
  {
    if n == 0 then []
    else Admitted(tasks, ms, n - 1) + if Started(tasks, ms, n - 1) then [tasks[n - 1]] else []
  }

  ghost predicate Prefixed(tasks: seq<Task>, ms: nat -> Moment, from: Scan, n: nat, c: Scan)
    requires n <= |tasks|
  {
    && c.passed <= n && from.state.store.Keys <= c.state.store.Keys
    && (!c.over ==> c.passed == n && c.state.stopped == from.state.stopped)
    && (c.over ==> c.passed < n && tasks[c.passed].Pending() && !c.state.stopped.NoStop?)
    && c.started == Admitted(tasks, ms, c.passed)
  }

  lemma ExaminePrefixed(cfg: Config, snap: Snapshot, tasks: seq<Task>, ms: nat -> Moment, n: nat, from: Scan, c: Scan)
    requires n < |tasks| && Prefixed(tasks, ms, from, n, c) && !c.over && tasks[n].id in from.state.store
    ensures Prefixed(tasks, ms, from, n + 1, Examine(cfg, snap, tasks[n], ms(n), c))
  {
    hide Meanwhile, Block, Launch, Snapshot.Fits, Snapshot.FitsCPU;
    assert c.started + [] == c.started;
  }

  /** What is started is what is admissible of exactly the prefix the pass got through. */
  lemma {:induction false} StartsAPrefix(cfg: Config, snap: Snapshot, tasks: seq<Task>, ms: nat -> Moment, n: nat, from: Scan)
    requires n <= |tasks| && from.started == [] && from.passed == 0 && !from.over && Listed(tasks, from.state.store)
    ensures Prefixed(tasks, ms, from, n, Pass(cfg, snap, tasks, ms, n, from))
  {
    hide Examine;
    if n > 0 {
      StartsAPrefix(cfg, snap, tasks, ms, n - 1, from);
      var c := Pass(cfg, snap, tasks, ms, n - 1, from);
      assert tasks[n - 1] in tasks;
      if !c.over { ExaminePrefixed(cfg, snap, tasks, ms, n - 1, from, c); }
    }
  }

  lemma {:induction false} AdmittedIs(tasks: seq<Task>, ms: nat -> Moment, n: nat, k: nat)
    requires n <= |tasks| && k < |tasks|
    requires forall i, j :: 0 <= i < j < |tasks| ==> tasks[i] != tasks[j]
    ensures tasks[k] in Admitted(tasks, ms, n) <==> k < n && Started(tasks, ms, k)
  {
    if n > 0 {
      AdmittedIs(tasks, ms, n - 1, k);
    }
  }

  /**
   No overtaking: when a younger task is started and an older pending one is not, the
   older one was held by the gate, or its start could not be written to the store. Slots,
   memory and CPUs never let a younger task pass.
   */
  lemma NoOvertaking(cfg: Config, snap: Snapshot, tasks: seq<Task>, ms: nat -> Moment, from: Scan, older: nat, younger: nat)
    requires from.started == [] && from.passed == 0 && !from.over && Listed(tasks, from.state.store)
    requires forall i, j :: 0 <= i < j < |tasks| ==> tasks[i] != tasks[j]
    requires older < younger < |tasks| && tasks[older].Pending()
    requires tasks[younger] in Pass(cfg, snap, tasks, ms, |tasks|, from).started
    ensures tasks[older] in Pass(cfg, snap, tasks, ms, |tasks|, from).started
            <==> LetThrough(tasks[older], ms(older)) && ms(older).saved
  {
    StartsAPrefix(cfg, snap, tasks, ms, |tasks|, from);
    var c := Pass(cfg, snap, tasks, ms, |tasks|, from);
    AdmittedIs(tasks, ms, c.passed, younger);
    AdmittedIs(tasks, ms, c.passed, older);
  }

  // ---------------------------------------------------------- only for a reason

  /** Whom the pass tried to start of a prefix, the writes that failed included. */
  function Tried(tasks: seq<Task>, ms: nat -> Moment, n: nat): seq<Task>
    requires n <= |tasks|
  {
    if n == 0 then [] else Tried(tasks, ms, n - 1) + if LetThrough(tasks[n - 1], ms(n - 1)) then [tasks[n - 1]] else []
  }

  function CpusOf(tasks: seq<Task>): int {
    if tasks == [] then 0 else CpusOf(tasks[..|tasks| - 1]) + tasks[|tasks| - 1].cpus
  }

  /** The first task `t` that a pass did not get beyond really found no room, and that is noted on it. */
  predicate RealStop(cfg: Config, snap: Snapshot, left: int, inUse: int, t: Task, m: Moment, s: State) {
    match s.stopped
    case NoStop => false
    case SlotsInUse => |s.running| >= cfg.maxVMs
    case MemoryShort(id) =>
      && id == t.id && LetThrough(t, m) && t.memory > 0 && (!snap.ok || left - t.memory < cfg.headroom)
      && |s.running| < cfg.maxVMs && Noted(t, m, s, OnMemory)
    case CPUsShort(id) =>
      && id == t.id && LetThrough(t, m) && t.cpus > 0 && (!snap.ok || inUse + t.cpus > snap.cpus)
      && (t.memory <= 0 || (snap.ok && left - t.memory >= cfg.headroom))
      && |s.running| < cfg.maxVMs && Noted(t, m, s, OnSlots)
  }

  /** What a task waits for is in the store, unless it was so listed already or the write failed. */
  predicate Noted(t: Task, m: Moment, s: State, on: Blocker) {
    m.saved && t.id in s.store && !(t.status.Blocked? && t.blockedOn == on) ==>
      s.store[t.id].status == Blocked && s.store[t.id].blockedOn == on
  }

  ghost predicate Reasoned(cfg: Config, snap: Snapshot, tasks: seq<Task>, ms: nat -> Moment, from: Scan, n: nat, c: Scan)
    requires n <= |tasks|
  {
    && c.passed <= n
    && (!c.over ==> c.passed == n && c.state.stopped == from.state.stopped)
    && c.left == from.left - Memory(Tried(tasks, ms, c.passed))
    && c.inUse == from.inUse + CpusOf(Tried(tasks, ms, c.passed))
    && (c.over ==> c.passed < n && RealStop(cfg, snap, c.left, c.inUse, tasks[c.passed], ms(c.passed), c.state))
  }

  lemma TriedMore(tasks: seq<Task>, ms: nat -> Moment, n: nat)
    requires n < |tasks|
    ensures var (was, now) := (Tried(tasks, ms, n), Tried(tasks, ms, n + 1));
            if LetThrough(tasks[n], ms(n)) then
              Memory(now) == Memory(was) + tasks[n].memory && CpusOf(now) == CpusOf(was) + tasks[n].cpus
            else now == was
  {
    var was := Tried(tasks, ms, n);
    assert (was + [tasks[n]])[..|was|] == was && was + [] == was;
  }

  lemma ExamineReasons(cfg: Config, snap: Snapshot, t: Task, m: Moment, c: Scan)
    requires !c.over
    ensures var e := Examine(cfg, snap, t, m, c);
            if e.over then
              e.passed == c.passed && e.left == c.left && e.inUse == c.inUse
              && RealStop(cfg, snap, c.left, c.inUse, t, m, e.state)
            else
              && e.passed == c.passed + 1 && e.state.stopped == c.state.stopped
              && e.left == c.left - (if LetThrough(t, m) then t.memory else 0)
              && e.inUse == c.inUse + (if LetThrough(t, m) then t.cpus else 0)
  {
    hide Meanwhile, Launch, Grown;
  }

  lemma {:induction false} PassReasons(cfg: Config, snap: Snapshot, tasks: seq<Task>, ms: nat -> Moment, n: nat, from: Scan)
    requires n <= |tasks| && from.passed == 0 && !from.over
    ensures Reasoned(cfg, snap, tasks, ms, from, n, Pass(cfg, snap, tasks, ms, n, from))
  {
    hide Examine, RealStop, LetThrough, Memory, CpusOf;
    if n == 0 {
      NothingTried(tasks, ms);
    } else {
      PassReasons(cfg, snap, tasks, ms, n - 1, from);
      var c := Pass(cfg, snap, tasks, ms, n - 1, from);
      if !c.over {
        TriedMore(tasks, ms, n - 1);
        ExamineReasons(cfg, snap, tasks[n - 1], ms(n - 1), c);
      }
    }
  }

  lemma NothingTried(tasks: seq<Task>, ms: nat -> Moment)
    ensures Memory(Tried(tasks, ms, 0)) == 0 && CpusOf(Tried(tasks, ms, 0)) == 0
  {
  }

  /**
   A pass stops only where there is no slot, memory or CPU for the next pending task, and
   says which. Without a stop it has started every pending task the gate lets through and
   whose start could be written.
   */
  lemma StopsForAReason(cfg: Config, snap: Snapshot, tasks: seq<Task>, ms: nat -> Moment, from: Scan)
    requires from.started == [] && from.passed == 0 && !from.over && from.state.stopped.NoStop?
    requires from.left == snap.available && Listed(tasks, from.state.store)
    ensures var c := Pass(cfg, snap, tasks, ms, |tasks|, from);
            if c.state.stopped.NoStop? then
              forall k :: 0 <= k < |tasks| && LetThrough(tasks[k], ms(k)) && ms(k).saved ==> tasks[k] in c.started
            else
              && c.passed < |tasks| && tasks[c.passed].Pending()
              && RealStop(cfg, snap, snap.available - Memory(Tried(tasks, ms, c.passed)),
                          from.inUse + CpusOf(Tried(tasks, ms, c.passed)), tasks[c.passed], ms(c.passed), c.state)
  {
    hide *;
    PassReasons(cfg, snap, tasks, ms, |tasks|, from);
    StartsAPrefix(cfg, snap, tasks, ms, |tasks|, from);
    ReasonsAre(cfg, snap, tasks, ms, from, Pass(cfg, snap, tasks, ms, |tasks|, from));
  }

  lemma ReasonsAre(cfg: Config, snap: Snapshot, tasks: seq<Task>, ms: nat -> Moment, from: Scan, c: Scan)
    requires Reasoned(cfg, snap, tasks, ms, from, |tasks|, c) && Prefixed(tasks, ms, from, |tasks|, c)
    requires from.state.stopped.NoStop? && from.left == snap.available
    ensures if c.state.stopped.NoStop? then
              forall k :: 0 <= k < |tasks| && LetThrough(tasks[k], ms(k)) && ms(k).saved ==> tasks[k] in c.started
            else
              && c.passed < |tasks| && tasks[c.passed].Pending()
              && RealStop(cfg, snap, snap.available - Memory(Tried(tasks, ms, c.passed)),
                          from.inUse + CpusOf(Tried(tasks, ms, c.passed)), tasks[c.passed], ms(c.passed), c.state)
  {
    hide Memory, CpusOf, LetThrough, Tried, RealStop;
    if c.state.stopped.NoStop? {
      forall k | 0 <= k < |tasks| && LetThrough(tasks[k], ms(k)) && ms(k).saved ensures tasks[k] in c.started {
        AdmittedHas(tasks, ms, |tasks|, k);
      }
    }
  }

  lemma {:induction false} AdmittedHas(tasks: seq<Task>, ms: nat -> Moment, n: nat, k: nat)
    requires k < n <= |tasks| && Started(tasks, ms, k)
    ensures tasks[k] in Admitted(tasks, ms, n)
  {
    if k < n - 1 { AdmittedHas(tasks, ms, n - 1, k); }
  }

  // ------------------------------------------------------- what the store shows

  /** Whether a task is among those started of a prefix. */
  predicate StartedBy(tasks: seq<Task>, ms: nat -> Moment, n: nat, id: Id)
    requires n <= |tasks|
  {
    exists k :: 0 <= k < n && tasks[k].id == id && Started(tasks, ms, k)
  }

  /**
   A pass counts an attempt for each task it starts, and for no other; a task started and
   not settled since is stored as running; a task the gate holds is stored as waiting for it.
   */
  ghost predicate StoreShows(tasks: seq<Task>, ms: nat -> Moment, from: Scan, n: nat, c: Scan)
    requires n <= |tasks|
  {
    && c.passed <= n && (!c.over ==> c.passed == n) && from.state.store.Keys <= c.state.store.Keys
    && (forall id :: id in from.state.store ==>
          c.state.store[id].attempts ==
          from.state.store[id].attempts + if StartedBy(tasks, ms, c.passed, id) then 1 else 0)
    && (forall k :: 0 <= k < c.passed && tasks[k].id in c.state.store && Started(tasks, ms, k) && Unsettled(tasks, ms, k, n) ==>
          c.state.store[tasks[k].id].status == Running && c.state.store[tasks[k].id].blockedOn == OnNothing)
    && (forall k :: 0 <= k < c.passed && tasks[k].id in c.state.store && Held(tasks, ms, k) ==>
          c.state.store[tasks[k].id].blockedOn == OnClaude)
  }

  ghost predicate Unsettled(tasks: seq<Task>, ms: nat -> Moment, k: nat, n: nat)
    requires k < |tasks|
  {
    forall j :: k < j < n ==> tasks[k].id !in ms(j).settled
  }

  /** Pending, on the machine's token while the gate is shut, and not noted as waiting for it already. */
  predicate HeldNow(t: Task, m: Moment) {
    && t.Pending() && t.needsClaude && t.token == "" && !m.gateOpen && m.saved
    && !(t.status.Blocked? && t.blockedOn == OnClaude)
  }

  predicate Held(tasks: seq<Task>, ms: nat -> Moment, k: nat)
    requires k < |tasks|
  {
    HeldNow(tasks[k], ms(k))
  }

  /** What one task's examination does to the store, whoever else writes to it. */
  ghost predicate StoreStep(t: Task, m: Moment, was: Index, now: Index, over: bool)
    requires t.id in was && was.Keys <= now.Keys
  {
    && (forall id :: id in was && id != t.id ==>
          && now[id].attempts == was[id].attempts && now[id].blockedOn == was[id].blockedOn
          && (id in m.settled || now[id].status == was[id].status))
    && now[t.id].attempts == was[t.id].attempts + (if !over && LetThrough(t, m) && m.saved then 1 else 0)
    && (!over && LetThrough(t, m) && m.saved ==> now[t.id].status == Running && now[t.id].blockedOn == OnNothing)
    && (!over && HeldNow(t, m) ==> now[t.id].blockedOn == OnClaude)
  }

  /** What other goroutines leave of a store, as far as it matters here. */
  ghost predicate Settling(m: Moment, was: Index, mid: Index) {
    && was.Keys <= mid.Keys
    && forall id :: id in was ==>
         && mid[id].attempts == was[id].attempts && mid[id].blockedOn == was[id].blockedOn
         && (id in m.settled || mid[id] == was[id])
  }

  /** One write to one task, that counts no attempt. */
  ghost predicate NoAttempt(t: Task, mid: Index, now: Index) {
    && now.Keys == mid.Keys
    && forall id :: id in mid ==> now[id].attempts == mid[id].attempts && (id != t.id ==> now[id] == mid[id])
  }

  lemma ViaLaunch(t: Task, m: Moment, was: Index, s: State)
    requires t.id in was && Settling(m, was, s.store) && LetThrough(t, m)
    ensures was.Keys <= Launch(s, m, t).store.Keys && StoreStep(t, m, was, Launch(s, m, t).store, false)
  {
    LaunchStores(s, m, t);
    hide Launch;
    var now := Launch(s, m, t).store;
    forall id | id in was ensures id in now { assert id in s.store; }
  }

  lemma ViaWrite(t: Task, m: Moment, was: Index, mid: Index, now: Index, over: bool)
    requires t.id in was && Settling(m, was, mid) && NoAttempt(t, mid, now)
    requires !over ==> !LetThrough(t, m) && (HeldNow(t, m) ==> now[t.id].blockedOn == OnClaude)
    ensures was.Keys <= now.Keys && StoreStep(t, m, was, now, over)
  {
    hide HeldNow, LetThrough;
    forall id | id in was ensures id in now { assert id in mid; }
  }

  lemma ExamineStores(cfg: Config, snap: Snapshot, t: Task, m: Moment, c: Scan)
    requires !c.over && t.id in c.state.store
    ensures var e := Examine(cfg, snap, t, m, c);
            c.state.store.Keys <= e.state.store.Keys && StoreStep(t, m, c.state.store, e.state.store, e.over)
  {
    var now, e := Meanwhile(c.state, m), Examine(cfg, snap, t, m, c);
    MeanwhileStores(c.state, m, t);
    ExamineWrites(cfg, snap, t, m, c);
    BlockStores(now, m, t);
    HeldIsPending(t, m);
    hide *;
    if !e.over && LetThrough(t, m) {
      ViaLaunch(t, m, c.state.store, now);
    } else {
      ViaWrite(t, m, c.state.store, now.store, e.state.store, e.over);
    }
  }

  lemma HeldIsPending(t: Task, m: Moment)
    ensures HeldNow(t, m) ==> t.Pending() && !LetThrough(t, m)
  {
  }

  /** The writes a task's examination may make. */
  lemma ExamineWrites(cfg: Config, snap: Snapshot, t: Task, m: Moment, c: Scan)
    requires !c.over
    ensures var e, now := Examine(cfg, snap, t, m, c), Meanwhile(c.state, m);
            if e.over then
              e.state.store == now.store || e.state.store == Block(now, m, t, OnMemory).store
              || e.state.store == Block(now, m, t, OnSlots).store
            else if LetThrough(t, m) then e.state.store == Launch(now, m, t).store
            else if t.Pending() then e.state.store == Block(now, m, t, OnClaude).store
            else e.state.store == now.store
  {
    hide Meanwhile, Block, Launch, Snapshot.Fits, Snapshot.FitsCPU;
  }

  lemma BlockStores(s: State, m: Moment, t: Task)
    ensures NoAttempt(t, s.store, s.store)
    ensures forall on :: NoAttempt(t, s.store, Block(s, m, t, on).store)
    ensures HeldNow(t, m) && t.id in s.store ==> t.id in Block(s, m, t, OnClaude).store && Block(s, m, t, OnClaude).store[t.id].blockedOn == OnClaude
  {
  }

  lemma LaunchStores(s: State, m: Moment, t: Task)
    ensures var now := Launch(s, m, t).store;
            && now.Keys == s.store.Keys
            && (forall id :: id in s.store && (id != t.id || !m.saved) ==> now[id] == s.store[id])
            && (t.id in s.store && m.saved ==>
                  now[t.id].attempts == s.store[t.id].attempts + 1 && now[t.id].status == Running
                  && now[t.id].blockedOn == OnNothing)
  {
  }

  lemma MeanwhileStores(s: State, m: Moment, t: Task)
    ensures Settling(m, s.store, Meanwhile(s, m).store)
    ensures t.id in s.store ==> t.id in Meanwhile(s, m).store
  {
  }

  lemma {:induction false} PassStores(cfg: Config, snap: Snapshot, tasks: seq<Task>, ms: nat -> Moment, n: nat, from: Scan)
    requires n <= |tasks| && from.passed == 0 && !from.over && Listed(tasks, from.state.store)
    requires forall i, j :: 0 <= i < j < |tasks| ==> tasks[i].id != tasks[j].id
    ensures StoreShows(tasks, ms, from, n, Pass(cfg, snap, tasks, ms, n, from))
  {
    hide Examine, RealStop, StoreStep, LetThrough, HeldNow;
    if n > 0 {
      PassStores(cfg, snap, tasks, ms, n - 1, from);
      var c := Pass(cfg, snap, tasks, ms, n - 1, from);
      assert forall k :: 0 <= k < |tasks| ==> tasks[k] in tasks;
      if c.over {
        ShowsStill(tasks, ms, from, n, c);
      } else {
        ExamineStores(cfg, snap, tasks[n - 1], ms(n - 1), c);
        ExamineReasons(cfg, snap, tasks[n - 1], ms(n - 1), c);
        ShowsOn(tasks, ms, from, n, c, Examine(cfg, snap, tasks[n - 1], ms(n - 1), c));
      }
    }
  }

  lemma ShowsStill(tasks: seq<Task>, ms: nat -> Moment, from: Scan, n: nat, c: Scan)
    requires 0 < n <= |tasks| && StoreShows(tasks, ms, from, n - 1, c) && c.over
    ensures StoreShows(tasks, ms, from, n, c)
  {
    hide StartedBy, Started, Held;
    assert forall k :: 0 <= k < n - 1 && Unsettled(tasks, ms, k, n) ==> Unsettled(tasks, ms, k, n - 1);
  }

  lemma ShowsOn(tasks: seq<Task>, ms: nat -> Moment, from: Scan, n: nat, c: Scan, e: Scan)
    requires 0 < n <= |tasks| && StoreShows(tasks, ms, from, n - 1, c) && !c.over
    requires forall i, j :: 0 <= i < j < |tasks| ==> tasks[i].id != tasks[j].id
    requires forall k :: 0 <= k < |tasks| ==> tasks[k].id in from.state.store
    requires c.state.store.Keys <= e.state.store.Keys && e.passed == (if e.over then c.passed else c.passed + 1)
    requires StoreStep(tasks[n - 1], ms(n - 1), c.state.store, e.state.store, e.over)
    ensures StoreShows(tasks, ms, from, n, e)
  {
    ShowsAttempts(tasks, ms, n, c.passed, e.passed);
    assert forall k :: 0 <= k < n - 1 && Unsettled(tasks, ms, k, n) ==>
      Unsettled(tasks, ms, k, n - 1) && tasks[k].id !in ms(n - 1).settled;
    hide Unsettled, LetThrough, StartedBy, HeldNow;
    forall k | 0 <= k < e.passed && tasks[k].id in e.state.store
      ensures Started(tasks, ms, k) && Unsettled(tasks, ms, k, n) ==>
                e.state.store[tasks[k].id].status == Running && e.state.store[tasks[k].id].blockedOn == OnNothing
      ensures Held(tasks, ms, k) ==> e.state.store[tasks[k].id].blockedOn == OnClaude
    {
      assert k < n - 1 ==> tasks[k].id != tasks[n - 1].id;
    }
  }

  lemma ShowsAttempts(tasks: seq<Task>, ms: nat -> Moment, n: nat, was: nat, now: nat)
    requires 0 < n <= |tasks| && was <= n - 1 && (now == was || (now == n && was == n - 1))
    requires forall i, j :: 0 <= i < j < |tasks| ==> tasks[i].id != tasks[j].id
    ensures forall id :: StartedBy(tasks, ms, now, id) <==>
                           StartedBy(tasks, ms, was, id) || (now == n && was == n - 1 && id == tasks[n - 1].id && Started(tasks, ms, n - 1))
    ensures !StartedBy(tasks, ms, was, tasks[n - 1].id)
  {
    hide Started;
  }

  // ------------------------------------------------------------- the scheduler

  lemma {:induction false} OverStays(cfg: Config, snap: Snapshot, tasks: seq<Task>, ms: nat -> Moment, i: nat, n: nat, from: Scan)
    requires i <= n <= |tasks| && Pass(cfg, snap, tasks, ms, i, from).over
    ensures Pass(cfg, snap, tasks, ms, n, from) == Pass(cfg, snap, tasks, ms, i, from)
  {
    hide Examine;
    if i < n { OverStays(cfg, snap, tasks, ms, i, n - 1, from); }
  }

  /** The store's listing: every task once, oldest first; ties fall as they may. */
  ghost predicate Listing(tasks: seq<Task>, store: Index) {
    && (forall i, j :: 0 <= i < j < |tasks| ==> tasks[i].created <= tasks[j].created && tasks[i].id != tasks[j].id)
    && (forall t :: t in tasks ==> t.id in store && store[t.id] == t)
    && (forall id :: id in store ==> store[id] in tasks)
  }

  /** As `Listing`, while `todo` is still to come. */
  ghost predicate ListedSoFar(tasks: seq<Task>, todo: set<Id>, store: Index) {
    && (forall i, j :: 0 <= i < j < |tasks| ==> tasks[i].created <= tasks[j].created && tasks[i].id != tasks[j].id)
    && (forall t :: t in tasks ==> t.id in store && t.id !in todo && store[t.id] == t)
    && (forall t, id :: t in tasks && id in todo && id in store ==> t.created <= store[id].created)
    && (forall id :: id in store && id !in todo ==> store[id] in tasks)
  }

  lemma NoneListed(store: Index)
    ensures ListedSoFar([], store.Keys, store)
  {
  }

  lemma AllListed(tasks: seq<Task>, store: Index)
    requires ListedSoFar(tasks, {}, store)
    ensures Listing(tasks, store)
  {
  }

  lemma OneMoreListed(tasks: seq<Task>, todo: set<Id>, store: Index, id: Id)
    requires Keyed(store) && ListedSoFar(tasks, todo, store) && id in todo && todo <= store.Keys
    requires forall other :: other in todo ==> store[id].created <= store[other].created
    ensures ListedSoFar(tasks + [store[id]], todo - {id}, store)
  {
    var more := tasks + [store[id]];
    forall i, j | 0 <= i < j < |more| ensures more[i].created <= more[j].created && more[i].id != more[j].id {
      if j == |tasks| { assert more[i] in tasks; }
    }
  }

  /** A pass begins with all the free memory, the CPUs counted so far and nothing started. */
  ghost function Beginning(s: State, snap: Snapshot, first: Moment): Scan {
    Scan(Meanwhile(s, first).(stopped := NoStop), snap.available, Load(s.store, s.running), [], 0, false)
  }

  class Scheduler {
    const cfg: Config
    var store: Index
    var running: set<Id>
    var stopped: Stop

    constructor (cfg: Config, store: Index)
      ensures this.cfg == cfg && Now() == State(store, {}, NoStop)
    {
      this.cfg := cfg;
      this.store := store;
      running := {};
      stopped := NoStop;
    }

    function Now(): State
      reads this
    {
      State(store, running, stopped)
    }

    /** Other goroutines have had their turn. */
    method Become(s: State)
      modifies this`store, this`running, this`stopped
      ensures Now() == s
    {
      store, running, stopped := s.store, s.running, s.stopped;
    }

    method BlockOn(t: Task, on: Blocker, m: Moment)
      modifies this`store
      ensures Now() == Block(old(Now()), m, t, on)
    {
      if t.status.Blocked? && t.blockedOn == on { return; }
      if m.saved && t.id in store {
        store := store[t.id := store[t.id].(status := Blocked, blockedOn := on)];
      }
    }

    method Start(t: Task, m: Moment) returns (ok: bool)
      modifies this`store, this`running
      ensures Now() == Launch(old(Now()), m, t) && (ok <==> m.saved && t.id in old(store))
    {
      running := running + {t.id};
      ok := m.saved && t.id in store;
      if ok {
        var u := store[t.id];
        store := store[t.id := u.(status := Running, blockedOn := OnNothing, attempts := u.attempts + 1)];
      } else {
        running := running - {t.id};
        assert running == old(running) - {t.id};
      }
    }

    method CpusInUse() returns (total: int)
      ensures total == Load(store, running)
    {
      total := 0;
      var todo := running;
      while todo != {}
        invariant todo <= running && total + Load(store, todo) == Load(store, running)
        decreases todo
      {
        var id :| id in todo;
        LoadTakeOut(store, todo, id);
        if id in store { total := total + store[id].cpus; }
        todo := todo - {id};
      }
    }

    method List() returns (tasks: seq<Task>)
      requires Keyed(store)
      ensures Listing(tasks, store)
    {
      hide ListedSoFar, Listing;
      tasks := [];
      var todo := store.Keys;
      NoneListed(store);
      while todo != {}
        invariant todo <= store.Keys && ListedSoFar(tasks, todo, store)
        decreases |todo|
      {
        var id := Oldest(todo);
        OneMoreListed(tasks, todo, store, id);
        tasks := tasks + [store[id]];
        todo := todo - {id};
      }
      AllListed(tasks, store);
    }

    method Oldest(ids: set<Id>) returns (id: Id)
      requires ids != {} && ids <= store.Keys
      ensures id in ids && forall other :: other in ids ==> store[id].created <= store[other].created
    {
      id :| id in ids;
      var todo := ids - {id};
      while todo != {}
        invariant todo <= ids && id in ids
        invariant forall other :: other in ids - todo ==> store[id].created <= store[other].created
        decreases |todo|
      {
        var other :| other in todo;
        if store[other].created < store[id].created { id := other; }
        todo := todo - {other};
      }
    }

    /** One task of the listing; `c` is where the pass stands. */
    method Consider(snap: Snapshot, t: Task, m: Moment, ghost c: Scan, free: int, inUse: int)
      returns (left: int, cpus: int, ok: bool, over: bool)
      requires c.state == Now() && c.left == free && c.inUse == inUse && !c.over
      modifies this`store, this`running, this`stopped
      ensures Examine(cfg, snap, t, m, c) ==
        Scan(Now(), left, cpus, c.started + (if ok then [t] else []), if over then c.passed else c.passed + 1, over)
    {
      hide Meanwhile, Block, Launch, Load, GateShut, Snapshot.Fits, Snapshot.FitsCPU, Grown;
      left, cpus, ok, over := free, inUse, false, false;
      assert c.started + [] == c.started;
      Become(Meanwhile(Now(), m));
      if !t.Pending() { return; }
      if |running| >= cfg.maxVMs {
        stopped, over := SlotsInUse, true;
      } else if GateShut(t, m) {
        BlockOn(t, OnClaude, m);
      } else if !snap.(available := left).Fits(t.memory, cfg.headroom) {
        BlockOn(t, OnMemory, m);
        stopped, over := MemoryShort(t.id), true;
      } else if !snap.FitsCPU(t.cpus, cpus) {
        BlockOn(t, OnSlots, m);
        stopped, over := CPUsShort(t.id), true;
      } else {
        ok := Start(t, m);
        left := left - t.memory;
        cpus := cpus + t.cpus;
      }
    }

    /** One pass over the store's listing, in the state the other goroutines keep changing. */
    method Tick(snap: Snapshot, first: Moment, ms: nat -> Moment) returns (started: seq<Task>, ghost tasks: seq<Task>)
      requires Keyed(store) && first.Proper()
      modifies this`store, this`running, this`stopped
      ensures Listing(tasks, Meanwhile(old(Now()), first).store)
      ensures var c := Pass(cfg, snap, tasks, ms, |tasks|, Beginning(old(Now()), snap, first));
              Now() == c.state && started == c.started
    {
      hide Meanwhile, Load, Grown, Listing, Examine, Moment.Proper;
      var cpus := CpusInUse();
      ghost var from := Beginning(Now(), snap, first);
      Become(Meanwhile(Now(), first));
      stopped := NoStop;
      var listed := List();
      tasks, started := listed, [];
      var left := snap.available;
      for i := 0 to |listed|
        invariant Scan(Now(), left, cpus, started, i, false) == Pass(cfg, snap, listed, ms, i, from)
      {
        ghost var c := Pass(cfg, snap, listed, ms, i, from);
        var ok, over;
        left, cpus, ok, over := Consider(snap, listed[i], ms(i), c, left, cpus);
        started := started + if ok then [listed[i]] else [];
        assert Pass(cfg, snap, listed, ms, i + 1, from) == Examine(cfg, snap, listed[i], ms(i), c);
        if over {
          OverStays(cfg, snap, listed, ms, i + 1, |listed|, from);
          return;
        }
      }
    }

    /**
     The scheduler's loop over any run of ticks on one machine, tasks being created all the
     while: with enough slots and CPUs for what was running at the start, there are enough
     at the end.
     */
    method Loop(probes: seq<Snapshot>, firsts: nat -> Moment, ms: (nat, nat) -> Moment, ghost machine: int)
      requires Proper(Now()) && forall p :: p in probes ==> p.cpus <= machine
      requires forall i :: firsts(i).Proper()
      requires forall i, j :: ms(i, j).Proper()
      requires |running| <= cfg.maxVMs && Load(store, running) <= machine
      modifies this`store, this`running, this`stopped
      ensures |running| <= cfg.maxVMs && Load(store, running) <= machine
      ensures Proper(Now()) && Grown(store, old(store))
    {
      hide Load, Keyed, NoneNegative, Grown, Listing, Moment.Proper;
      GrownSelf(store);
      for i := 0 to |probes|
        invariant |running| <= cfg.maxVMs && Load(store, running) <= machine
        invariant Proper(Now()) && Grown(store, old(store))
      {
        ghost var before := Now();
        ghost var tasks;
        var started;
        started, tasks := Tick(probes[i], firsts(i), (j: nat) => ms(i, j));
        TickHolds(cfg, probes[i], firsts(i), tasks, (j: nat) => ms(i, j), before);
        GrownChain(store, before.store, old(store));
      }
    }
  }

  lemma TickHolds(cfg: Config, snap: Snapshot, first: Moment, tasks: seq<Task>, ms: nat -> Moment, s: State)
    requires Proper(s) && first.Proper() && forall i :: ms(i).Proper()
    requires Listing(tasks, Meanwhile(s, first).store)
    ensures var after := Pass(cfg, snap, tasks, ms, |tasks|, Beginning(s, snap, first)).state;
            && |after.running| <= Max(|s.running|, cfg.maxVMs)
            && Load(after.store, after.running) <= Max(Load(s.store, s.running), snap.cpus)
            && Proper(after) && Grown(after.store, s.store)
  {
    var from := Beginning(s, snap, first);
    ListingLists(tasks, from.state.store);
    hide Examine, Meanwhile, Load, Pass, Listing, Listed, Keyed, NoneNegative, Grown, Moment.Proper;
    SmallerSet(from.state.running, s.running);
    SlotsHold(cfg, snap, tasks, ms, |tasks|, from);
    KeysGrow(from.state.store, s.store);
    LoadShrinks(from.state.store, s.store, from.state.running, s.running);
    CpusHold(cfg, snap, tasks, ms, |tasks|, from);
    GrownChain(Pass(cfg, snap, tasks, ms, |tasks|, from).state.store, from.state.store, s.store);
  }

  lemma ListingLists(tasks: seq<Task>, store: Index)
    requires Listing(tasks, store)
    ensures Listed(tasks, store)
  {
  }
}
