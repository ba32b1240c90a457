/**
 `Ensure` is a correct cache over every run of any number of processes, failures and
 crashes: what is served has exactly the content its chain asks for.
 */
module LayerCacheSafety {
  import opened Prelude
  import opened ImageNames
  import opened LayerCache
  import opened LayerCacheInvariant

  /** The layers applied in order to a fresh base. */
  function Build(base: string, layers: seq<Layer>): Content {
    if layers == [] then Fresh(base)
    else With(Build(base, layers[..|layers| - 1]), layers[|layers| - 1])
  }

  predicate Buildable(base: string, disk: string, layers: seq<Layer>) {
    IsBase(base) && Plain(base) && Plain(disk) && PlainLayers(layers)
  }

  function PlanFor(h: string -> string, base: string, disk: string, layers: seq<Layer>): Plan {
    Plan(ChainOf(h, base, disk, layers), layers)
  }

  /** What a name stands for: the content of the one chain that ends in it. */
  ghost function Meaning(h: string -> string, name: string): Content {
    if b, d, ls :| Buildable(b, d, ls) && NameAt(h, b, d, ls, |ls|) == name then Build(b, ls) else Unfinished
  }

  lemma MeaningIsBuild(h: string -> string, base: string, disk: string, layers: seq<Layer>)
    requires IdealDigest(h) && Buildable(base, disk, layers)
    ensures Meaning(h, NameAt(h, base, disk, layers, |layers|)) == Build(base, layers)
  {
    hide Image, IdealDigest;
    var name := NameAt(h, base, disk, layers, |layers|);
    forall b, d, ls | Buildable(b, d, ls) && NameAt(h, b, d, ls, |ls|) == name ensures b == base && ls == layers {
      assert ls[..|ls|] == ls && layers[..|layers|] == layers;
      EqualLastNames(h, b, d, ls, base, disk, layers);
    }
  }

  /** As LastNameFixesTheChain, with the bare base for an empty chain. */
  lemma EqualLastNames(h: string -> string, b1: string, d1: string, ls1: seq<Layer>, b2: string, d2: string, ls2: seq<Layer>)
    requires IdealDigest(h) && Buildable(b1, d1, ls1) && Buildable(b2, d2, ls2)
    requires NameAt(h, b1, d1, ls1, |ls1|) == NameAt(h, b2, d2, ls2, |ls2|)
    ensures b1 == b2 && ls1 == ls2
  {
    hide Image, IdealDigest;
    assert ls1[..|ls1|] == ls1 && ls2[..|ls2|] == ls2;
    if ls1 != [] && ls2 != [] {
      LastNameFixesTheChain(h, b1, d1, ls1, b2, d2, ls2);
    } else if ls1 != [] {
      OneIsEmpty(h, b2, "", b1, d1, ls1);
    } else if ls2 != [] {
      OneIsEmpty(h, b1, "", b2, d2, ls2);
    }
  }

  /** Under a collision-free digest the plan `PlanFor` makes means what its names stand for. */
  lemma PlanForMeans(h: string -> string, base: string, disk: string, layers: seq<Layer>)
    requires IdealDigest(h) && Buildable(base, disk, layers)
    ensures PlanMeans(x => Meaning(h, x), PlanFor(h, base, disk, layers))
  {
    hide IdealDigest, Meaning, Image;
    var chain := ChainOf(h, base, disk, layers);
    forall k | 0 <= k <= |layers| ensures Meaning(h, chain[k]) == Build(base, layers[..k]) {
      assert layers[..k][..k] == layers[..k];
      assert NameAt(h, base, disk, layers[..k], k) == chain[k];
      MeaningIsBuild(h, base, disk, layers[..k]);
    }
    forall k | 0 <= k < |layers|
      ensures Meaning(h, chain[k + 1]) == With(Meaning(h, chain[k]), layers[k])
    {
      assert layers[..k + 1][..k] == layers[..k];
    }
    assert layers[..0] == [];
  }

  // ------------------------------------------------------------------ all runs

  /** A machine nobody is building on, where what is finished is right. */
  ghost predicate Idle(m: string -> Content, w: World) {
    && w.procs == map[] && w.locks == map[] && w.built == map[]
    && (forall n :: n in w.instances ==> Sound(m, w, n))
  }

  /** Such a machine, on which removing a record never fails. */
  ghost predicate Start(m: string -> Content, w: World) {
    Idle(m, w) && w.unlinks
  }

  /** Every process that is started asks for a chain some Kranqfile and base call for. */
  ghost predicate Honest(h: string -> string, acts: seq<Action>) {
    forall a :: a in acts && a.Spawn? ==>
      exists b, d, ls :: Buildable(b, d, ls) && a.plan == PlanFor(h, b, d, ls)
  }

  lemma HonestRunKeeps(h: string -> string, w: World, acts: seq<Action>)
    requires IdealDigest(h) && Start(x => Meaning(h, x), w) && Honest(h, acts)
    ensures Inv(x => Meaning(h, x), Run(w, acts))
  {
    hide IdealDigest, Meaning, PlanMeans, Run;
    var m := x => Meaning(h, x);
    forall a | a in acts ensures Meant(m, a) {
      if a.Spawn? {
        var b, d, ls :| Buildable(b, d, ls) && a.plan == PlanFor(h, b, d, ls);
        PlanForMeans(h, b, d, ls);
      }
    }
    RunKeeps(m, w, acts);
  }

  /**
   A process whose `Ensure` returned has an image that is complete, stopped, and holds
   exactly the layers of its chain applied in order to a fresh base.
   */
  lemma EnsureIsACorrectCache(h: string -> string, w: World, acts: seq<Action>, p: nat,
                              base: string, disk: string, layers: seq<Layer>)
    requires IdealDigest(h) && Start(x => Meaning(h, x), w) && Honest(h, acts)
    requires Buildable(base, disk, layers)
    requires p in Run(w, acts).procs && Run(w, acts).procs[p].pc.Done?
    requires Run(w, acts).procs[p].plan == PlanFor(h, base, disk, layers)
    ensures var v := Run(w, acts);
            var image := NameAt(h, base, disk, layers, |layers|);
            Complete(v, image) && v.instances[image] == Instance(false, Build(base, layers))
  {
    HonestRunKeeps(h, w, acts);
    MeaningIsBuild(h, base, disk, layers);
    hide IdealDigest, Meaning, Run, Image, Inv;
    DoneIsComplete(x => Meaning(h, x), Run(w, acts), p);
  }

  lemma DoneIsComplete(m: string -> Content, w: World, p: nat)
    requires Inv(m, w) && p in w.procs && w.procs[p].pc.Done?
    ensures var plan := w.procs[p].plan;
            && |plan.chain| == |plan.layers| + 1
            && Complete(w, plan.chain[|plan.layers|])
            && w.instances[plan.chain[|plan.layers|]] == Instance(false, m(plan.chain[|plan.layers|]))
  {
    assert ProcOk(m, w, p);
    assert Sound(m, w, Name(w.procs[p]));
  }

  /** Whatever is complete, anywhere in any run, has the content its name stands for. */
  lemma CompleteImagesAreRight(h: string -> string, w: World, acts: seq<Action>, n: string)
    requires IdealDigest(h) && Start(x => Meaning(h, x), w) && Honest(h, acts)
    requires Complete(Run(w, acts), n)
    ensures Run(w, acts).instances[n] == Instance(false, Meaning(h, n))
  {
    HonestRunKeeps(h, w, acts);
    hide IdealDigest, Meaning, Run;
    assert Sound(x => Meaning(h, x), Run(w, acts), n);
  }

  /** All that is complete has the content its name stands for. */
  ghost predicate AllServedRight(h: string -> string, w: World) {
    forall n :: Complete(w, n) ==> w.instances[n] == Instance(false, Meaning(h, n))
  }

  const BASE := "kranq-base-0"

  /** A base whose record outlived its instance. */
  const STALE := World(map[], {BASE}, map[], map[], map[], false)

  /** It is built again, the old record cannot be removed, and the building fails. */
  const REBUILD: seq<Action> :=
    [Action.Spawn(0, Plan([BASE], [])), Action.Move(0, Good), Action.Move(0, Good), Action.Move(0, Good),
     Action.Move(0, Good), Action.Move(0, Good), Action.Move(0, Bad), Action.Move(0, Mess)]

  function At(pc: Pc): World {
    STALE.(procs := map[0 := Proc(Plan([BASE], []), 0, pc)],
           locks := if Critical(pc) then map[BASE := 0] else map[],
           instances := if pc.CleanStop? then map[BASE := Instance(true, Unfinished)] else map[])
  }

  lemma Spawns()
    ensures Step(STALE, REBUILD[0]) == At(Exists1)
  {
  }

  /** One step of the only process, from what it sees. */
  lemma Moves(pc: Pc, out: Out, d: Delta)
    requires !Stamping(pc)
    requires d == Advance(0, pc, BASE, None, ViewOf(At(pc), Proc(Plan([BASE], []), 0, pc)), out)
    ensures Step(At(pc), Action.Move(0, out)) == Apply(At(pc), 0, d)
  {
    hide Advance;
  }

  function Seen(pc: Pc): View {
    View(if pc.CleanStop? then Some(Instance(true, Unfinished)) else None, true,
         if Critical(pc) then Some(0) else None, None, false)
  }

  lemma SeesIt(pc: Pc)
    ensures ViewOf(At(pc), Proc(Plan([BASE], []), 0, pc)) == Seen(pc)
  {
    hide Critical;
  }

  lemma LeavesIt(pc: Pc, d: Delta)
    requires !d.next && !d.saved && d == Delta(Seen(d.pc).inst, true, Seen(d.pc).lock, false, d.pc, false)
    ensures Apply(At(pc), 0, d) == At(d.pc)
  {
    hide Critical;
    assert map[BASE := 0] - {BASE} == map[] && map[BASE := Instance(true, Unfinished)] - {BASE} == map[];
    assert {BASE} + {BASE} == {BASE};
  }

  lemma MovesOn(pc: Pc, out: Out, d: Delta)
    requires !Stamping(pc) && d == Advance(0, pc, BASE, None, Seen(pc), out)
    requires !d.next && !d.saved && d == Delta(Seen(d.pc).inst, true, Seen(d.pc).lock, false, d.pc, false)
    ensures Step(At(pc), Action.Move(0, out)) == At(d.pc)
  {
    hide *;
    SeesIt(pc);
    Moves(pc, out, d);
    LeavesIt(pc, d);
  }

  /** A step that leaves the stale record where it is. */
  function Staying(pc: Pc): Delta {
    Delta(Seen(pc).inst, true, Seen(pc).lock, false, pc, false)
  }

  lemma RebuildLooks()
    ensures Step(At(Exists1), REBUILD[1]) == At(Acquire)
    ensures Step(At(Acquire), REBUILD[2]) == At(Exists2)
    ensures Step(At(Exists2), REBUILD[3]) == At(WipeStop)
  {
    hide Step, At;
    MovesOn(Exists1, Good, Staying(Acquire));
    MovesOn(Acquire, Good, Staying(Exists2));
    MovesOn(Exists2, Good, Staying(WipeStop));
  }

  lemma RebuildWipes()
    ensures Step(At(WipeStop), REBUILD[4]) == At(WipeDelete)
    ensures Step(At(WipeDelete), REBUILD[5]) == At(WipeRecord)
  {
    hide Step, At;
    MovesOn(WipeStop, Good, Staying(WipeDelete));
    MovesOn(WipeDelete, Good, Staying(WipeRecord));
  }

  lemma RebuildFails()
    ensures Step(At(WipeRecord), REBUILD[6]) == At(Make)
    ensures Step(At(Make), REBUILD[7]) == At(CleanStop)
  {
    hide Step, At;
    MovesOn(WipeRecord, Bad, Staying(Make));
    MovesOn(Make, Mess, Staying(CleanStop));
  }

  lemma RunTwice(w: World, a: Action, v: World, b: Action, u: World, rest: seq<Action>)
    requires Step(w, a) == v && Step(v, b) == u
    ensures Run(w, [a, b] + rest) == Run(u, rest)
  {
    hide Step;
    assert ([a, b] + rest)[1..] == [b] + rest && ([b] + rest)[1..] == rest;
  }

  lemma RebuildRun()
    ensures Run(STALE, REBUILD) == At(CleanStop)
  {
    Spawns();
    RebuildLooks();
    RebuildWipes();
    RebuildFails();
    hide Step, At;
    RunTwice(STALE, REBUILD[0], At(Exists1), REBUILD[1], At(Acquire), REBUILD[2..]);
    RunTwice(At(Acquire), REBUILD[2], At(Exists2), REBUILD[3], At(WipeStop), REBUILD[4..]);
    RunTwice(At(WipeStop), REBUILD[4], At(WipeDelete), REBUILD[5], At(WipeRecord), REBUILD[6..]);
    RunTwice(At(WipeRecord), REBUILD[6], At(Make), REBUILD[7], At(CleanStop), []);
    assert REBUILD == [REBUILD[0], REBUILD[1]] + REBUILD[2..];
    assert REBUILD[2..] == [REBUILD[2], REBUILD[3]] + REBUILD[4..];
    assert REBUILD[4..] == [REBUILD[4], REBUILD[5]] + REBUILD[6..];
    assert REBUILD[6..] == [REBUILD[6], REBUILD[7]] + [];
  }

  /** A record that cannot be removed makes the next build complete before it is done. */
  lemma StaleRecordServesTheUnfinished(h: string -> string)
    requires IdealDigest(h)
    ensures Idle(x => Meaning(h, x), STALE) && Honest(h, REBUILD)
    ensures !AllServedRight(h, Run(STALE, REBUILD))
  {
    assert Buildable(BASE, "", []);
    assert REBUILD[0].plan == PlanFor(h, BASE, "", []);
    RebuildRun();
    hide Run, Meaning, Buildable, IdealDigest;
    assert Complete(At(CleanStop), BASE);
    forall a | a in REBUILD && a.Spawn?
      ensures exists b, d, ls :: Buildable(b, d, ls) && a.plan == PlanFor(h, b, d, ls)
    {
      assert a == REBUILD[0];
    }
  }

  /** The cache serves only what is right, in every run, exactly when removing a record never fails. */
  lemma CacheIsRightExactly(h: string -> string, unlinks: bool)
    requires IdealDigest(h)
    ensures unlinks <==> forall w, acts ::
              Idle(x => Meaning(h, x), w) && w.unlinks == unlinks && Honest(h, acts) ==> AllServedRight(h, Run(w, acts))
  {
    if unlinks {
      forall w, acts | Idle(x => Meaning(h, x), w) && w.unlinks && Honest(h, acts)
        ensures AllServedRight(h, Run(w, acts))
      {
        forall n | Complete(Run(w, acts), n) ensures Run(w, acts).instances[n] == Instance(false, Meaning(h, n)) {
          CompleteImagesAreRight(h, w, acts, n);
        }
      }
    } else {
      StaleRecordServesTheUnfinished(h);
    }
  }

  /** In any run, a process that clones, or is in the middle of it, clones a finished and stopped parent. */
  lemma ClonesAreOfFinishedParents(m: string -> Content, w: World, acts: seq<Action>, p: nat)
    requires Start(m, w) && forall a :: a in acts ==> Meant(m, a)
    requires p in Run(w, acts).procs && Run(w, acts).procs[p].i > 0
    requires Run(w, acts).procs[p].pc.Make? || Run(w, acts).procs[p].pc.Copying?
    ensures var v := Run(w, acts);
            && Wellformed(v.procs[p])
            && var parent := v.procs[p].plan.chain[v.procs[p].i - 1];
               Complete(v, parent) && v.instances[parent] == Instance(false, m(parent))
  {
    RunKeeps(m, w, acts);
    hide Run;
    var v := Run(w, acts);
    assert ProcOk(m, v, p);
    assert Sound(m, v, v.procs[p].plan.chain[v.procs[p].i - 1]);
  }

  /** In any run, two processes are never both building one name. */
  lemma BuildsExclude(m: string -> Content, w: World, acts: seq<Action>, p: nat, q: nat)
    requires Start(m, w) && forall a :: a in acts ==> Meant(m, a)
    requires p in Run(w, acts).procs && q in Run(w, acts).procs
    requires Critical(Run(w, acts).procs[p].pc) && Critical(Run(w, acts).procs[q].pc)
    ensures var v := Run(w, acts);
            && Wellformed(v.procs[p]) && Wellformed(v.procs[q])
            && (Name(v.procs[p]) == Name(v.procs[q]) ==> p == q)
  {
    RunKeeps(m, w, acts);
    hide Run;
    assert ProcOk(m, Run(w, acts), p) && ProcOk(m, Run(w, acts), q);
  }

  /** No step touches a finished image, or builds it again. */
  lemma StepLeavesComplete(m: string -> Content, w: World, act: Action, n: string)
    requires Inv(m, w) && Complete(w, n)
    ensures var w' := Step(w, act);
            Complete(w', n) && w'.instances[n] == w.instances[n] && Built(w', n) == Built(w, n)
  {
    if act.Move? && act.p in w.procs {
      var p := act.p;
      assert ProcOk(m, w, p);
      if !w.procs[p].pc.TouchLoad? && !w.procs[p].pc.TouchSave? {
        var proc := w.procs[p];
        assert Sound(m, w, Name(proc));
        if proc.i > 0 { assert Complete(w, proc.plan.chain[proc.i - 1]); }
        DeltaIsGood(m, w, p, act.out);
        hide Advance, AtPc, Inv, ProcOk, Sound, PlanMeans, GoodView, Knows;
        CarefulLeavesComplete(w, p, DeltaOf(w, p, act.out), n);
        assert Step(w, act) == Apply(w, p, DeltaOf(w, p, act.out));
      }
    }
  }

  lemma CarefulLeavesComplete(w: World, p: nat, d: Delta, n: string)
    requires p in w.procs && Wellformed(w.procs[p]) && Careful(p, ViewOf(w, w.procs[p]), d) && Complete(w, n)
    ensures var w' := Apply(w, p, d);
            Complete(w', n) && w'.instances[n] == w.instances[n] && Built(w', n) == Built(w, n)
  {
  }

  /** A finished image stays as it is through any run, and is never built again. */
  lemma {:induction false} CompleteStaysComplete(m: string -> Content, w: World, acts: seq<Action>, n: string)
    requires Inv(m, w) && Complete(w, n) && forall a :: a in acts ==> Meant(m, a)
    ensures var v := Run(w, acts);
            Complete(v, n) && v.instances[n] == w.instances[n] && Built(v, n) == Built(w, n)
    decreases |acts|
  {
    hide Inv, Step;
    if acts != [] {
      StepKeeps(m, w, acts[0]);
      StepLeavesComplete(m, w, acts[0], n);
      CompleteStaysComplete(m, Step(w, acts[0]), acts[1..], n);
    }
  }

  /** Over any run at most one build of a name succeeds, and none of one already finished. */
  lemma AtMostOneBuildSucceeds(m: string -> Content, w: World, acts: seq<Action>, n: string)
    requires Start(m, w) && forall a :: a in acts ==> Meant(m, a)
    ensures Built(Run(w, acts), n) <= 1
    ensures Complete(w, n) ==> Built(Run(w, acts), n) == 0
    ensures Built(Run(w, acts), n) == 1 ==> Complete(Run(w, acts), n)
  {
    RunKeeps(m, w, acts);
    if Complete(w, n) { CompleteStaysComplete(m, w, acts, n); }
    hide Run;
    assert Inv(m, Run(w, acts));
  }

  // ------------------------------------------------------------- it gets there

  predicate OnTrack(pc: Pc) {
    !pc.CleanStop? && !pc.CleanDelete? && !pc.CleanRecord? && !pc.Abort? && !pc.Failed?
  }

  /** How far a program point is from the end of its name. */
  function Distance(pc: Pc): nat {
    match pc
    case Exists1 => 19
    case Load1 => 18
    case Acquire => 17
    case Exists2 => 16
    case Load2 => 15
    case WipeStop => 14
    case WipeDelete => 13
    case WipeRecord => 12
    case Make => 11
    case Settle1 => 10
    case Settle2 => 9
    case Settle3 => 8
    case Copying => 10
    case Boot => 9
    case Begin => 8
    case Applying(_) => 7
    case Halt => 6
    case Save => 5
    case Unlock => 4
    case _ => 0
  }

  /** When the driver works and the lock is free, a step leads on. */
  lemma AdvanceLeadsOn(p: nat, pc: Pc, name: string, layer: Option<Layer>, below: Content, goal: Content, v: View)
    requires AtPc(p, pc, layer, below, goal, v) && OnTrack(pc) && !Stamping(pc)
    requires layer.Some? ==> v.parent.Some? && !v.parent.value.running
    requires pc.Acquire? ==> v.lock.None?
    ensures var d := Advance(p, pc, name, layer, v, Good);
            d.next || (OnTrack(d.pc) && !Stamping(d.pc) && Distance(d.pc) < Distance(pc))
    ensures var d := Advance(p, pc, name, layer, v, Good);
            (d.next ==> d.lock.None? || d.lock == v.lock) && (!d.next ==> d.lock == v.lock || pc.Acquire?)
    ensures var d := Advance(p, pc, name, layer, v, Good);
            !d.next && d.lock.Some? && (v.lock.Some? ==> Critical(pc)) ==> Critical(d.pc)
    ensures var d := Advance(p, pc, name, layer, v, Good);
            d.next && (v.lock.Some? ==> Critical(pc)) ==> d.lock.None?
  {
  }

  /** No other process is building a name this one still has to pass. */
  predicate Unhindered(w: World, p: nat)
    requires p in w.procs && Wellformed(w.procs[p])
  {
    var proc := w.procs[p];
    forall k :: proc.i <= k < |proc.plan.chain| && proc.plan.chain[k] in w.locks ==> k == proc.i && Critical(proc.pc)
  }

  lemma MoveLeadsOn(m: string -> Content, w: World, p: nat)
    requires Inv(m, w) && p in w.procs && OnTrack(w.procs[p].pc) && !Stamping(w.procs[p].pc)
    requires Wellformed(w.procs[p]) && Unhindered(w, p)
    ensures var w', proc := Step(w, Action.Move(p, Good)), w.procs[p];
            && Inv(m, w') && p in w'.procs && Wellformed(w'.procs[p]) && Unhindered(w', p)
            && OnTrack(w'.procs[p].pc) && w'.procs[p].plan == proc.plan
            && (Stamping(w'.procs[p].pc) || w'.procs[p].i > proc.i
                || (w'.procs[p].i == proc.i && Distance(w'.procs[p].pc) < Distance(proc.pc)))
  {
    hide *;
    var proc, d := w.procs[p], DeltaOf(w, p, Good);
    GoodDelta(m, w, p);
    ApplyKeeps(m, w, p, Good);
    PlanOf(m, w, p);
    LaterNamesDiffer(m, proc);
    StillUnhindered(w, p, d);
    MoveIs(w, p);
    MovesForward(w, p, d);
  }

  /** What a step from a point on the way does, when the driver works and nobody hinders it. */
  lemma GoodDelta(m: string -> Content, w: World, p: nat)
    requires Inv(m, w) && p in w.procs && OnTrack(w.procs[p].pc) && !Stamping(w.procs[p].pc)
    requires Wellformed(w.procs[p]) && Unhindered(w, p)
    ensures var d := DeltaOf(w, p, Good);
            && (d.next ==> d.lock.None?) && (!d.next && d.lock.Some? ==> Critical(d.pc))
            && (d.next || (OnTrack(d.pc) && !Stamping(d.pc) && Distance(d.pc) < Distance(w.procs[p].pc)))
    ensures !w.procs[p].pc.TouchLoad? && !w.procs[p].pc.TouchSave?
  {
    var proc := w.procs[p];
    assert ProcOk(m, w, p);
    if proc.i > 0 { assert Complete(w, proc.plan.chain[proc.i - 1]) && Sound(m, w, proc.plan.chain[proc.i - 1]); }
    hide Inv, ProcOk, Sound, Complete, Distance, Advance;
    AdvanceLeadsOn(p, proc.pc, Name(proc), LayerOf(proc), Below(m, proc), m(Name(proc)), ViewOf(w, proc));
  }

  lemma PlanOf(m: string -> Content, w: World, p: nat)
    requires Inv(m, w) && p in w.procs
    ensures PlanMeans(m, w.procs[p].plan)
  {
    assert ProcOk(m, w, p);
  }

  lemma MoveIs(w: World, p: nat)
    requires p in w.procs && Wellformed(w.procs[p]) && !w.procs[p].pc.TouchLoad? && !w.procs[p].pc.TouchSave?
    ensures Step(w, Action.Move(p, Good)) == Apply(w, p, DeltaOf(w, p, Good))
  {
    hide Advance, Apply;
  }

  lemma MovesForward(w: World, p: nat, d: Delta)
    requires p in w.procs && Wellformed(w.procs[p])
    requires d.next || (OnTrack(d.pc) && !Stamping(d.pc) && Distance(d.pc) < Distance(w.procs[p].pc))
    ensures var w', proc := Apply(w, p, d), w.procs[p];
            && p in w'.procs && Wellformed(w'.procs[p]) && OnTrack(w'.procs[p].pc) && w'.procs[p].plan == proc.plan
            && (Stamping(w'.procs[p].pc) || w'.procs[p].i > proc.i
                || (w'.procs[p].i == proc.i && Distance(w'.procs[p].pc) < Distance(proc.pc)))
  {
    hide Distance;
  }

  lemma LaterNamesDiffer(m: string -> Content, proc: Proc)
    requires Wellformed(proc) && PlanMeans(m, proc.plan)
    ensures forall k :: proc.i < k < |proc.plan.chain| ==> proc.plan.chain[k] != Name(proc)
  {
    forall k | proc.i < k < |proc.plan.chain| ensures proc.plan.chain[k] != Name(proc) {
      DepthIsPosition(m, proc.plan, k);
      DepthIsPosition(m, proc.plan, proc.i);
    }
  }

  lemma StillUnhindered(w: World, p: nat, d: Delta)
    requires p in w.procs && Wellformed(w.procs[p]) && Unhindered(w, p)
    requires forall k :: w.procs[p].i < k < |w.procs[p].plan.chain| ==> w.procs[p].plan.chain[k] != Name(w.procs[p])
    requires d.next ==> d.lock.None?
    requires !d.next && d.lock.Some? ==> Critical(d.pc)
    ensures Wellformed(Apply(w, p, d).procs[p]) && Unhindered(Apply(w, p, d), p)
  {
  }

  /**
   A process nobody hinders, whose driver calls succeed, ends with its image: the cache
   is never stuck on what earlier failures and crashes left behind.
   */
  lemma {:induction false} UnhinderedProcessFinishes(m: string -> Content, w: World, p: nat) returns (acts: seq<Action>)
    requires Inv(m, w) && p in w.procs && OnTrack(w.procs[p].pc) && Wellformed(w.procs[p]) && Unhindered(w, p)
    ensures forall a :: a in acts ==> a == Action.Move(p, Good)
    ensures p in Run(w, acts).procs && Run(w, acts).procs[p].pc.Done?
    ensures Run(w, acts).procs[p].plan == w.procs[p].plan
    decreases if Stamping(w.procs[p].pc) then 0 else 1, |w.procs[p].plan.layers| - w.procs[p].i, Remaining(w.procs[p])
  {
    hide *;
    var act := Action.Move(p, Good);
    if w.procs[p].pc.Done? {
      acts := [];
      RunNothing(w);
    } else if Stamping(w.procs[p].pc) {
      TouchLeadsOn(m, w, p);
      acts := UnhinderedProcessFinishes(m, Step(w, act), p);
      RunFirst(w, act, acts);
      acts := [act] + acts;
    } else {
      MoveLeadsOn(m, w, p);
      LeadsCloser(w, Step(w, act), p);
      acts := UnhinderedProcessFinishes(m, Step(w, act), p);
      RunFirst(w, act, acts);
      acts := [act] + acts;
    }
  }

  lemma RunNothing(w: World)
    ensures Run(w, []) == w
  {
  }

  lemma RunFirst(w: World, act: Action, acts: seq<Action>)
    ensures Run(w, [act] + acts) == Run(Step(w, act), acts)
  {
    assert ([act] + acts)[1..] == acts;
  }

  lemma LeadsCloser(w: World, w': World, p: nat)
    requires p in w.procs && p in w'.procs && w'.procs[p].plan == w.procs[p].plan && !Stamping(w.procs[p].pc)
    requires Wellformed(w.procs[p]) && Wellformed(w'.procs[p])
    requires Stamping(w'.procs[p].pc) || w'.procs[p].i > w.procs[p].i
             || (w'.procs[p].i == w.procs[p].i && Distance(w'.procs[p].pc) < Distance(w.procs[p].pc))
    ensures || Stamping(w'.procs[p].pc)
            || |w'.procs[p].plan.layers| - w'.procs[p].i < |w.procs[p].plan.layers| - w.procs[p].i
            || (w'.procs[p].i == w.procs[p].i && Remaining(w'.procs[p]) < Remaining(w.procs[p]))
    ensures w'.procs[p].i <= |w'.procs[p].plan.layers|
  {
  }

  /** Stamping changes nothing but records, and goes on to its end. */
  lemma TouchMoves(w: World, p: nat)
    requires p in w.procs && Stamping(w.procs[p].pc) && !w.procs[p].pc.Done?
    ensures var w', proc := Touch(w, p, Good), w.procs[p];
            && w'.locks == w.locks && p in w'.procs
            && w'.procs[p] == proc.(pc := w'.procs[p].pc) && Stamping(w'.procs[p].pc)
            && Remaining(w'.procs[p]) < Remaining(proc)
  {
  }

  lemma TouchIs(w: World, p: nat)
    requires p in w.procs && Wellformed(w.procs[p]) && Stamping(w.procs[p].pc) && !w.procs[p].pc.Done?
    ensures Step(w, Action.Move(p, Good)) == Touch(w, p, Good)
  {
    hide Touch;
  }

  lemma SameLocksUnhindered(w: World, w': World, p: nat)
    requires p in w.procs && p in w'.procs && w'.locks == w.locks && Wellformed(w.procs[p]) && Unhindered(w, p)
    requires Stamping(w.procs[p].pc) && Stamping(w'.procs[p].pc) && w'.procs[p] == w.procs[p].(pc := w'.procs[p].pc)
    ensures Wellformed(w'.procs[p]) && Unhindered(w', p) && OnTrack(w'.procs[p].pc)
  {
  }

  lemma TouchLeadsOn(m: string -> Content, w: World, p: nat)
    requires Inv(m, w) && p in w.procs && Stamping(w.procs[p].pc) && !w.procs[p].pc.Done?
    requires Wellformed(w.procs[p]) && Unhindered(w, p)
    ensures var w', proc := Step(w, Action.Move(p, Good)), w.procs[p];
            && Inv(m, w') && p in w'.procs && Wellformed(w'.procs[p]) && Unhindered(w', p)
            && OnTrack(w'.procs[p].pc) && Stamping(w'.procs[p].pc)
            && w'.procs[p].plan == proc.plan && w'.procs[p].i == proc.i && Remaining(w'.procs[p]) < Remaining(proc)
  {
    assert w.procs[p].pc.TouchLoad? || w.procs[p].pc.TouchSave?;
    hide *;
    TouchIs(w, p);
    TouchMoves(w, p);
    TouchKeeps(m, w, p, Good);
    SameLocksUnhindered(w, Touch(w, p, Good), p);
  }

  function Remaining(proc: Proc): nat {
    match proc.pc
    case TouchLoad(j) => if j >= |proc.plan.chain| then 1 else 2 * (|proc.plan.chain| - j) + 1
    case TouchSave(j) => if j >= |proc.plan.chain| then 2 else 2 * (|proc.plan.chain| - j)
    case _ => Distance(proc.pc)
  }
}
