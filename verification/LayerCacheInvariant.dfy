/** What every step of the layer cache keeps, for one process and its name first, then for all. */
module LayerCacheInvariant {
  import opened Prelude
  import opened ImageNames
  import opened LayerCache

  /** A finished image: an instance with a completion record. */
  predicate Complete(w: World, n: string) {
    n in w.instances && n in w.records
  }

  /** What each name of a plan stands for is its layers applied in order to a fresh base. */
  ghost predicate PlanMeans(m: string -> Content, plan: Plan) {
    && |plan.chain| == |plan.layers| + 1
    && m(plan.chain[0]) == Fresh(plan.chain[0])
    && (forall k :: 0 <= k < |plan.layers| ==> m(plan.chain[k + 1]) == With(m(plan.chain[k]), plan.layers[k]))
  }

  function Depth(c: Content): nat {
    match c
    case With(below, _) => Depth(below) + 1
    case _ => 0
  }

  lemma {:induction false} DepthIsPosition(m: string -> Content, plan: Plan, k: nat)
    requires PlanMeans(m, plan) && k < |plan.chain|
    ensures Depth(m(plan.chain[k])) == k
  {
    if k > 0 {
      DepthIsPosition(m, plan, k - 1);
      assert m(plan.chain[k - 1 + 1]) == With(m(plan.chain[k - 1]), plan.layers[k - 1]);
    }
  }

  ghost predicate Sound(m: string -> Content, w: World, n: string) {
    Complete(w, n) ==> !w.instances[n].running && w.instances[n].content == m(n)
  }

  /** The program points between taking a name's lock and giving it back. */
  predicate Critical(pc: Pc) {
    match pc
    case Exists1 => false
    case Load1 => false
    case Acquire => false
    case TouchLoad(_) => false
    case TouchSave(_) => false
    case Done => false
    case Failed => false
    case _ => true
  }

  /** A build in progress: no record, and an instance with this content. */
  predicate Holding(v: View, content: Content) {
    !v.record && v.inst.Some? && v.inst.value.content == content
  }

  /**
   What a process may count on at each program point, about its own name. `below` is
   what the parent stands for, `goal` what this name does.
   */
  predicate AtPc(p: nat, pc: Pc, layer: Option<Layer>, below: Content, goal: Content, v: View) {
    && (Critical(pc) ==> v.lock == Some(p))
    && match pc
       case Load1 => v.record ==> v.inst.Some?
       case Load2 => v.record ==> v.inst.Some?
       case WipeStop => !(v.record && v.inst.Some?)
       case WipeDelete => !(v.record && v.inst.Some?)
       case WipeRecord => v.inst.None?
       case Make => !v.record
       case Settle1 => Holding(v, goal)
       case Settle2 => Holding(v, goal)
       case Settle3 => Holding(v, goal)
       case Copying => layer.Some? && Holding(v, Unfinished)
       case Boot => layer.Some? && Holding(v, below)
       case Begin => layer.Some? && Holding(v, below)
       case Applying(c) => layer.Some? && c == below && Holding(v, Unfinished)
       case Halt => Holding(v, goal)
       case Save => Holding(v, goal) && !v.inst.value.running
       case Unlock => v.record && v.inst.Some?
       case CleanStop => !v.record
       case CleanDelete => !v.record
       case CleanRecord => !v.record
       case Abort => !v.record
       case TouchLoad(_) => v.record && v.inst.Some?
       case TouchSave(_) => v.record && v.inst.Some?
       case Done => v.record && v.inst.Some?
       case _ => true
  }

  /** A complete image is stopped and has the content its name stands for. */
  predicate GoodView(goal: Content, v: View) {
    v.record && v.inst.Some? ==> !v.inst.value.running && v.inst.value.content == goal
  }

  /** The view after a step. */
  function Left(v: View, d: Delta): View {
    View(d.inst, d.record, d.lock, v.parent, v.unlinks)
  }

  predicate Looking(pc: Pc) {
    pc.Exists1? || pc.Load1? || pc.Acquire? || pc.Exists2? || pc.Load2? || pc.WipeStop? || pc.WipeDelete? || pc.WipeRecord?
  }

  predicate Making(pc: Pc) {
    pc.Make? || pc.Settle1? || pc.Settle2? || pc.Settle3? || pc.Copying? || pc.Boot? || pc.Begin? || pc.Applying? || pc.Halt?
  }

  lemma LookingKeeps(p: nat, pc: Pc, name: string, layer: Option<Layer>, below: Content, goal: Content, v: View, out: Out)
    requires Looking(pc)
    requires AtPc(p, pc, layer, below, goal, v) && GoodView(goal, v)
    requires !pc.TouchLoad? && !pc.TouchSave? && v.unlinks
    requires layer.None? ==> goal == Fresh(name)
    requires layer.Some? ==> goal == With(below, layer.value)
    requires layer.Some? && v.parent.Some? ==> v.parent.value.content == below
    ensures var d := Advance(p, pc, name, layer, v, out);
            && GoodView(goal, Left(v, d))
            && (d.next ==> d.record && d.inst.Some? && !d.saved)
            && (!d.next ==> AtPc(p, d.pc, layer, below, goal, Left(v, d)))
            && (!d.next ==> !d.pc.TouchLoad? && !d.pc.TouchSave? && (d.pc.Done? ==> pc.Done?))
  {
  }

  lemma MakingKeeps(p: nat, pc: Pc, name: string, layer: Option<Layer>, below: Content, goal: Content, v: View, out: Out)
    requires Making(pc)
    requires AtPc(p, pc, layer, below, goal, v) && GoodView(goal, v)
    requires !pc.TouchLoad? && !pc.TouchSave? && v.unlinks
    requires layer.None? ==> goal == Fresh(name)
    requires layer.Some? ==> goal == With(below, layer.value)
    requires layer.Some? && v.parent.Some? ==> v.parent.value.content == below
    ensures var d := Advance(p, pc, name, layer, v, out);
            && GoodView(goal, Left(v, d))
            && (d.next ==> d.record && d.inst.Some? && !d.saved)
            && (!d.next ==> AtPc(p, d.pc, layer, below, goal, Left(v, d)))
            && (!d.next ==> !d.pc.TouchLoad? && !d.pc.TouchSave? && (d.pc.Done? ==> pc.Done?))
  {
  }

  lemma EndingKeeps(p: nat, pc: Pc, name: string, layer: Option<Layer>, below: Content, goal: Content, v: View, out: Out)
    requires !Looking(pc) && !Making(pc)
    requires AtPc(p, pc, layer, below, goal, v) && GoodView(goal, v)
    requires !pc.TouchLoad? && !pc.TouchSave? && v.unlinks
    requires layer.None? ==> goal == Fresh(name)
    requires layer.Some? ==> goal == With(below, layer.value)
    requires layer.Some? && v.parent.Some? ==> v.parent.value.content == below
    ensures var d := Advance(p, pc, name, layer, v, out);
            && GoodView(goal, Left(v, d))
            && (d.next ==> d.record && d.inst.Some? && !d.saved)
            && (!d.next ==> AtPc(p, d.pc, layer, below, goal, Left(v, d)))
            && (!d.next ==> !d.pc.TouchLoad? && !d.pc.TouchSave? && (d.pc.Done? ==> pc.Done?))
  {
  }

  /** One step of one process: it still knows what it counts on, and moves on only past a complete image. */
  lemma AdvanceKeeps(p: nat, pc: Pc, name: string, layer: Option<Layer>, below: Content, goal: Content, v: View, out: Out)
    requires AtPc(p, pc, layer, below, goal, v) && GoodView(goal, v)
    requires !pc.TouchLoad? && !pc.TouchSave? && v.unlinks
    requires layer.None? ==> goal == Fresh(name)
    requires layer.Some? ==> goal == With(below, layer.value)
    requires layer.Some? && v.parent.Some? ==> v.parent.value.content == below
    ensures var d := Advance(p, pc, name, layer, v, out);
            && GoodView(goal, Left(v, d))
            && (d.next ==> d.record && d.inst.Some? && !d.saved)
            && (!d.next ==> AtPc(p, d.pc, layer, below, goal, Left(v, d)))
            && (!d.next ==> !d.pc.TouchLoad? && !d.pc.TouchSave? && (d.pc.Done? ==> pc.Done?))
  {
    hide *;
    if Looking(pc) {
      LookingKeeps(p, pc, name, layer, below, goal, v, out);
    } else if Making(pc) {
      MakingKeeps(p, pc, name, layer, below, goal, v, out);
    } else {
      EndingKeeps(p, pc, name, layer, below, goal, v, out);
    }
  }

  /** What a step may change: never a complete image, an incomplete one only under its lock. */
  predicate Careful(p: nat, v: View, d: Delta) {
    && (v.record && v.inst.Some? ==> d.record && d.inst == v.inst)
    && (v.lock == Some(p) || (d.record == v.record && d.inst == v.inst))
    && (v.lock.Some? && v.lock != Some(p) ==> d.lock == v.lock)
    && (d.record && d.inst.None? ==> v.record && v.inst.None?)
    && (d.saved ==> !v.record && d.record && d.inst.Some?)
  }

  lemma AdvanceIsCareful(p: nat, pc: Pc, name: string, layer: Option<Layer>, below: Content, goal: Content, v: View, out: Out)
    requires AtPc(p, pc, layer, below, goal, v)
    ensures Careful(p, v, Advance(p, pc, name, layer, v, out))
  {
  }

  // ------------------------------------------------------------- all processes

  /** What the name below stands for; a base has nothing below it. */
  function Below(m: string -> Content, proc: Proc): Content
    requires Wellformed(proc)
  {
    if proc.i == 0 then Unfinished else m(proc.plan.chain[proc.i - 1])
  }

  ghost predicate ProcOk(m: string -> Content, w: World, p: nat)
    requires p in w.procs
  {
    var proc := w.procs[p];
    && Wellformed(proc) && PlanMeans(m, proc.plan)
    && (forall k :: 0 <= k < proc.i ==> Complete(w, proc.plan.chain[k]))
    && AtPc(p, proc.pc, LayerOf(proc), Below(m, proc), m(Name(proc)), ViewOf(w, proc))
    && (proc.pc.TouchLoad? || proc.pc.TouchSave? || proc.pc.Done? ==> proc.i == |proc.plan.layers|)
  }

  ghost predicate Inv(m: string -> Content, w: World) {
    && w.unlinks
    && (forall n :: n in w.instances ==> Sound(m, w, n))
    && (forall p :: p in w.procs ==> ProcOk(m, w, p))
    && (forall n :: n in w.built ==> w.built[n] <= 1 && (w.built[n] == 1 ==> Complete(w, n)))
  }

  /** A process at the same name still may count on the same after a careful step of another. */
  lemma OtherSees(p: nat, q: nat, pc: Pc, layer: Option<Layer>, below: Content, goal: Content, v: View, d: Delta, parent: Option<Instance>)
    requires p != q && AtPc(q, pc, layer, below, goal, v) && Careful(p, v, d)
    ensures AtPc(q, pc, layer, below, goal, View(d.inst, d.record, d.lock, parent, v.unlinks))
  {
  }

  /** What was complete stays so under a careful step. */
  lemma EarlierStay(w: World, p: nat, d: Delta, x: string)
    requires p in w.procs && Wellformed(w.procs[p]) && Careful(p, ViewOf(w, w.procs[p]), d) && Complete(w, x)
    ensures Complete(Apply(w, p, d), x)
  {
  }

  /** The view of another process, when it is at this name and when it is elsewhere. */
  lemma OthersView(w: World, p: nat, d: Delta, proc: Proc)
    requires p in w.procs && Wellformed(w.procs[p]) && Wellformed(proc)
    ensures var v, v' := ViewOf(w, proc), ViewOf(Apply(w, p, d), proc);
            v' == if Name(proc) == Name(w.procs[p]) then View(d.inst, d.record, d.lock, v'.parent, v.unlinks)
                  else v.(parent := v'.parent)
  {
  }

  /** The other processes are left as they should be by a careful step of `p` about its name. */
  lemma OthersKeep(m: string -> Content, w: World, p: nat, d: Delta, q: nat)
    requires p in w.procs && Wellformed(w.procs[p]) && q in w.procs && q != p
    requires ProcOk(m, w, q) && Careful(p, ViewOf(w, w.procs[p]), d)
    ensures ProcOk(m, Apply(w, p, d), q)
  {
    var w', proc := Apply(w, p, d), w.procs[q];
    var v, v' := ViewOf(w, proc), ViewOf(w', proc);
    OthersView(w, p, d, proc);
    if Name(proc) == Name(w.procs[p]) { SameNameCares(w, p, d, proc); }
    hide AtPc, PlanMeans, Careful, ViewOf, Complete;
    forall k | 0 <= k < proc.i ensures Complete(w', proc.plan.chain[k]) {
      EarlierStay(w, p, d, proc.plan.chain[k]);
    }
    if Name(proc) != Name(w.procs[p]) {
      ParentIsUnseen(q, proc.pc, LayerOf(proc), Below(m, proc), m(Name(proc)), v, v'.parent);
    } else {
      OtherSees(p, q, proc.pc, LayerOf(proc), Below(m, proc), m(Name(proc)), v, d, v'.parent);
    }
  }

  lemma SameNameCares(w: World, p: nat, d: Delta, proc: Proc)
    requires p in w.procs && Wellformed(w.procs[p]) && Wellformed(proc) && Name(proc) == Name(w.procs[p])
    ensures Careful(p, ViewOf(w, w.procs[p]), d) == Careful(p, ViewOf(w, proc), d)
  {
  }

  lemma ParentIsUnseen(p: nat, pc: Pc, layer: Option<Layer>, below: Content, goal: Content, v: View, parent: Option<Instance>)
    requires AtPc(p, pc, layer, below, goal, v)
    ensures AtPc(p, pc, layer, below, goal, v.(parent := parent))
  {
  }

  /** What a step has to leave for its own process. */
  predicate Knows(m: string -> Content, p: nat, proc: Proc, v: View, d: Delta)
    requires Wellformed(proc)
  {
    if d.next then d.record && d.inst.Some?
    else
      && AtPc(p, d.pc, LayerOf(proc), Below(m, proc), m(Name(proc)), Left(v, d))
      && !d.pc.TouchLoad? && !d.pc.TouchSave? && (d.pc.Done? ==> proc.pc.Done?)
  }

  function DeltaOf(w: World, p: nat, out: Out): Delta
    requires p in w.procs && Wellformed(w.procs[p])
  {
    var proc := w.procs[p];
    Advance(p, proc.pc, Name(proc), LayerOf(proc), ViewOf(w, proc), out)
  }

  lemma DeltaIsGood(m: string -> Content, w: World, p: nat, out: Out)
    requires w.unlinks && p in w.procs && ProcOk(m, w, p) && !w.procs[p].pc.TouchLoad? && !w.procs[p].pc.TouchSave?
    requires Sound(m, w, Name(w.procs[p]))
    requires w.procs[p].i > 0 ==> Sound(m, w, w.procs[p].plan.chain[w.procs[p].i - 1])
    ensures var proc, v, d := w.procs[p], ViewOf(w, w.procs[p]), DeltaOf(w, p, out);
            Careful(p, v, d) && Knows(m, p, proc, v, d) && GoodView(m(Name(proc)), Left(v, d))
  {
    var proc := w.procs[p];
    var n, v := Name(proc), ViewOf(w, proc);
    if proc.i > 0 {
      assert Complete(w, proc.plan.chain[proc.i - 1]);
      assert m(proc.plan.chain[proc.i - 1 + 1]) == With(m(proc.plan.chain[proc.i - 1]), proc.plan.layers[proc.i - 1]);
    }
    hide Advance, AtPc;
    AdvanceKeeps(p, proc.pc, n, LayerOf(proc), Below(m, proc), m(n), v, out);
    AdvanceIsCareful(p, proc.pc, n, LayerOf(proc), Below(m, proc), m(n), v, out);
  }

  lemma AppliedKnows(m: string -> Content, w: World, p: nat, d: Delta)
    requires p in w.procs && ProcOk(m, w, p)
    requires Careful(p, ViewOf(w, w.procs[p]), d) && Knows(m, p, w.procs[p], ViewOf(w, w.procs[p]), d)
    ensures ProcOk(m, Apply(w, p, d), p)
  {
    var proc, w' := w.procs[p], Apply(w, p, d);
    var proc' := w'.procs[p];
    var n := Name(proc);
    hide AtPc, PlanMeans;
    assert d.record && d.inst.Some? ==> Complete(w', n);
    forall k | 0 <= k < proc.i ensures Complete(w', proc.plan.chain[k]) {
      assert Complete(w, proc.plan.chain[k]);
      EarlierStay(w, p, d, proc.plan.chain[k]);
    }
    if d.next {
      assert forall k :: 0 <= k < proc'.i ==> k < proc.i || proc.plan.chain[k] == n;
      NextKnows(m, w, p, d);
    } else {
      var v, v' := Left(ViewOf(w, proc), d), ViewOf(w', proc');
      assert v' == v.(parent := v'.parent);
      ParentIsUnseen(p, d.pc, LayerOf(proc), Below(m, proc), m(n), v, v'.parent);
    }
  }

  /** At the next name, or at stamping, a process starts from what it has just left. */
  lemma NextKnows(m: string -> Content, w: World, p: nat, d: Delta)
    requires p in w.procs && Wellformed(w.procs[p]) && d.next && d.record && d.inst.Some?
    ensures var w' := Apply(w, p, d);
            Wellformed(w'.procs[p]) && AtPc(p, w'.procs[p].pc, LayerOf(w'.procs[p]), Below(m, w'.procs[p]),
                                            m(Name(w'.procs[p])), ViewOf(w', w'.procs[p]))
  {
  }

  lemma ApplyKeeps(m: string -> Content, w: World, p: nat, out: Out)
    requires Inv(m, w) && p in w.procs && !w.procs[p].pc.TouchLoad? && !w.procs[p].pc.TouchSave?
    ensures Wellformed(w.procs[p])
    ensures Inv(m, Apply(w, p, DeltaOf(w, p, out)))
  {
    var proc := w.procs[p];
    assert ProcOk(m, w, p);
    var n := Name(proc);
    assert Sound(m, w, n);
    if proc.i > 0 { assert Complete(w, proc.plan.chain[proc.i - 1]); }
    DeltaIsGood(m, w, p, out);
    var d := DeltaOf(w, p, out);
    AppliedKnows(m, w, p, d);
    hide DeltaOf, AtPc, PlanMeans;
    AppliedIsKept(m, w, p, d);
  }

  lemma AppliedIsKept(m: string -> Content, w: World, p: nat, d: Delta)
    requires Inv(m, w) && p in w.procs && Wellformed(w.procs[p])
    requires Careful(p, ViewOf(w, w.procs[p]), d) && GoodView(m(Name(w.procs[p])), Left(ViewOf(w, w.procs[p]), d))
    requires ProcOk(m, Apply(w, p, d), p)
    ensures Inv(m, Apply(w, p, d))
  {
    hide AtPc, PlanMeans;
    var n, w' := Name(w.procs[p]), Apply(w, p, d);
    forall x | x in w'.instances ensures Sound(m, w', x) {
      if x != n { assert Sound(m, w, x); }
    }
    forall x | x in w'.built ensures w'.built[x] <= 1 && (w'.built[x] == 1 ==> Complete(w', x)) {
      if x in w.built { assert w.built[x] <= 1; }
    }
    forall q | q in w'.procs ensures ProcOk(m, w', q) {
      if q != p {
        assert ProcOk(m, w, q);
        OthersKeep(m, w, p, d, q);
      }
    }
  }

  /** Every name of a chain that is being stamped has its record. */
  lemma StampedAreThere(m: string -> Content, w: World, p: nat, j: nat)
    requires Inv(m, w) && p in w.procs && (w.procs[p].pc.TouchLoad? || w.procs[p].pc.TouchSave?)
    requires j < |w.procs[p].plan.chain|
    ensures w.procs[p].plan.chain[j] in w.records
  {
    var proc := w.procs[p];
    assert ProcOk(m, w, p);
    hide Inv, PlanMeans;
    if j < proc.i {
      assert Complete(w, proc.plan.chain[j]);
    } else {
      StampingIsRecorded(p, proc.pc, LayerOf(proc), Below(m, proc), m(Name(proc)), ViewOf(w, proc));
    }
  }

  lemma StampingIsRecorded(p: nat, pc: Pc, layer: Option<Layer>, below: Content, goal: Content, v: View)
    requires AtPc(p, pc, layer, below, goal, v) && (pc.TouchLoad? || pc.TouchSave?)
    ensures v.record
  {
  }

  /** A change of one process's own bookkeeping only. */
  lemma BookkeepingKeeps(m: string -> Content, w: World, w': World, p: nat)
    requires Inv(m, w) && p in w.procs && p in w'.procs
    requires w' == w.(procs := w.procs[p := w'.procs[p]])
    requires ProcOk(m, w', p)
    ensures Inv(m, w')
  {
    hide AtPc, PlanMeans;
    forall x | x in w'.instances ensures Sound(m, w', x) {
      assert Sound(m, w, x);
    }
    forall q | q in w'.procs ensures ProcOk(m, w', q) {
      if q != p {
        assert ProcOk(m, w, q);
        forall k | 0 <= k < w.procs[q].i ensures Complete(w', w.procs[q].plan.chain[k]) {
          assert Complete(w, w.procs[q].plan.chain[k]);
        }
      }
    }
  }

  predicate Stamping(pc: Pc) {
    pc.TouchLoad? || pc.TouchSave? || pc.Done?
  }

  lemma StampingKnows(p: nat, pc: Pc, pc': Pc, layer: Option<Layer>, below: Content, goal: Content, v: View)
    requires Stamping(pc) && Stamping(pc') && AtPc(p, pc, layer, below, goal, v)
    ensures AtPc(p, pc', layer, below, goal, v)
  {
  }

  lemma StampingKeeps(m: string -> Content, w: World, p: nat, pc: Pc)
    requires Inv(m, w) && p in w.procs && Stamping(w.procs[p].pc) && Stamping(pc)
    ensures Inv(m, w.(procs := w.procs[p := w.procs[p].(pc := pc)]))
  {
    hide AtPc, PlanMeans;
    var proc := w.procs[p];
    var w' := w.(procs := w.procs[p := proc.(pc := pc)]);
    assert ProcOk(m, w, p);
    hide Inv;
    StampingKnows(p, proc.pc, pc, LayerOf(proc), Below(m, proc), m(Name(proc)), ViewOf(w, proc));
    forall k | 0 <= k < proc.i ensures Complete(w', proc.plan.chain[k]) {
      assert Complete(w, proc.plan.chain[k]);
    }
    assert ViewOf(w', w'.procs[p]) == ViewOf(w, proc);
    BookkeepingKeeps(m, w, w', p);
  }

  /** A record rewritten by `touchChain` is one that is there. */
  lemma TouchKeeps(m: string -> Content, w: World, p: nat, out: Out)
    requires Inv(m, w) && p in w.procs && (w.procs[p].pc.TouchLoad? || w.procs[p].pc.TouchSave?)
    ensures Inv(m, Touch(w, p, out))
    ensures Touch(w, p, out).records == w.records
  {
    hide Inv;
    var proc := w.procs[p];
    var w' := Touch(w, p, out);
    if proc.pc.TouchSave? && proc.pc.j < |proc.plan.chain| {
      StampedAreThere(m, w, p, proc.pc.j);
      assert w.records + {proc.plan.chain[proc.pc.j]} == w.records;
    }
    StampingKeeps(m, w, p, w'.procs[p].pc);
  }

  /** A process that looks at the same things still is as it should be. */
  lemma SameView(m: string -> Content, w: World, w': World, q: nat)
    requires q in w.procs && q in w'.procs && w'.procs[q] == w.procs[q] && ProcOk(m, w, q)
    requires w'.instances == w.instances && w'.records == w.records
    requires AtPc(q, w.procs[q].pc, LayerOf(w.procs[q]), Below(m, w.procs[q]), m(Name(w.procs[q])), ViewOf(w', w.procs[q]))
    ensures ProcOk(m, w', q)
  {
    hide AtPc, PlanMeans;
    forall k | 0 <= k < w.procs[q].i ensures Complete(w', w.procs[q].plan.chain[k]) {
      assert Complete(w, w.procs[q].plan.chain[k]);
    }
  }

  lemma CrashedView(m: string -> Content, w: World, p: nat, q: nat)
    requires q in w.procs && q != p && ProcOk(m, w, q)
    ensures ProcOk(m, Step(w, Crash(p)), q)
  {
    var w' := Step(w, Crash(p));
    var v, v' := ViewOf(w, w.procs[q]), ViewOf(w', w.procs[q]);
    assert v' == v.(lock := v'.lock) && (v.lock == Some(q) ==> v'.lock == Some(q));
    SameView(m, w, w', q);
  }

  lemma CrashKeeps(m: string -> Content, w: World, p: nat)
    requires Inv(m, w)
    ensures Inv(m, Step(w, Crash(p)))
  {
    hide AtPc, PlanMeans, ProcOk;
    var w' := Step(w, Crash(p));
    forall x | x in w'.instances ensures Sound(m, w', x) {
      assert Sound(m, w, x);
    }
    forall q | q in w'.procs ensures ProcOk(m, w', q) {
      CrashedView(m, w, p, q);
    }
  }

  lemma SpawnKeeps(m: string -> Content, w: World, p: nat, plan: Plan)
    requires Inv(m, w) && PlanMeans(m, plan)
    ensures Inv(m, Step(w, Spawn(p, plan)))
  {
    var w' := Step(w, Spawn(p, plan));
    if w' != w {
      assert ProcOk(m, w', p);
      hide PlanMeans, ProcOk, AtPc;
      forall x | x in w'.instances ensures Sound(m, w', x) {
        assert Sound(m, w, x);
      }
      forall q | q in w'.procs ensures ProcOk(m, w', q) {
        if q != p { SpawnedView(m, w, w', q); }
      }
    }
  }

  lemma SpawnedView(m: string -> Content, w: World, w': World, q: nat)
    requires q in w.procs && q in w'.procs && w'.procs[q] == w.procs[q] && ProcOk(m, w, q)
    requires w' == w.(procs := w'.procs)
    ensures ProcOk(m, w', q)
  {
    hide AtPc, PlanMeans;
    SameView(m, w, w', q);
  }

  /** Actions whose plans mean what `m` says. */
  ghost predicate Meant(m: string -> Content, act: Action) {
    act.Spawn? ==> PlanMeans(m, act.plan)
  }

  lemma StepKeeps(m: string -> Content, w: World, act: Action)
    requires Inv(m, w) && Meant(m, act)
    ensures Inv(m, Step(w, act))
  {
    match act
    case Spawn(p, plan) => SpawnKeeps(m, w, p, plan);
    case Crash(p) => CrashKeeps(m, w, p);
    case Move(p, out) =>
      if p in w.procs {
        if w.procs[p].pc.TouchLoad? || w.procs[p].pc.TouchSave? {
          assert ProcOk(m, w, p);
          TouchKeeps(m, w, p, out);
        } else {
          ApplyKeeps(m, w, p, out);
        }
      }
  }

  lemma {:induction false} RunKeeps(m: string -> Content, w: World, acts: seq<Action>)
    requires Inv(m, w) && forall a :: a in acts ==> Meant(m, a)
    ensures Inv(m, Run(w, acts))
    decreases |acts|
  {
    hide Inv;
    if acts != [] {
      StepKeeps(m, w, acts[0]);
      RunKeeps(m, Step(w, acts[0]), acts[1..]);
    }
  }
}
