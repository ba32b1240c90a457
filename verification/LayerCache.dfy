/**
 The layer cache under concurrency: any number of processes run `Ensure` on
 overlapping chains, each driver call and each file access is a step of its own, any
 driver call and any write or removal of a record may fail, and a process may die between
 any two steps.
 */
module LayerCache {
  import opened Prelude
  import opened ImageNames

  /** What is on an image's disk; a build in progress, or abandoned, is `Unfinished`. */
  datatype Content = Fresh(base: string) | With(below: Content, layer: Layer) | Unfinished

  datatype Instance = Instance(running: bool, content: Content)

  datatype Plan = Plan(chain: seq<string>, layers: seq<Layer>)

  /** Where a process stands with the name it is at. */
  datatype Pc =
    | Exists1 | Load1 | Acquire | Exists2 | Load2
    | WipeStop | WipeDelete | WipeRecord | Make
    | Settle1 | Settle2 | Settle3
    | Copying | Boot | Begin | Applying(below: Content) | Halt
    | Save | Unlock
    | CleanStop | CleanDelete | CleanRecord | Abort
    | TouchLoad(j: nat) | TouchSave(j: nat) | Done | Failed

  datatype Proc = Proc(plan: Plan, i: nat, pc: Pc)

  /** How a driver call or a file write turns out; `Mess` fails and leaves debris. */
  datatype Out = Good | Bad | Mess

  /**
   `built` counts, per name, the builds that saved a completion record. `unlinks` says that
   removing a record never fails.
   */
  datatype World = World(
    instances: map<string, Instance>, records: set<string>, locks: map<string, nat>,
    procs: map<nat, Proc>, built: map<string, nat>, unlinks: bool)

  datatype Action = Spawn(p: nat, plan: Plan) | Move(p: nat, out: Out) | Crash(p: nat)

  // ------------------------------------------------------- one process, one name

  /** All a step of a process looks at: its name's instance, record and lock, and the parent's instance. */
  datatype View = View(inst: Option<Instance>, record: bool, lock: Option<nat>, parent: Option<Instance>, unlinks: bool)

  /** What a step leaves of its name, and where the process goes: on to the next name, or to `pc`. */
  datatype Delta = Delta(inst: Option<Instance>, record: bool, lock: Option<nat>, next: bool, pc: Pc, saved: bool)

  function To(v: View, pc: Pc): Delta {
    Delta(v.inst, v.record, v.lock, false, pc, false)
  }

  function NextName(v: View, lock: Option<nat>): Delta {
    Delta(v.inst, v.record, lock, true, Exists1, false)
  }

  function Running(inst: Option<Instance>, running: bool): Option<Instance> {
    match inst
    case None => None
    case Some(i) => Some(i.(running := running))
  }

  /** Start or Stop: it has its effect, or fails without one. */
  function Switch(v: View, running: bool, ok: Pc, bad: Pc, out: Out): Delta {
    if out.Good? && v.inst.Some? then To(v, ok).(inst := Running(v.inst, running)) else To(v, bad)
  }

  /** Removing a record; the code does not look whether that worked. */
  predicate RecordAfterUnlink(v: View, out: Out) {
    v.record && !v.unlinks && !out.Good?
  }

  /**
   `once` looks without the lock, takes it, looks again and builds; `layer` is what this
   name adds to its parent, absent for the base.
   */
  function Advance(p: nat, pc: Pc, name: string, layer: Option<Layer>, v: View, out: Out): Delta {
    match pc
    case Exists1 => To(v, if v.inst.Some? then Load1 else Acquire)
    case Load1 => if v.record then NextName(v, v.lock) else To(v, Acquire)
    case Acquire => if v.lock.Some? then To(v, Acquire) else To(v, Exists2).(lock := Some(p))
    case Exists2 => To(v, if v.inst.Some? then Load2 else WipeStop)
    case Load2 => if v.record then NextName(v, None) else To(v, WipeStop)
    case WipeStop => Switch(v, false, WipeDelete, WipeDelete, out)
    case WipeDelete =>
      // deleting what is not there succeeds, and a failed Destroy is ignored
      if out.Good? || v.inst.None? then To(v, WipeRecord).(inst := None) else To(v, Make)
    case WipeRecord => To(v, Make).(record := RecordAfterUnlink(v, out))
    case Make => if layer.None? then CreateBase(v, name, out) else CloneParent(v, out)
    case Settle1 => Switch(v, false, Settle2, CleanStop, out)
    case Settle2 => Switch(v, true, Settle3, CleanStop, out)
    case Settle3 => Switch(v, false, Save, CleanStop, out)
    case Copying =>
      if out.Good? && v.parent.Some? && v.inst.Some? then
        To(v, Boot).(inst := Some(v.inst.value.(content := v.parent.value.content)))
      else To(v, Abort)
    case Boot => Switch(v, true, Begin, CleanStop, out)
    case Begin =>
      if v.inst.None? then To(v, CleanStop)
      else To(v, Applying(v.inst.value.content)).(inst := Some(v.inst.value.(content := Unfinished)))
    case Applying(below) =>
      if out.Good? && v.inst.Some? && layer.Some? then
        To(v, Halt).(inst := Some(v.inst.value.(content := With(below, layer.value))))
      else To(v, CleanStop)
    case Halt => Switch(v, false, Save, Abort, out)
    case Save => if out.Good? then To(v, Unlock).(record := true, saved := true) else To(v, Abort)
    case Unlock => NextName(v, None)
    case CleanStop => Switch(v, false, CleanDelete, CleanDelete, out)
    case CleanDelete => if out.Good? then To(v, CleanRecord).(inst := None) else To(v, Abort)
    case CleanRecord => To(v, Abort).(record := RecordAfterUnlink(v, out))
    case Abort => To(v, Failed).(lock := None)
    case _ => To(v, pc)
  }

  /** Provisioning a base boots it; one that fails may leave an instance behind. */
  function CreateBase(v: View, name: string, out: Out): Delta {
    match out
    case Good => To(v, Settle1).(inst := Some(Instance(true, Fresh(name))))
    case Bad => To(v, CleanStop)
    case Mess => To(v, CleanStop).(inst := Some(Instance(true, Unfinished)))
  }

  /** The clone appears the moment the copying starts, and only a stopped parent is cloned. */
  function CloneParent(v: View, out: Out): Delta {
    if out.Bad? || v.parent.None? || v.parent.value.running then To(v, Abort)
    else To(v, if out.Good? then Copying else Abort).(inst := Some(Instance(false, Unfinished)))
  }

  // ------------------------------------------------------------- all of them

  predicate Wellformed(proc: Proc) {
    |proc.plan.chain| == |proc.plan.layers| + 1 && proc.i < |proc.plan.chain|
  }

  function Name(proc: Proc): string
    requires Wellformed(proc)
  {
    proc.plan.chain[proc.i]
  }

  function LayerOf(proc: Proc): Option<Layer>
    requires Wellformed(proc)
  {
    if proc.i == 0 then None else Some(proc.plan.layers[proc.i - 1])
  }

  function Find<V>(m: map<string, V>, n: string): Option<V> {
    if n in m then Some(m[n]) else None
  }

  function Put<V>(m: map<string, V>, n: string, v: Option<V>): map<string, V> {
    match v
    case None => m - {n}
    case Some(x) => m[n := x]
  }

  function ViewOf(w: World, proc: Proc): View
    requires Wellformed(proc)
  {
    var n := Name(proc);
    View(Find(w.instances, n), n in w.records, Find(w.locks, n),
         if proc.i == 0 then None else Find(w.instances, proc.plan.chain[proc.i - 1]), w.unlinks)
  }

  function Built(w: World, n: string): nat {
    if n in w.built then w.built[n] else 0
  }

  /** On to the next name of the chain, or to stamping the whole chain as used. */
  function Moved(proc: Proc, d: Delta): Proc
    requires Wellformed(proc)
  {
    if !d.next then proc.(pc := d.pc)
    else if proc.i < |proc.plan.layers| then proc.(i := proc.i + 1, pc := Exists1)
    else proc.(pc := TouchLoad(1))
  }

  function Apply(w: World, p: nat, d: Delta): World
    requires p in w.procs && Wellformed(w.procs[p])
  {
    var n := Name(w.procs[p]);
    World(
      Put(w.instances, n, d.inst), if d.record then w.records + {n} else w.records - {n}, Put(w.locks, n, d.lock),
      w.procs[p := Moved(w.procs[p], d)], if d.saved then w.built[n := Built(w, n) + 1] else w.built, w.unlinks)
  }

  /** `touchChain`: read a layer's record, and write it back stamped. */
  function Touch(w: World, p: nat, out: Out): World
    requires p in w.procs
  {
    var proc := w.procs[p];
    match proc.pc
    case TouchLoad(j) =>
      var pc := if j >= |proc.plan.chain| then Done
                else if proc.plan.chain[j] in w.records then TouchSave(j) else TouchLoad(j + 1);
      w.(procs := w.procs[p := proc.(pc := pc)])
    case TouchSave(j) =>
      var w' := w.(procs := w.procs[p := proc.(pc := TouchLoad(j + 1))]);
      if j < |proc.plan.chain| && out.Good? then w'.(records := w.records + {proc.plan.chain[j]}) else w'
    case _ => w
  }

  /** The kernel frees a process's locks when it dies; all else stays as it was. */
  function Step(w: World, act: Action): World {
    match act
    case Spawn(p, plan) =>
      if p in w.procs || |plan.chain| != |plan.layers| + 1 then w
      else w.(procs := w.procs[p := Proc(plan, 0, Exists1)])
    case Move(p, out) =>
      if p !in w.procs || !Wellformed(w.procs[p]) then w
      else
        var proc := w.procs[p];
        if proc.pc.TouchLoad? || proc.pc.TouchSave? then Touch(w, p, out)
        else Apply(w, p, Advance(p, proc.pc, Name(proc), LayerOf(proc), ViewOf(w, proc), out))
    case Crash(p) =>
      w.(procs := w.procs - {p}, locks := map n | n in w.locks && w.locks[n] != p :: w.locks[n])
  }

  function Run(w: World, acts: seq<Action>): World
    decreases |acts|
  {
    if acts == [] then w else Run(Step(w, acts[0]), acts[1..])
  }
}
