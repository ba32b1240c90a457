/**
 The image manager as a single process runs it: building a chain under its locks, and
 pruning. Driver calls and file writes may fail at any point.
 */
module ImageManager {
  import opened Prelude
  import opened ImageNames
  import opened PruneRules
  import opened LayerCache
  import opened LayerCacheInvariant

  type Disk = map<string, Instance>

  predicate IsImage(disk: Disk, metas: Metas, n: string) {
    n in disk && n in metas
  }

  /** Every complete image is stopped and has the content its name stands for. */
  ghost predicate AllRight(m: string -> Content, disk: Disk, metas: Metas) {
    forall n :: IsImage(disk, metas, n) ==> disk[n] == Instance(false, m(n))
  }

  /** A complete image is left exactly as it is, and its record keeps its parent. */
  ghost predicate Kept(disk: Disk, metas: Metas, disk': Disk, metas': Metas) {
    forall n :: IsImage(disk, metas, n) ==>
      IsImage(disk', metas', n) && disk'[n] == disk[n] && metas'[n].parent == metas[n].parent
  }

  /** Each name of a chain that is a complete image records the name below it. */
  ghost predicate Records(chain: seq<string>, disk: Disk, metas: Metas) {
    forall k :: 0 < k < |chain| && IsImage(disk, metas, chain[k]) ==> metas[chain[k]].parent == chain[k - 1]
  }

  /** Nothing but `name` differs. */
  predicate Only(name: string, disk: Disk, metas: Metas, disk': Disk, metas': Metas) {
    disk' - {name} == disk - {name} && metas' - {name} == metas - {name}
  }

  /** Outside a chain the same instances and records are there. */
  ghost predicate Elsewhere(chain: seq<string>, disk: Disk, metas: Metas, disk': Disk, metas': Metas) {
    forall n :: n !in chain ==> (n in disk' <==> n in disk) && (n in metas' <==> n in metas)
  }

  lemma OnlyIsElsewhere(chain: seq<string>, k: nat, disk: Disk, metas: Metas, disk': Disk, metas': Metas)
    requires k < |chain| && Only(chain[k], disk, metas, disk', metas')
    ensures Elsewhere(chain, disk, metas, disk', metas')
  {
    forall n | n !in chain ensures (n in disk' <==> n in disk) && (n in metas' <==> n in metas) {
      OnlyElsewhere(chain[k], disk, metas, disk', metas', n);
    }
  }

  lemma ElsewhereChain(chain: seq<string>, d0: Disk, m0: Metas, d1: Disk, m1: Metas, d2: Disk, m2: Metas)
    requires Elsewhere(chain, d0, m0, d1, m1) && Elsewhere(chain, d1, m1, d2, m2)
    ensures Elsewhere(chain, d0, m0, d2, m2)
  {
  }

  lemma SameKeys(m: string -> Content, chain: seq<string>, disk: Disk, metas: Metas, metas': Metas)
    requires metas'.Keys == metas.Keys && AllRight(m, disk, metas)
    requires forall n :: n in metas' ==> metas'[n].parent == metas[n].parent
    ensures Records(chain, disk, metas) ==> Records(chain, disk, metas')
    ensures Elsewhere(chain, disk, metas, disk, metas') && Kept(disk, metas, disk, metas') && AllRight(m, disk, metas')
    ensures forall n :: IsImage(disk, metas', n) <==> IsImage(disk, metas, n)
  {
    assert forall n :: n in metas' <==> n in metas.Keys;
  }

  lemma KeptChain(d0: Disk, m0: Metas, d1: Disk, m1: Metas, d2: Disk, m2: Metas)
    requires Kept(d0, m0, d1, m1) && Kept(d1, m1, d2, m2)
    ensures Kept(d0, m0, d2, m2)
  {
  }

  lemma KeptImages(disk: Disk, metas: Metas, disk': Disk, metas': Metas, names: seq<string>)
    requires Kept(disk, metas, disk', metas')
    ensures forall k :: 0 <= k < |names| && IsImage(disk, metas, names[k]) ==> IsImage(disk', metas', names[k])
  {
  }

  lemma ImageIsRight(m: string -> Content, disk: Disk, metas: Metas, n: string)
    requires AllRight(m, disk, metas) && IsImage(disk, metas, n)
    ensures disk[n] == Instance(false, m(n))
  {
  }

  /** A build of the chain's `k`th name, recorded on the one below, keeps the chain's records in order. */
  lemma RecordsKept(m: string -> Content, plan: Plan, k: nat, now: int, disk: Disk, metas: Metas, disk': Disk, metas': Metas)
    requires PlanMeans(m, plan) && k < |plan.chain| && Only(plan.chain[k], disk, metas, disk', metas')
    requires IsImage(disk', metas', plan.chain[k]) ==>
               || (disk' == disk && metas' == metas)
               || metas'[plan.chain[k]] == Meta(if k == 0 then "" else plan.chain[k - 1], now)
    ensures Records(plan.chain, disk, metas) ==> Records(plan.chain, disk', metas')
  {
    DepthIsPosition(m, plan, k);
    forall j | 0 < j < |plan.chain| && j != k && IsImage(disk', metas', plan.chain[j])
      ensures IsImage(disk, metas, plan.chain[j]) && metas'[plan.chain[j]] == metas[plan.chain[j]]
    {
      DepthIsPosition(m, plan, j);
      OnlyElsewhere(plan.chain[k], disk, metas, disk', metas', plan.chain[j]);
    }
  }

  /** What has been ensured when names 0 to `i` of a chain are there. */
  ghost predicate Progress(m: string -> Content, chain: seq<string>, i: nat, d0: Disk, m0: Metas, disk: Disk, metas: Metas) {
    && i < |chain| && AllRight(m, disk, metas) && Kept(d0, m0, disk, metas) && Elsewhere(chain, d0, m0, disk, metas)
    && (forall k :: 0 <= k <= i ==> IsImage(disk, metas, chain[k]))
    && (Records(chain, d0, m0) ==> Records(chain, disk, metas))
  }

  lemma ProgressStarts(m: string -> Content, plan: Plan, disk: Disk, metas: Metas)
    requires PlanMeans(m, plan) && AllRight(m, disk, metas) && IsImage(disk, metas, plan.chain[0])
    ensures Progress(m, plan.chain, 0, disk, metas, disk, metas)
  {
  }

  lemma ProgressMeans(m: string -> Content, chain: seq<string>, i: nat, d0: Disk, m0: Metas, disk: Disk, metas: Metas)
    requires Progress(m, chain, i, d0, m0, disk, metas)
    ensures AllRight(m, disk, metas) && Kept(d0, m0, disk, metas) && Elsewhere(chain, d0, m0, disk, metas)
    ensures IsImage(disk, metas, chain[i])
    ensures i == |chain| - 1 ==> forall n :: n in chain ==> IsImage(disk, metas, n)
    ensures Records(chain, d0, m0) ==> Records(chain, disk, metas)
  {
    hide AllRight, Kept, Elsewhere, Records, IsImage;
  }

  lemma ProgressOn(m: string -> Content, plan: Plan, i: nat, now: int, ok: bool, d0: Disk, m0: Metas, i1: Disk, m1: Metas,
                   disk: Disk, metas: Metas)
    requires PlanMeans(m, plan) && i < |plan.layers| && Progress(m, plan.chain, i, d0, m0, i1, m1)
    requires var name := plan.chain[i + 1];
             && AllRight(m, disk, metas) && Kept(i1, m1, disk, metas) && Only(name, i1, m1, disk, metas)
             && (IsImage(i1, m1, name) ==> disk == i1 && metas == m1)
             && (ok && !IsImage(i1, m1, name) ==> name in metas && metas[name] == Meta(plan.chain[i], now))
             && (ok <==> IsImage(disk, metas, name))
    ensures AllRight(m, disk, metas) && Kept(d0, m0, disk, metas) && Elsewhere(plan.chain, d0, m0, disk, metas)
    ensures Records(plan.chain, d0, m0) ==> Records(plan.chain, disk, metas)
    ensures ok ==> Progress(m, plan.chain, i + 1, d0, m0, disk, metas)
  {
    hide AllRight, Kept, Elsewhere, Records, Only;
    OnlyIsElsewhere(plan.chain, i + 1, i1, m1, disk, metas);
    RecordsKept(m, plan, i + 1, now, i1, m1, disk, metas);
    KeptImages(i1, m1, disk, metas, plan.chain[..i + 1]);
    KeptChain(d0, m0, i1, m1, disk, metas);
    ElsewhereChain(plan.chain, d0, m0, i1, m1, disk, metas);
  }

  lemma PlanSteps(m: string -> Content, plan: Plan, i: nat)
    requires PlanMeans(m, plan)
    ensures |plan.chain| == |plan.layers| + 1 && m(plan.chain[0]) == Fresh(plan.chain[0])
    ensures i < |plan.layers| ==> m(plan.chain[i + 1]) == With(m(plan.chain[i]), plan.layers[i])
  {
  }

  lemma OnlyElsewhere(name: string, disk: Disk, metas: Metas, disk': Disk, metas': Metas, n: string)
    requires Only(name, disk, metas, disk', metas') && n != name
    ensures n in disk' <==> n in disk
    ensures n in metas' <==> n in metas
    ensures n in disk ==> disk'[n] == disk[n]
    ensures n in metas ==> metas'[n] == metas[n]
  {
    assert n in metas ==> (metas' - {name})[n] == (metas - {name})[n];
    assert n in disk' - {name} <==> n in disk - {name};
    assert n in metas' - {name} <==> n in metas - {name};
    assert n in disk ==> (disk' - {name})[n] == (disk - {name})[n];
  }

  /** After a build of `name`, finished or not, what was right is right and what was complete is kept. */
  lemma BuildLeavesTheRest(m: string -> Content, name: string, disk: Disk, metas: Metas, disk': Disk, metas': Metas)
    requires AllRight(m, disk, metas) && !IsImage(disk, metas, name)
    requires Only(name, disk, metas, disk', metas')
    requires IsImage(disk', metas', name) ==> disk'[name] == Instance(false, m(name))
    ensures AllRight(m, disk', metas') && Kept(disk, metas, disk', metas')
  {
    forall n | n != name
      ensures n in disk' <==> n in disk
      ensures n in metas' <==> n in metas
      ensures n in disk ==> disk'[n] == disk[n]
      ensures n in metas ==> metas'[n] == metas[n]
    {
      OnlyElsewhere(name, disk, metas, disk', metas', n);
    }
  }

  class Manager {
    var instances: map<string, Instance>
    var metas: Metas
    const keep: nat
    /** What the driver fails to delete for now. */
    var stuck: set<string>
    /** Every other driver call and every file write works, and every RUN succeeds. */
    const healthy: bool

    constructor (instances: map<string, Instance>, metas: Metas, keep: nat, stuck: set<string>, healthy: bool)
      ensures this.instances == instances && this.metas == metas && this.stuck == stuck && this.healthy == healthy
      ensures this.keep == if keep > 0 then keep else 3
    {
      this.stuck := stuck;
      this.healthy := healthy;
      this.instances := instances;
      this.metas := metas;
      this.keep := if keep > 0 then keep else 3;
    }

    /** Whether one call works. */
    method Works() returns (ok: bool)
      ensures healthy ==> ok
    {
      ok := *;
      ok := healthy || ok;
    }

    method SwitchTo(name: string, running: bool) returns (ok: bool)
      modifies this`instances
      ensures ok ==> name in old(instances)
                     && instances == old(instances)[name := old(instances)[name].(running := running)]
      ensures !ok ==> instances == old(instances)
      ensures healthy && name in old(instances) ==> ok
    {
      ok := Works();
      ok := ok && name in instances;
      if ok { instances := instances[name := instances[name].(running := running)]; }
    }

    /** Deleting an instance that is not there succeeds. */
    method Delete(name: string) returns (ok: bool)
      modifies this`instances
      ensures ok ==> instances == old(instances) - {name}
      ensures !ok ==> instances == old(instances)
      ensures ok <==> name !in old(instances) || name !in stuck
    {
      ok := name !in instances || name !in stuck;
      if ok { instances := instances - {name}; }
    }

    method Destroy(name: string) returns (ok: bool)
      modifies this`instances, this`metas
      ensures !Managed(name) ==> !ok && instances == old(instances)
      ensures ok ==> instances == old(instances) - {name} && metas == old(metas) - {name}
      ensures !ok ==> metas == old(metas) && instances.Keys == old(instances).Keys
      ensures !ok && name in old(instances) ==>
                instances[name].content == old(instances)[name].content
                && (instances[name].running ==> old(instances)[name].running)
      ensures instances - {name} == old(instances) - {name}
      ensures ok <==> Managed(name) && (name !in old(instances) || name !in stuck)
      ensures healthy && Managed(name) && !ok ==> !instances[name].running
    {
      if !Managed(name) { return false; }
      var _ := SwitchTo(name, false);
      ok := Delete(name);
      if ok { metas := metas - {name}; }
    }

    method BuildBase(name: string) returns (ok: bool)
      requires Managed(name) && !IsImage(instances, metas, name)
      modifies this`instances, this`metas
      ensures Only(name, old(instances), old(metas), instances, metas) && !IsImage(instances, metas, name)
      ensures ok ==> name in instances && instances[name] == Instance(false, Fresh(name))
      ensures healthy ==> ok
    {
      var _ := Destroy(name);
      ok := Works();
      if !ok {
        var debris: bool := *;
        if debris { instances := instances[name := Instance(true, Unfinished)]; }
        var _ := Destroy(name);
        return;
      }
      instances := instances[name := Instance(true, Fresh(name))];
      ok := SettleBase(name);
    }

    /** A base is booted once more before it is left stopped. */
    method SettleBase(name: string) returns (ok: bool)
      requires Managed(name) && name in instances && name !in metas
      modifies this`instances, this`metas
      ensures Only(name, old(instances), old(metas), instances, metas) && name !in metas
      ensures ok ==> name in instances && instances[name] == Instance(false, old(instances)[name].content)
      ensures healthy ==> ok
    {
      ok := SwitchTo(name, false);
      if ok { ok := SwitchTo(name, true); }
      if ok { ok := SwitchTo(name, false); }
      if !ok { var _ := Destroy(name); }
    }

    /** A parent that is missing or running cannot be cloned. */
    method Clone(parent: string, name: string) returns (ok: bool)
      modifies this`instances
      ensures ok ==> parent in old(instances) && !old(instances)[parent].running
                     && instances == old(instances)[name := Instance(false, old(instances)[parent].content)]
      ensures !ok ==> instances == old(instances) || instances == old(instances)[name := Instance(false, Unfinished)]
      ensures healthy && parent in old(instances) && !old(instances)[parent].running ==> ok
    {
      ok := Works();
      ok := ok && parent in instances && !instances[parent].running;
      if ok {
        instances := instances[name := Instance(false, instances[parent].content)];
      } else {
        var debris: bool := *;
        if debris { instances := instances[name := Instance(false, Unfinished)]; }
      }
    }

    /** The uploads and the RUN; a failed one leaves the disk in between. */
    method ApplyLayer(name: string, l: Layer) returns (ok: bool)
      requires name in instances
      modifies this`instances
      ensures instances == old(instances)[name := old(instances)[name].(content :=
                if ok then With(old(instances)[name].content, l) else Unfinished)]
      ensures healthy ==> ok
    {
      ok := Works();
      instances := instances[name := instances[name].(content :=
        if ok then With(instances[name].content, l) else Unfinished)];
    }

    method BuildLayer(parent: string, name: string, l: Layer) returns (ok: bool)
      requires Managed(name) && !IsImage(instances, metas, name) && parent != name
      modifies this`instances, this`metas
      ensures Only(name, old(instances), old(metas), instances, metas) && !IsImage(instances, metas, name)
      ensures ok ==> parent in old(instances) && name in instances
                     && instances[name] == Instance(false, With(old(instances)[parent].content, l))
      ensures healthy && parent in old(instances) && !old(instances)[parent].running ==> ok
    {
      var _ := Destroy(name);
      OnlyElsewhere(name, old(instances), old(metas), instances, metas, parent);
      ok := Clone(parent, name);
      if !ok { return; }
      ok := Provision(name, l);
    }

    /** Boots the clone, applies the layer and stops it again. */
    method Provision(name: string, l: Layer) returns (ok: bool)
      requires Managed(name) && name in instances && name !in metas
      modifies this`instances, this`metas
      ensures Only(name, old(instances), old(metas), instances, metas) && name !in metas
      ensures ok ==> name in instances && instances[name] == Instance(false, With(old(instances)[name].content, l))
      ensures healthy ==> ok
    {
      ok := SwitchTo(name, true);
      if !ok { var _ := Destroy(name); return; }
      ok := ApplyLayer(name, l);
      if !ok { var _ := Destroy(name); return; }
      ok := SwitchTo(name, false);
    }

    method Save(name: string, meta: Meta) returns (ok: bool)
      modifies this`metas
      ensures metas == if ok then old(metas)[name := meta] else old(metas)
      ensures healthy ==> ok
    {
      ok := Works();
      if ok { metas := metas[name := meta]; }
    }

    method EnsureBase(ghost m: string -> Content, name: string, now: int) returns (ok: bool)
      requires AllRight(m, instances, metas) && Managed(name) && m(name) == Fresh(name)
      modifies this`instances, this`metas
      ensures AllRight(m, instances, metas) && Kept(old(instances), old(metas), instances, metas)
      ensures ok ==> IsImage(instances, metas, name)
      ensures Only(name, old(instances), old(metas), instances, metas)
      ensures IsImage(old(instances), old(metas), name) ==> ok && instances == old(instances) && metas == old(metas)
      ensures ok && !IsImage(old(instances), old(metas), name) ==> metas[name] == Meta("", now)
      ensures !ok ==> !IsImage(instances, metas, name)
      ensures healthy ==> ok
    {
      if IsImage(instances, metas, name) { return true; }
      // the lock
      ok := Works();
      if !ok { return; }
      if IsImage(instances, metas, name) { return true; }
      ok := BuildBase(name);
      if ok { ok := Save(name, Meta("", now)); }
      BuildLeavesTheRest(m, name, old(instances), old(metas), instances, metas);
    }

    method EnsureLayer(ghost m: string -> Content, parent: string, name: string, l: Layer, now: int) returns (ok: bool)
      requires AllRight(m, instances, metas) && Managed(name) && IsImage(instances, metas, parent)
      requires m(name) == With(m(parent), l)
      modifies this`instances, this`metas
      ensures AllRight(m, instances, metas) && Kept(old(instances), old(metas), instances, metas)
      ensures ok ==> IsImage(instances, metas, name)
      ensures Only(name, old(instances), old(metas), instances, metas)
      ensures IsImage(old(instances), old(metas), name) ==> ok && instances == old(instances) && metas == old(metas)
      ensures ok && !IsImage(old(instances), old(metas), name) ==> metas[name] == Meta(parent, now)
      ensures !ok ==> !IsImage(instances, metas, name)
      ensures healthy ==> ok
    {
      if IsImage(instances, metas, name) { return true; }
      ok := Works();
      if !ok { return; }
      if IsImage(instances, metas, name) { return true; }
      ok := BuildLayer(parent, name, l);
      if ok { ok := Save(name, Meta(parent, now)); }
      BuildLeavesTheRest(m, name, old(instances), old(metas), instances, metas);
    }

    /**
     `Ensure`: base first, then each layer on the one below. It keeps every complete
     image as it is, and on success every name of the plan is one of them.
     */
    method Ensure(ghost m: string -> Content, plan: Plan, now: int) returns (ok: bool)
      requires AllRight(m, instances, metas) && PlanMeans(m, plan) && forall n :: n in plan.chain ==> Managed(n)
      modifies this`instances, this`metas
      ensures AllRight(m, instances, metas) && Kept(old(instances), old(metas), instances, metas)
      ensures ok ==> forall n :: n in plan.chain ==> IsImage(instances, metas, n)
      ensures ok ==> var image := plan.chain[|plan.layers|];
                     image in instances && instances[image] == Instance(false, m(image))
      ensures Records(plan.chain, old(instances), old(metas)) ==> Records(plan.chain, instances, metas)
      ensures healthy ==> ok && forall n :: n in plan.chain[1..] ==> n in metas && metas[n].lastUsed == now
      ensures Elsewhere(plan.chain, old(instances), old(metas), instances, metas)
    {
      hide Only, Elsewhere, AllRight, Kept, Records, PlanMeans, IsLayer, IsBase, Legacy, Managed;
      PlanSteps(m, plan, 0);
      ok := EnsureBase(m, plan.chain[0], now);
      OnlyIsElsewhere(plan.chain, 0, old(instances), old(metas), instances, metas);
      RecordsKept(m, plan, 0, now, old(instances), old(metas), instances, metas);
      if !ok { return; }
      ghost var i1, m1 := instances, metas;
      ok := EnsureLayers(m, plan, now);
      KeptChain(old(instances), old(metas), i1, m1, instances, metas);
      ElsewhereChain(plan.chain, old(instances), old(metas), i1, m1, instances, metas);
      if !ok { return; }
      ghost var i2, m2 := instances, metas;
      TouchChain(plan, now);
      SameKeys(m, plan.chain, i2, m2, metas);
      KeptChain(old(instances), old(metas), i2, m2, instances, metas);
      ElsewhereChain(plan.chain, old(instances), old(metas), i2, m2, instances, metas);
      ImageIsRight(m, instances, metas, plan.chain[|plan.layers|]);
    }

    /** Each layer on the one below, which is finished by then. */
    method EnsureLayers(ghost m: string -> Content, plan: Plan, now: int) returns (ok: bool)
      requires AllRight(m, instances, metas) && PlanMeans(m, plan) && forall n :: n in plan.chain ==> Managed(n)
      requires IsImage(instances, metas, plan.chain[0])
      modifies this`instances, this`metas
      ensures AllRight(m, instances, metas) && Kept(old(instances), old(metas), instances, metas)
      ensures ok ==> forall n :: n in plan.chain ==> IsImage(instances, metas, n)
      ensures Records(plan.chain, old(instances), old(metas)) ==> Records(plan.chain, instances, metas)
      ensures healthy ==> ok
      ensures Elsewhere(plan.chain, old(instances), old(metas), instances, metas)
    {
      PlanSteps(m, plan, 0);
      hide *;
      ghost var d0, m0 := instances, metas;
      ProgressStarts(m, plan, d0, m0);
      ok := true;
      for i := 0 to |plan.layers|
        invariant ok && Progress(m, plan.chain, i, d0, m0, instances, metas)
      {
        ghost var i1, m1 := instances, metas;
        PlanSteps(m, plan, i);
        ProgressMeans(m, plan.chain, i, d0, m0, i1, m1);
        ok := EnsureLayer(m, plan.chain[i], plan.chain[i + 1], plan.layers[i], now);
        ProgressOn(m, plan, i, now, ok, d0, m0, i1, m1, instances, metas);
        if !ok { return; }
      }
      ProgressMeans(m, plan.chain, |plan.layers|, d0, m0, instances, metas);
    }

    /** Stamps the records of the layers that have one. */
    method TouchChain(plan: Plan, now: int)
      requires |plan.chain| > 0
      modifies this`metas
      ensures metas.Keys == old(metas).Keys
      ensures forall n :: n in metas ==> metas[n].parent == old(metas)[n].parent
      ensures forall n :: n in metas && n !in plan.chain[1..] ==> metas[n] == old(metas)[n]
      ensures healthy ==> forall n :: n in metas && n in plan.chain[1..] ==> metas[n].lastUsed == now
    {
      for i := 1 to |plan.chain|
        invariant metas.Keys == old(metas).Keys
        invariant forall n :: n in metas ==> metas[n].parent == old(metas)[n].parent
        invariant forall n :: n in metas && n !in plan.chain[1..] ==> metas[n] == old(metas)[n]
        invariant healthy ==> forall n :: n in metas && n in plan.chain[1..i] ==> metas[n].lastUsed == now
      {
        var name := plan.chain[i];
        assert plan.chain[1..][i - 1] == name;
        assert plan.chain[1..i + 1] == plan.chain[1..i] + [name];
        if name in metas {
          var _ := Save(name, metas[name].(lastUsed := now));
        }
      }
      assert plan.chain[1..|plan.chain|] == plan.chain[1..];
    }

    /** The driver's listing; it may fail. */
    method List() returns (r: Option<seq<string>>)
      ensures r.Some? ==> Elems(r.value) == instances.Keys
      ensures healthy ==> r.Some?
    {
      var ok := Works();
      if !ok { return None; }
      var names := [];
      var todo := instances.Keys;
      while todo != {}
        invariant Elems(names) + todo == instances.Keys
        decreases |todo|
      {
        var n :| n in todo;
        assert Elems(names + [n]) == Elems(names) + {n};
        todo := todo - {n};
        names := names + [n];
      }
      r := Some(names);
    }

    /**
     `Prune`. What goes was neither running nor protected nor unmanaged, and not in the
     keep-set the rules give; what stays is unchanged, its record included.
     */
    method Prune(protect: seq<string>)
      returns (pruned: Option<seq<string>>, ghost layers: seq<string>, ghost bases: seq<string>)
      modifies this`instances, this`metas
      ensures pruned.None? ==> instances == old(instances) && metas == old(metas)
      ensures healthy ==> pruned.Some?
      ensures pruned.Some? ==>
                && (forall n :: n in layers <==> n in old(instances) && IsLayer(n))
                && (forall n :: n in bases <==> n in old(instances) && IsBase(n))
      ensures pruned.Some? ==>
                var first := Elems(protect) + (set n | n in old(instances) && old(instances)[n].running);
                var kept := KeepSet(old(metas), first, layers, bases, keep);
                && first <= kept
                && (forall n :: n in pruned.value <==>
                      n in old(instances) && n !in kept && n !in stuck && (IsLayer(n) || IsBase(n) || Legacy(n)))
                && (forall n :: n in instances <==> n in old(instances) && n !in pruned.value)
      ensures forall n :: n in instances ==> n in old(instances) && instances[n] == old(instances)[n]
      ensures forall n :: n in instances ==>
                (n in metas <==> n in old(metas)) && (n in metas ==> metas[n] == old(metas)[n])
      ensures forall n :: n in metas && pruned.Some? ==> n in instances
    {
      layers, bases := [], [];
      var listed := List();
      if listed.None? { return None, [], []; }
      var names := listed.value;
      var first, ls, bs, legacy := Classify(names, protect);
      layers, bases := ls, bs;
      var kept := Keeping(first, ls, bs);
      hide KeepSet;
      KeepsFirst(metas, first, ls, bs, keep);
      var gone := Sweep(ls + bs + legacy, kept);
      DropStaleRecords(Elems(names));
      pruned := Some(gone);
    }

    /** What is kept first, and the listed names by kind. */
    method Classify(names: seq<string>, protect: seq<string>)
      returns (first: set<string>, layers: seq<string>, bases: seq<string>, legacy: seq<string>)
      requires Elems(names) == instances.Keys
      ensures first == Elems(protect) + (set n | n in instances && instances[n].running)
      ensures forall n :: n in layers <==> n in instances && IsLayer(n)
      ensures forall n :: n in bases <==> n in instances && IsBase(n)
      ensures forall n :: n in legacy <==> n in instances && Legacy(n) && !IsLayer(n) && !IsBase(n)
    {
      hide Legacy, IsLayer, IsBase;
      first := Elems(protect);
      layers, bases, legacy := [], [], [];
      forall n ensures n in names <==> n in instances { assert n in Elems(names) <==> n in instances.Keys; }
      for i := 0 to |names|
        invariant first == Elems(protect) + (set n | n in names[..i] && n in instances && instances[n].running)
        invariant forall n :: n in layers <==> n in names[..i] && IsLayer(n)
        invariant forall n :: n in bases <==> n in names[..i] && IsBase(n)
        invariant forall n :: n in legacy <==> n in names[..i] && Legacy(n) && !IsLayer(n) && !IsBase(n)
      {
        var n := names[i];
        assert names[..i + 1] == names[..i] + [n];
        if instances[n].running { first := first + {n}; }
        LayersAreNotBases(n);
        if IsLayer(n) {
          layers := layers + [n];
        } else if IsBase(n) {
          bases := bases + [n];
        } else if Legacy(n) {
          legacy := legacy + [n];
        }
      }
      assert names[..|names|] == names;
    }

    /** The walks that fill the keep-set: heads with their ancestors, then the newest bases. */
    method Keeping(first: set<string>, layers: seq<string>, bases: seq<string>) returns (kept: set<string>)
      ensures kept == KeepSet(metas, first, layers, bases, keep)
    {
      var ranked := Top(RankedHeads(layers, metas), keep);
      kept := first;
      for i := 0 to |ranked|
        invariant WalkAll(metas, kept, ranked[i..]) == WalkAll(metas, first, ranked)
      {
        assert ranked[i..][1..] == ranked[i + 1..];
        kept := WalkUp(kept, ranked[i]);
      }
      var newest := NewestBases(bases, keep);
      kept := kept + Elems(newest);
    }

    /** From a head up through its ancestors, a parent record at a time. */
    method WalkUp(first: set<string>, head: string) returns (kept: set<string>)
      ensures kept == Walk(metas, first, head)
    {
      kept := first;
      var name := head;
      while name != "" && name !in kept
        invariant Walk(metas, kept, name) == Walk(metas, first, head)
        decreases |metas.Keys - kept|, if name == "" then 0 else 1
      {
        assert name in metas ==> name in metas.Keys - kept;
        assert metas.Keys - (kept + {name}) == (metas.Keys - kept) - {name};
        kept := kept + {name};
        name := Parent(metas, name);
      }
    }

    /** Destroys what is not kept; a Destroy that fails leaves its image. */
    method Sweep(names: seq<string>, kept: set<string>) returns (gone: seq<string>)
      requires forall n :: n in names ==> Managed(n) && n in instances && (n !in kept ==> !instances[n].running)
      modifies this`instances, this`metas
      ensures forall n :: n in instances ==> n in old(instances) && instances[n] == old(instances)[n]
      ensures forall n :: n in gone <==> n in old(instances) && n !in instances
      ensures forall n :: n in gone <==> n in names && n !in kept && n !in stuck
      ensures forall n :: n in gone ==> n !in metas
      ensures forall n :: n in metas ==> n in old(metas) && metas[n] == old(metas)[n]
      ensures forall n :: n in old(metas) && n !in metas ==> n in names && n !in instances
    {
      gone := [];
      for i := 0 to |names|
        invariant forall n :: n in instances ==> n in old(instances) && instances[n] == old(instances)[n]
        invariant forall n :: n in gone <==> n in old(instances) && n !in instances
        invariant forall n :: n in gone <==> n in names[..i] && n !in kept && n !in stuck
        invariant forall n :: n in gone ==> n !in metas
        invariant forall n :: n in metas ==> n in old(metas) && metas[n] == old(metas)[n]
        invariant forall n :: n in old(metas) && n !in metas ==> n in names && n !in instances
      {
        var name := names[i];
        assert names[..i + 1] == names[..i] + [name];
        if name !in kept {
          ghost var before := instances;
          var ok := Destroy(name);
          forall n | n != name ensures n in instances <==> n in before
            ensures n in instances ==> instances[n] == before[n]
          {
            assert n in instances - {name} <==> n in before - {name};
            assert n in instances ==> (instances - {name})[n] == (before - {name})[n];
          }
          if ok { gone := gone + [name]; }
        }
      }
      assert names[..|names|] == names;
    }

    /** Records of instances the listing did not show go. */
    method DropStaleRecords(listed: set<string>)
      modifies this`metas
      ensures metas == map n | n in old(metas) && n in listed :: old(metas)[n]
    {
      var todo := metas.Keys;
      while todo != {}
        invariant todo <= old(metas).Keys
        invariant metas.Keys == set n | n in old(metas) && (n in todo || n in listed)
        invariant forall n :: n in metas ==> metas[n] == old(metas)[n]
        decreases |todo|
      {
        var n :| n in todo;
        todo := todo - {n};
        if n !in listed { metas := metas - {n}; }
      }
    }
  }

  lemma KeepsFirst(metas: Metas, first: set<string>, layers: seq<string>, bases: seq<string>, k: nat)
    ensures first <= KeepSet(metas, first, layers, bases, k)
  {
    WalkAllCloses(metas, first, first, Top(RankedHeads(layers, metas), k));
  }

  lemma LayersAreNotBases(n: string)
    ensures !(IsLayer(n) && IsBase(n))
  {
    if IsLayer(n) { assert n[6] == LAYER_PREFIX[6] == 'l'; }
    if IsBase(n) { assert n[6] == BASE_PREFIX[6] == 'b'; }
  }

  // ------------------------------------------------------- ensuring and pruning

  /** A chain whose names are all complete, and recorded as built one on the other. */
  lemma RecordedIsLinked(chain: seq<string>, disk: Disk, metas: Metas)
    requires Records(chain, disk, metas) && forall n :: n in chain ==> IsImage(disk, metas, n) && n != ""
    ensures Linked(metas, chain)
  {
    forall j, k | 0 <= j && j + 1 == k < |chain|
      ensures chain[k] in metas && metas[chain[k]].parent == chain[j] && chain[j] != ""
    {
      assert chain[k] in chain && chain[j] in chain;
      assert IsImage(disk, metas, chain[k]);
    }
  }

  /** A keep-set closed by the rules that has a chain's image has the whole chain. */
  lemma KeptImageKeepsItsChain(metas: Metas, first: set<string>, layers: seq<string>, bases: seq<string>, k: nat, chain: seq<string>)
    requires Linked(metas, chain) && chain != []
    requires forall b :: b in bases ==> Parent(metas, b) == ""
    requires forall n :: n in first ==> ParentIsSafe(metas, first, layers, bases, k, n)
    requires chain[|chain| - 1] in KeepSet(metas, first, layers, bases, k)
    ensures forall n :: n in chain ==> n in KeepSet(metas, first, layers, bases, k)
  {
    KeepSetClosedExactly(metas, first, layers, bases, k);
    hide KeepSet, ParentIsSafe, Linked;
    forall i | 0 <= i < |chain| ensures chain[i] in KeepSet(metas, first, layers, bases, k) {
      LinkedIsKept(metas, KeepSet(metas, first, layers, bases, k), chain, i);
    }
  }

  /**
   Ensuring and then pruning. If complete images of the plan recorded the names below them
   before, a prune that keeps the plan's image keeps its whole chain, unless something
   running or protected has a parent that the rules let go. `mid` are the records in
   between, `first` what was running or protected.
   */
  method EnsureThenPrune(mgr: Manager, ghost m: string -> Content, plan: Plan, now: int, protect: seq<string>)
    returns (ok: bool, pruned: Option<seq<string>>, ghost mid: Metas, ghost first: set<string>,
             ghost layers: seq<string>, ghost bases: seq<string>)
    requires AllRight(m, mgr.instances, mgr.metas) && PlanMeans(m, plan)
    requires forall n :: n in plan.chain ==> Managed(n)
    modifies mgr`instances, mgr`metas
    ensures mgr.healthy ==> ok && pruned.Some?
    ensures ok && pruned.Some? && Records(plan.chain, old(mgr.instances), old(mgr.metas))
            && plan.chain[|plan.layers|] in KeepSet(mid, first, layers, bases, mgr.keep)
            && (forall b :: b in bases ==> Parent(mid, b) == "")
            && (forall n :: n in first ==> ParentIsSafe(mid, first, layers, bases, mgr.keep, n)) ==>
              forall n :: n in plan.chain ==> IsImage(mgr.instances, mgr.metas, n) && mgr.instances[n] == Instance(false, m(n))
  {
    hide PlanMeans, KeepSet, ParentIsSafe, Records, Elsewhere, Kept, Managed, Legacy, IsLayer, IsBase;
    PlanSteps(m, plan, 0);
    ok := mgr.Ensure(m, plan, now);
    ghost var disk := mgr.instances;
    mid := mgr.metas;
    first := Elems(protect) + (set n | n in disk && disk[n].running);
    pruned, layers, bases := None, [], [];
    if !ok { return; }
    pruned, layers, bases := mgr.Prune(protect);
    if Records(plan.chain, disk, mid) && plan.chain[|plan.layers|] in KeepSet(mid, first, layers, bases, mgr.keep)
       && (forall b :: b in bases ==> Parent(mid, b) == "")
       && (forall n :: n in first ==> ParentIsSafe(mid, first, layers, bases, mgr.keep, n))
    {
      NamesAreNotEmpty(plan.chain);
      RecordedIsLinked(plan.chain, disk, mid);
      KeptImageKeepsItsChain(mid, first, layers, bases, mgr.keep, plan.chain);
    }
  }

  lemma NamesAreNotEmpty(chain: seq<string>)
    requires forall n :: n in chain ==> Managed(n)
    ensures forall n :: n in chain ==> n != ""
  {
    forall n | n in chain ensures n != "" {
      assert Managed(n);
      if Legacy(n) {
        var p :| p in LEGACY_PREFIXES && StartsWith(n, p);
        assert |p| > 0;
      }
    }
  }

  /**
   Being just used is not enough to be kept: only heads are ranked. Here `a` was used last
   of all, but `b`, long unused, is built on it, and another head is newer than `b`.
   */
  lemma JustUsedImageMayGo(base: string, a: string, b: string, c: string)
    requires IsBase(base) && IsLayer(a) && IsLayer(b) && IsLayer(c) && a != b && b != c && a != c
    ensures var metas := map[base := Meta("", 1), a := Meta(base, 9), b := Meta(a, 1), c := Meta(base, 5)];
            a !in KeepSet(metas, {}, [a, b, c], [base], 1)
  {
    var metas := map[base := Meta("", 1), a := Meta(base, 9), b := Meta(a, 1), c := Meta(base, 5)];
    LayersAreNotBases(base);
    assert base != a && base != b && base != c && base != "" && a != "" && b != "" && c != "";
    assert Parent(metas, base) == "" && Parent(metas, a) == base && Parent(metas, b) == a && Parent(metas, c) == base;
    assert LastUsed(metas, b) < LastUsed(metas, c);
    TwoHeads(metas, a, b, c);
    OnlyTheNewer(metas, [a, b, c], b, c);
    WalkOfTwo(metas, c, base);
    BasesAre([base], 1);
    hide RankedHeads, NewestBases, Top, WalkAll, Parent, LastUsed;
    assert a !in Elems([base]);
  }

  lemma TwoHeads(metas: Metas, a: string, b: string, c: string)
    requires Parent(metas, b) == a && Parent(metas, a) !in {a, b, c} && Parent(metas, c) !in {a, b, c}
    requires a != b && b != c && a != c && a != "" && b != "" && c != ""
    ensures var ranked := RankedHeads([a, b, c], metas);
            a !in ranked && b in ranked && c in ranked
  {
    var layers := [a, b, c];
    assert layers[0] == a && layers[1] == b && layers[2] == c;
    HeadsExactly(layers, metas, a);
    HeadsExactly(layers, metas, b);
    HeadsExactly(layers, metas, c);
  }

  lemma WalkOfTwo(metas: Metas, c: string, base: string)
    requires c != "" && base != "" && c != base && Parent(metas, c) == base && Parent(metas, base) == ""
    ensures WalkAll(metas, {}, [c]) == {c, base}
  {
    WalkUnfolds(metas, {}, c);
    WalkUnfolds(metas, {} + {c}, base);
    NoWalkFrom(metas, {} + {c} + {base}, "");
    hide Walk, Parent;
    assert [c][1..] == [];
    assert WalkAll(metas, {}, [c]) == WalkAll(metas, Walk(metas, {}, c), []);
  }

  /** Of two heads, with room for one, the newer is kept. */
  lemma OnlyTheNewer(metas: Metas, layers: seq<string>, b: string, c: string)
    requires b in RankedHeads(layers, metas) && c in RankedHeads(layers, metas) && LastUsed(metas, b) < LastUsed(metas, c)
    requires forall l :: l in layers ==> l == b || l == c || l !in RankedHeads(layers, metas)
    ensures Top(RankedHeads(layers, metas), 1) == [c]
  {
    var ranked := RankedHeads(layers, metas);
    SortKeeps((x, y) => Newer(metas, x, y), Heads(layers, layers, metas));
    HeadsAre(layers, layers, metas, ranked[0]);
    var top := Top(ranked, 1);
    assert top == [ranked[0]];
    hide RankedHeads, Top;
    if ranked[0] == b {
      KeptHeadsAreTheNewest(metas, layers, 1, b, c);
      assert false;
    }
  }
}
