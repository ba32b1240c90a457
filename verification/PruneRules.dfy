/**
 Which images `Prune` keeps: the newest chain heads with all their recorded ancestors,
 the newest bases, and whatever runs or is protected.
 */
module PruneRules {
  import opened ImageNames

  datatype Meta = Meta(parent: string, lastUsed: int)

  type Metas = map<string, Meta>

  const RUN_PREFIX := "kranq-run-"
  const LEGACY_PREFIXES := ["kranq-proj-", "forge-base-", "forge-layer-", "forge-run-", "forge-proj-"]

  predicate Legacy(name: string) {
    exists p :: p in LEGACY_PREFIXES && StartsWith(name, p)
  }

  predicate Managed(name: string) {
    IsBase(name) || IsLayer(name) || StartsWith(name, RUN_PREFIX) || Legacy(name)
  }

  /** A name without a record has no parent. */
  function Parent(metas: Metas, name: string): string {
    if name in metas then metas[name].parent else ""
  }

  /** A name without a record was used at the zero time, which is before any other. */
  function LastUsed(metas: Metas, name: string): int {
    if name in metas then metas[name].lastUsed else 0
  }

  // ------------------------------------------------------------------ ordering

  predicate Less(a: string, b: string) {
    if b == "" then false
    else if a == "" then true
    else if a[0] != b[0] then a[0] < b[0]
    else Less(a[1..], b[1..])
  }

  /** Most recently used first, ties by name. */
  predicate Newer(metas: Metas, a: string, b: string) {
    LastUsed(metas, a) > LastUsed(metas, b) || (LastUsed(metas, a) == LastUsed(metas, b) && Less(a, b))
  }

  function Insert(first: (string, string) -> bool, x: string, s: seq<string>): seq<string> {
    if s == [] then [x]
    else if first(s[0], x) then [s[0]] + Insert(first, x, s[1..])
    else [x] + s
  }

  function SortBy(first: (string, string) -> bool, s: seq<string>): seq<string> {
    if s == [] then [] else Insert(first, s[0], SortBy(first, s[1..]))
  }

  lemma {:induction false} InsertKeeps(first: (string, string) -> bool, x: string, s: seq<string>)
    ensures multiset(Insert(first, x, s)) == multiset(s) + multiset{x}
  {
    if s != [] {
      assert s == [s[0]] + s[1..];
      if first(s[0], x) { InsertKeeps(first, x, s[1..]); }
    }
  }

  lemma {:induction false} SortKeeps(first: (string, string) -> bool, s: seq<string>)
    ensures multiset(SortBy(first, s)) == multiset(s) && |SortBy(first, s)| == |s|
    ensures forall x :: x in SortBy(first, s) <==> x in s
  {
    if s != [] {
      assert s == [s[0]] + s[1..];
      SortKeeps(first, s[1..]);
      InsertKeeps(first, s[0], SortBy(first, s[1..]));
    }
    assert forall x :: x in SortBy(first, s) <==> x in multiset(SortBy(first, s));
    assert |multiset(SortBy(first, s))| == |SortBy(first, s)|;
  }

  /** A strict order of all names. */
  ghost predicate Strict(first: (string, string) -> bool) {
    && (forall x :: !first(x, x))
    && (forall x, y, z :: first(x, y) && first(y, z) ==> first(x, z))
    && (forall x, y :: x != y ==> first(x, y) || first(y, x))
  }

  ghost predicate Sorted(first: (string, string) -> bool, s: seq<string>) {
    forall i, j :: 0 <= i < j < |s| ==> s[i] == s[j] || first(s[i], s[j])
  }

  lemma FrontSorts(first: (string, string) -> bool, x: string, s: seq<string>)
    requires Sorted(first, s) && forall y :: y in s ==> x == y || first(x, y)
    ensures Sorted(first, [x] + s)
  {
  }

  lemma {:induction false} InsertSorts(first: (string, string) -> bool, x: string, s: seq<string>)
    requires Strict(first) && Sorted(first, s)
    ensures Sorted(first, Insert(first, x, s))
  {
    if s != [] && first(s[0], x) {
      InsertSorts(first, x, s[1..]);
      InsertKeeps(first, x, s[1..]);
      var rest := Insert(first, x, s[1..]);
      hide Insert, Strict;
      forall y | y in rest ensures s[0] == y || first(s[0], y) {
        assert y in multiset(rest);
        assert y in multiset(s[1..]) || y == x;
      }
      FrontSorts(first, s[0], rest);
    } else if s != [] {
      assert x == s[0] || first(x, s[0]);
      FrontSorts(first, x, s);
    }
  }

  lemma {:induction false} SortSorts(first: (string, string) -> bool, s: seq<string>)
    requires Strict(first)
    ensures Sorted(first, SortBy(first, s))
  {
    hide Strict;
    if s != [] {
      SortSorts(first, s[1..]);
      InsertSorts(first, s[0], SortBy(first, s[1..]));
    }
  }

  /** In dictionary order: a proper beginning, or the smaller character where they first differ. */
  ghost predicate InDictionary(a: string, b: string) {
    a < b || exists i :: 0 <= i < |a| && i < |b| && a[..i] == b[..i] && a[i] < b[i]
  }

  lemma DictionaryByFirst(a: string, b: string)
    requires a != [] && b != [] && a[0] != b[0]
    ensures InDictionary(a, b) <==> a[0] < b[0]
  {
    if a[0] < b[0] { assert a[..0] == b[..0]; }
    if i :| 0 <= i < |a| && i < |b| && a[..i] == b[..i] && a[i] < b[i] {
      FirstOfEqual(a, b, i);
    }
  }

  lemma FirstOfEqual(a: string, b: string, i: nat)
    requires i <= |a| && i <= |b| && a[..i] == b[..i]
    ensures i > 0 ==> a[0] == b[0]
  {
    if i > 0 { assert a[..i][0] == a[0] && b[..i][0] == b[0]; }
  }

  lemma DictionaryByRest(a: string, b: string)
    requires a != [] && b != [] && a[0] == b[0]
    ensures InDictionary(a, b) <==> InDictionary(a[1..], b[1..])
  {
    assert a == [a[0]] + a[1..] && b == [b[0]] + b[1..];
    if i :| 0 <= i < |a| && i < |b| && a[..i] == b[..i] && a[i] < b[i] {
      var k := i - 1;
      assert a[1..][..k] == a[..i][1..] && b[1..][..k] == b[..i][1..];
      assert a[1..][k] < b[1..][k];
    }
    if k :| 0 <= k < |a[1..]| && k < |b[1..]| && a[1..][..k] == b[1..][..k] && a[1..][k] < b[1..][k] {
      assert a[..k + 1] == [a[0]] + a[1..][..k] && b[..k + 1] == [b[0]] + b[1..][..k];
      assert a[k + 1] < b[k + 1];
    }
  }

  lemma {:induction false} LessExactly(a: string, b: string)
    ensures Less(a, b) <==> InDictionary(a, b)
  {
    if a != [] && b != [] {
      hide InDictionary;
      if a[0] != b[0] {
        DictionaryByFirst(a, b);
      } else {
        LessExactly(a[1..], b[1..]);
        DictionaryByRest(a, b);
      }
    }
  }

  lemma {:induction false} LessIsStrict(x: string, y: string, z: string)
    ensures !Less(x, x)
    ensures Less(x, y) && Less(y, z) ==> Less(x, z)
    ensures x != y ==> Less(x, y) || Less(y, x)
    decreases |x| + |y| + |z|
  {
    if x != [] && y != [] && z != [] {
      LessIsStrict(x[1..], y[1..], z[1..]);
      assert x == [x[0]] + x[1..] && y == [y[0]] + y[1..];
    } else if x != [] && y != [] {
      LessIsStrict(x[1..], y[1..], z);
      assert x == [x[0]] + x[1..] && y == [y[0]] + y[1..];
    } else if x != [] {
      LessIsStrict(x[1..], y, z);
    }
  }

  lemma NewerIsStrict(metas: Metas)
    ensures Strict((a, b) => Newer(metas, a, b))
  {
    hide LastUsed, Less;
    forall x, y, z
      ensures !Newer(metas, x, x)
      ensures Newer(metas, x, y) && Newer(metas, y, z) ==> Newer(metas, x, z)
      ensures x != y ==> Newer(metas, x, y) || Newer(metas, y, x)
    {
      LessIsStrict(x, y, z);
    }
  }

  lemma MoreIsStrict()
    ensures Strict((a: string, b: string) => Less(b, a))
  {
    hide Less;
    forall x, y, z
      ensures !Less(x, x)
      ensures Less(y, x) && Less(z, y) ==> Less(z, x)
      ensures x != y ==> Less(y, x) || Less(x, y)
    {
      LessIsStrict(z, y, x);
      LessIsStrict(x, y, z);
    }
  }

  function Top(s: seq<string>, k: nat): seq<string> {
    if |s| <= k then s else s[..k]
  }

  // --------------------------------------------------------------------- heads

  /** A layer some existing layer was built on. */
  predicate HasChild(layers: seq<string>, metas: Metas, name: string) {
    exists c :: c in layers && Parent(metas, c) == name
  }

  /** `exists` holds the names of all instances, so every layer is in it. */
  function Heads(todo: seq<string>, layers: seq<string>, metas: Metas): seq<string> {
    if todo == [] then []
    else if HasChild(layers, metas, todo[0]) then Heads(todo[1..], layers, metas)
    else [todo[0]] + Heads(todo[1..], layers, metas)
  }

  function RankedHeads(layers: seq<string>, metas: Metas): seq<string> {
    SortBy((a, b) => Newer(metas, a, b), Heads(layers, layers, metas))
  }

  lemma {:induction false} HeadsAre(todo: seq<string>, layers: seq<string>, metas: Metas, x: string)
    ensures x in Heads(todo, layers, metas) <==> x in todo && !HasChild(layers, metas, x)
  {
    if todo != [] {
      HeadsAre(todo[1..], layers, metas, x);
      assert todo == [todo[0]] + todo[1..];
    }
  }

  // ------------------------------------------------------------------ keeping

  /** From a head up through its recorded parents, until a name already kept. */
  function Walk(metas: Metas, keep: set<string>, name: string): set<string>
    decreases |metas.Keys - keep|, if name == "" then 0 else 1
  {
    if name == "" || name in keep then keep
    else
      assert name in metas ==> name in metas.Keys - keep;
      assert metas.Keys - (keep + {name}) == (metas.Keys - keep) - {name};
      Walk(metas, keep + {name}, Parent(metas, name))
  }

  function WalkAll(metas: Metas, keep: set<string>, heads: seq<string>): set<string>
    decreases |heads|
  {
    if heads == [] then keep else WalkAll(metas, Walk(metas, keep, heads[0]), heads[1..])
  }

  function Elems(s: seq<string>): set<string> {
    set x | x in s
  }

  function NewestBases(bases: seq<string>, k: nat): seq<string> {
    Top(SortBy((a, b) => Less(b, a), bases), k)
  }

  /** `first` is what is protected or running. */
  function KeepSet(metas: Metas, first: set<string>, layers: seq<string>, bases: seq<string>, k: nat): set<string> {
    WalkAll(metas, first, Top(RankedHeads(layers, metas), k)) + Elems(NewestBases(bases, k))
  }

  /** Every recorded parent of a kept name is kept. */
  predicate Closed(metas: Metas, keep: set<string>) {
    forall n :: n in keep ==> Parent(metas, n) == "" || Parent(metas, n) in keep
  }

  /** As `Closed`, with exceptions for the names in `first` and for one parent still to come. */
  predicate ClosedBut(metas: Metas, keep: set<string>, first: set<string>, pending: string) {
    forall n :: n in keep && n !in first ==>
      Parent(metas, n) == "" || Parent(metas, n) in keep || Parent(metas, n) == pending
  }

  lemma {:induction false} WalkCloses(metas: Metas, keep: set<string>, first: set<string>, name: string)
    requires ClosedBut(metas, keep, first, name)
    ensures keep <= Walk(metas, keep, name) && (name != "" ==> name in Walk(metas, keep, name))
    ensures ClosedBut(metas, Walk(metas, keep, name), first, "")
    decreases |metas.Keys - keep|, if name == "" then 0 else 1
  {
    if name != "" && name !in keep {
      assert name in metas ==> name in metas.Keys - keep;
      assert metas.Keys - (keep + {name}) == (metas.Keys - keep) - {name};
      WalkCloses(metas, keep + {name}, first, Parent(metas, name));
    }
  }

  lemma {:induction false} WalkAllCloses(metas: Metas, keep: set<string>, first: set<string>, heads: seq<string>)
    requires ClosedBut(metas, keep, first, "")
    ensures keep <= WalkAll(metas, keep, heads)
    ensures forall h :: h in heads && h != "" ==> h in WalkAll(metas, keep, heads)
    ensures ClosedBut(metas, WalkAll(metas, keep, heads), first, "")
    decreases |heads|
  {
    if heads != [] {
      assert ClosedBut(metas, keep, first, heads[0]);
      WalkCloses(metas, keep, first, heads[0]);
      WalkAllCloses(metas, Walk(metas, keep, heads[0]), first, heads[1..]);
      assert heads == [heads[0]] + heads[1..];
    }
  }

  lemma BasesAre(bases: seq<string>, k: nat)
    ensures Elems(NewestBases(bases, k)) <= Elems(bases)
  {
    var s := SortBy((a, b) => Less(b, a), bases);
    SortKeeps((a, b) => Less(b, a), bases);
    forall x | x in Top(s, k) ensures x in bases {
      assert x in s;
    }
  }

  /** A climb by recorded parents from `from` to `to`, through names outside `first` only. */
  predicate Climb(metas: Metas, first: set<string>, path: seq<string>, from: string, to: string) {
    && path != [] && path[0] == from && path[|path| - 1] == to
    && (forall k :: 0 <= k < |path| ==> path[k] != "" && path[k] !in first)
    && (forall k :: 0 <= k < |path| - 1 ==> path[k + 1] == Parent(metas, path[k]))
  }

  ghost predicate Reached(metas: Metas, first: set<string>, heads: seq<string>, name: string) {
    exists head, path :: head in heads && Climb(metas, first, path, head, name)
  }

  lemma ClimbOn(metas: Metas, keep: set<string>, name: string, path: seq<string>, to: string)
    requires name != "" && name !in keep && Climb(metas, keep + {name}, path, Parent(metas, name), to)
    ensures Climb(metas, keep, [name] + path, name, to)
  {
    var all := [name] + path;
    assert forall k :: 0 < k < |all| ==> all[k] == path[k - 1];
  }

  lemma WalkUnfolds(metas: Metas, keep: set<string>, name: string)
    requires name != "" && name !in keep
    ensures Walk(metas, keep, name) == Walk(metas, keep + {name}, Parent(metas, name))
  {
    hide Parent;
  }

  /** What makes a walk end: fewer names left, or no parent. */
  lemma WalkShrinks(metas: Metas, keep: set<string>, name: string)
    requires name != "" && name !in keep
    ensures || |metas.Keys - (keep + {name})| < |metas.Keys - keep|
            || (|metas.Keys - (keep + {name})| == |metas.Keys - keep| && Parent(metas, name) == "")
  {
    hide Walk;
    assert name in metas ==> name in metas.Keys - keep;
    assert metas.Keys - (keep + {name}) == (metas.Keys - keep) - {name};
  }

  lemma NoWalkFrom(metas: Metas, keep: set<string>, name: string)
    requires name == "" || name in keep
    ensures Walk(metas, keep, name) == keep
  {
  }

  lemma ClimbHere(metas: Metas, first: set<string>, name: string)
    requires name != "" && name !in first
    ensures Climb(metas, first, [name], name, name)
  {
  }

  /** A walk adds nothing but what it climbs through. */
  lemma {:induction false} WalkAddsClimbs(metas: Metas, keep: set<string>, name: string, x: string)
    requires x in Walk(metas, keep, name) && x !in keep
    ensures exists path :: Climb(metas, keep, path, name, x)
    decreases |metas.Keys - keep|, if name == "" then 0 else 1
  {
    hide *;
    if name == "" || name in keep {
      NoWalkFrom(metas, keep, name);
    } else if x == name {
      ClimbHere(metas, keep, name);
    } else {
      WalkUnfolds(metas, keep, name);
      WalkShrinks(metas, keep, name);
      WalkAddsClimbs(metas, keep + {name}, Parent(metas, name), x);
      var path :| Climb(metas, keep + {name}, path, Parent(metas, name), x);
      ClimbOn(metas, keep, name, path, x);
    }
  }

  lemma {:induction false} WalksAddReached(metas: Metas, keep: set<string>, first: set<string>, heads: seq<string>, x: string)
    requires first <= keep && x in WalkAll(metas, keep, heads) && x !in keep
    ensures Reached(metas, first, heads, x)
    decreases |heads|
  {
    assert heads == [heads[0]] + heads[1..];
    var walked := Walk(metas, keep, heads[0]);
    if x in walked {
      WalkAddsClimbs(metas, keep, heads[0], x);
      var path :| Climb(metas, keep, path, heads[0], x);
      assert Climb(metas, first, path, heads[0], x);
    } else {
      WalkGrows(metas, keep, heads[0]);
      WalksAddReached(metas, walked, first, heads[1..], x);
      var head, path :| head in heads[1..] && Climb(metas, first, path, head, x);
      assert head in heads;
    }
  }

  lemma {:induction false} WalkGrows(metas: Metas, keep: set<string>, name: string)
    ensures keep <= Walk(metas, keep, name)
    decreases |metas.Keys - keep|, if name == "" then 0 else 1
  {
    hide *;
    if name != "" && name !in keep {
      WalkUnfolds(metas, keep, name);
      WalkShrinks(metas, keep, name);
      WalkGrows(metas, keep + {name}, Parent(metas, name));
    } else {
      NoWalkFrom(metas, keep, name);
    }
  }

  /** What is closed but for `first` holds all of a climb it holds the start of. */
  lemma {:induction false} ClimbStays(metas: Metas, keep: set<string>, first: set<string>, path: seq<string>, from: string, to: string)
    requires ClosedBut(metas, keep, first, "") && from in keep && Climb(metas, first, path, from, to)
    ensures to in keep
    decreases |path|
  {
    if |path| > 1 {
      assert path[1] == Parent(metas, path[0]);
      ClimbStays(metas, keep, first, path[1..], path[1], to);
    }
  }

  /** The walks keep exactly what was kept first and what is climbed through from a head. */
  lemma WalkedExactly(metas: Metas, first: set<string>, heads: seq<string>, x: string)
    ensures x in WalkAll(metas, first, heads) <==> x in first || Reached(metas, first, heads, x)
  {
    WalkAllCloses(metas, first, first, heads);
    var keep := WalkAll(metas, first, heads);
    if x in keep && x !in first {
      WalksAddReached(metas, first, first, heads, x);
    } else if Reached(metas, first, heads, x) {
      var head, path :| head in heads && Climb(metas, first, path, head, x);
      assert path[0] == head;
      ClimbStays(metas, keep, first, path, head, x);
    }
  }

  /** What a caller can tell beforehand: a parent that is kept first, among the newest bases, or under a top head. */
  ghost predicate ParentIsSafe(metas: Metas, first: set<string>, layers: seq<string>, bases: seq<string>, k: nat, n: string) {
    var p := Parent(metas, n);
    p == "" || p in first || p in NewestBases(bases, k) || Reached(metas, first, Top(RankedHeads(layers, metas), k), p)
  }

  /**
   The keep-set is closed under recorded parents exactly when each name kept first has a
   parent that is kept first too, is one of the newest bases, or is reached from one of the
   top heads by parent links that do not pass a name kept first: the walk stops at such a
   name, and never looks above it. Bases record no parent.
   */
  lemma KeepSetClosedExactly(metas: Metas, first: set<string>, layers: seq<string>, bases: seq<string>, k: nat)
    requires forall b :: b in bases ==> Parent(metas, b) == ""
    ensures first <= KeepSet(metas, first, layers, bases, k)
    ensures Closed(metas, KeepSet(metas, first, layers, bases, k))
            <==> forall n :: n in first ==> ParentIsSafe(metas, first, layers, bases, k, n)
    ensures Closed(metas, first) ==> Closed(metas, KeepSet(metas, first, layers, bases, k))
  {
    var heads := Top(RankedHeads(layers, metas), k);
    var keep := KeepSet(metas, first, layers, bases, k);
    WalkAllCloses(metas, first, first, heads);
    BasesAre(bases, k);
    forall n | n in first
      ensures ParentIsSafe(metas, first, layers, bases, k, n) <==> Parent(metas, n) == "" || Parent(metas, n) in keep
    {
      WalkedExactly(metas, first, heads, Parent(metas, n));
    }
    hide Reached, NewestBases, RankedHeads, Top, ParentIsSafe;
  }

  /** A running layer whose parent nothing else needs: the parent goes, the layer stays. */
  lemma RunningLayerLosesItsParent(base: string, a: string, b: string)
    requires IsBase(base) && IsLayer(a) && IsLayer(b) && a != b
    ensures var metas := map[base := Meta("", 1), a := Meta(base, 1), b := Meta(a, 2)];
            a !in KeepSet(metas, {b}, [a, b], [base], 3)
  {
    assert base[6] == BASE_PREFIX[6] == 'b' && a[6] == b[6] == LAYER_PREFIX[6] == 'l';
    var metas := map[base := Meta("", 1), a := Meta(base, 1), b := Meta(a, 2)];
    var layers := [a, b];
    OnlyHead(metas, a, b);
    BasesAre([base], 3);
    var heads := Top(RankedHeads(layers, metas), 3);
    hide RankedHeads, NewestBases, Top;
    forall head, path | head in heads ensures !Climb(metas, {b}, path, head, a) {
      assert head == b;
    }
    WalkedExactly(metas, {b}, heads, a);
  }

  /** Of two layers, one built on the other, only the upper one is a head. */
  lemma OnlyHead(metas: Metas, a: string, b: string)
    requires Parent(metas, b) == a && Parent(metas, a) != b && Parent(metas, a) != a && a != b && a != ""
    ensures forall h :: h in Top(RankedHeads([a, b], metas), 3) ==> h == b
  {
    var layers := [a, b];
    assert layers[1] == b && HasChild(layers, metas, a);
    forall h | h in RankedHeads(layers, metas) ensures h == b {
      SortKeeps((x, y) => Newer(metas, x, y), Heads(layers, layers, metas));
      HeadsAre(layers, layers, metas, h);
    }
    forall h | h in Top(RankedHeads(layers, metas), 3) ensures h == b {
      assert h in RankedHeads(layers, metas);
    }
  }

  /** No recorded ancestry runs in a circle. */
  ghost predicate Acyclic(metas: Metas, rank: string -> nat) {
    forall n :: n in metas && metas[n].parent != "" ==> rank(metas[n].parent) < rank(n)
  }

  /** With no more heads than are kept, every layer is an ancestor of a kept head. */
  lemma {:induction false} EveryLayerIsKept(
      metas: Metas, rank: string -> nat, bound: nat, first: set<string>, layers: seq<string>, bases: seq<string>, k: nat, n: string)
    requires Acyclic(metas, rank) && Closed(metas, first) && |Heads(layers, layers, metas)| <= k
    requires forall b :: b in bases ==> Parent(metas, b) == ""
    requires forall l :: l in layers ==> rank(l) <= bound
    requires n in layers && forall l :: l in layers ==> IsLayer(l)
    ensures n in KeepSet(metas, first, layers, bases, k)
    decreases bound - rank(n)
  {
    var keep := KeepSet(metas, first, layers, bases, k);
    var ranked := RankedHeads(layers, metas);
    KeepSetClosedExactly(metas, first, layers, bases, k);
    SortKeeps((a, b) => Newer(metas, a, b), Heads(layers, layers, metas));
    if HasChild(layers, metas, n) {
      var c :| c in layers && Parent(metas, c) == n;
      EveryLayerIsKept(metas, rank, bound, first, layers, bases, k, c);
    } else {
      HeadsAre(layers, layers, metas, n);
      assert n in ranked && Top(ranked, k) == ranked;
      WalkAllCloses(metas, first, first, ranked);
    }
  }

  /** What is in the top of a sorted list comes before what is left out. */
  lemma TopComesFirst(first: (string, string) -> bool, s: seq<string>, k: nat, kept: string, left: string)
    requires Sorted(first, s) && kept in Top(s, k) && left in s && left !in Top(s, k)
    ensures first(kept, left)
  {
    var i :| 0 <= i < |Top(s, k)| && Top(s, k)[i] == kept;
    assert s == s[..k] + s[k..];
    assert left in s[k..];
    var j :| k <= j < |s| && s[j] == left;
    assert s[i] == kept;
  }

  /**
   The heads that are walked are the most recently used ones, ties going by name; a head
   without a record counts as used at the zero time.
   */
  lemma KeptHeadsAreTheNewest(metas: Metas, layers: seq<string>, k: nat, kept: string, left: string)
    requires kept in Top(RankedHeads(layers, metas), k)
    requires left in RankedHeads(layers, metas) && left !in Top(RankedHeads(layers, metas), k)
    ensures var (a, b) := (if kept in metas then metas[kept].lastUsed else 0, if left in metas then metas[left].lastUsed else 0);
            a > b || (a == b && Less(kept, left))
  {
    NewerIsStrict(metas);
    SortSorts((a, b) => Newer(metas, a, b), Heads(layers, layers, metas));
    TopComesFirst((a, b) => Newer(metas, a, b), RankedHeads(layers, metas), k, kept, left);
  }

  /** The bases that are kept are the last by name, which is by template and then by time. */
  lemma KeptBasesAreTheNewest(bases: seq<string>, k: nat, kept: string, left: string)
    requires kept in NewestBases(bases, k) && left in bases && left !in NewestBases(bases, k)
    ensures Less(left, kept)
  {
    MoreIsStrict();
    SortSorts((a, b) => Less(b, a), bases);
    SortKeeps((a, b) => Less(b, a), bases);
    TopComesFirst((a, b) => Less(b, a), SortBy((a, b) => Less(b, a), bases), k, kept, left);
  }

  function Min(a: nat, b: nat): nat { if a < b then a else b }

  /** As many heads and as many bases are kept as the limit allows, and no more. */
  lemma AsManyAsTheLimit(metas: Metas, layers: seq<string>, bases: seq<string>, k: nat)
    ensures |Top(RankedHeads(layers, metas), k)| == Min(k, |Heads(layers, layers, metas)|)
    ensures |NewestBases(bases, k)| == Min(k, |bases|)
    ensures Elems(NewestBases(bases, k)) <= Elems(bases)
  {
    SortKeeps((a, b) => Newer(metas, a, b), Heads(layers, layers, metas));
    SortKeeps((a, b) => Less(b, a), bases);
    BasesAre(bases, k);
    hide SortBy, Heads;
  }

  /** The heads are the layers no layer was recorded as built on. */
  lemma HeadsExactly(layers: seq<string>, metas: Metas, x: string)
    requires x != ""
    ensures x in RankedHeads(layers, metas)
            <==> x in layers && forall c :: c in layers && c in metas ==> metas[c].parent != x
  {
    SortKeeps((a, b) => Newer(metas, a, b), Heads(layers, layers, metas));
    HeadsAre(layers, layers, metas, x);
  }

  /** A head used after all others is walked first. */
  lemma LatestHeadIsKept(metas: Metas, layers: seq<string>, k: nat, h: string)
    requires k > 0 && h in RankedHeads(layers, metas)
    requires forall n :: n in layers && n != h ==> LastUsed(metas, n) < LastUsed(metas, h)
    ensures h in Top(RankedHeads(layers, metas), k)
  {
    var ranked := RankedHeads(layers, metas);
    var kept := ranked[0];
    SortKeeps((a, b) => Newer(metas, a, b), Heads(layers, layers, metas));
    HeadsAre(layers, layers, metas, kept);
    assert kept in Top(ranked, k) by { assert Top(ranked, k)[0] == kept; }
    if h !in Top(ranked, k) {
      KeptHeadsAreTheNewest(metas, layers, k, kept, h);
      assert false;
    }
  }

  /** Each name of a chain records the one below it. */
  ghost predicate Linked(metas: Metas, chain: seq<string>) {
    forall j, k :: 0 <= j && j + 1 == k < |chain| ==>
      chain[k] in metas && metas[chain[k]].parent == chain[j] && chain[j] != ""
  }

  /** A closed keep-set holds all of a chain it holds the end of. */
  lemma {:induction false} LinkedIsKept(metas: Metas, keep: set<string>, chain: seq<string>, k: nat)
    requires Closed(metas, keep) && Linked(metas, chain) && k < |chain| && chain[|chain| - 1] in keep
    ensures chain[k] in keep
    decreases |chain| - k
  {
    if k < |chain| - 1 {
      LinkedIsKept(metas, keep, chain, k + 1);
      assert Parent(metas, chain[k + 1]) == chain[k];
    }
  }
}
