/**
 Content-addressed image names: the text a layer's name digests can be decoded, so
 under a collision-free digest a chain's last name fixes the whole chain.
 */
module ImageNames {
  import opened Prelude

  const NUL := '\0'

  datatype Var = Var(name: string, value: string)

  datatype File = File(dest: string, mode: nat, digest: string)

  /** What a layer's name depends on, besides its parent: `dir` is `l.Dir()`. */
  datatype Layer = Layer(
    dir: string, env: seq<Var>, values: seq<Var>, secrets: seq<string>, run: string, files: seq<File>)

  // ------------------------------------------------------------------ numerals

  function Digit(n: nat): char
    requires n < 10
  {
    "0123456789"[n]
  }

  function Octal(n: nat): string {
    if n < 8 then [Digit(n)] else Octal(n / 8) + [Digit(n % 8)]
  }

  function Decimal(n: nat): string {
    if n < 10 then [Digit(n)] else Decimal(n / 10) + [Digit(n % 10)]
  }

  function TwoDigits(n: nat): string {
    if n < 10 then "0" + Decimal(n) else Decimal(n)
  }

  function OctalValue(s: string): nat {
    if s == [] then 0
    else OctalValue(s[..|s| - 1]) * 8 + (if '0' <= s[|s| - 1] <= '7' then (s[|s| - 1] - '0') as nat else 0)
  }

  lemma {:induction false} OctalRoundTrip(n: nat)
    ensures OctalValue(Octal(n)) == n && NUL !in Octal(n)
  {
    if n < 8 {
      assert [Digit(n)][..0] == [];
    } else {
      OctalRoundTrip(n / 8);
      assert (Octal(n / 8) + [Digit(n % 8)])[..|Octal(n / 8)|] == Octal(n / 8);
    }
  }

  lemma {:induction false} DecimalIsDigits(n: nat)
    ensures forall c :: c in Decimal(n) ==> '0' <= c <= '9'
  {
    if n >= 10 { DecimalIsDigits(n / 10); }
  }

  // ------------------------------------------------------------ the digested text

  /** NUL-terminated fields, one after another. */
  function Text(fields: seq<string>): string {
    if fields == [] then "" else fields[0] + [NUL] + Text(fields[1..])
  }

  function PairFields(tag: string, vars: seq<Var>): seq<string> {
    if vars == [] then [] else [tag, vars[0].name, vars[0].value] + PairFields(tag, vars[1..])
  }

  function SecretFields(names: seq<string>): seq<string> {
    if names == [] then [] else ["secret", names[0]] + SecretFields(names[1..])
  }

  function FileFields(files: seq<File>): seq<string> {
    if files == [] then []
    else ["file", files[0].dest, Octal(files[0].mode), files[0].digest] + FileFields(files[1..])
  }

  /** What follows the parent. */
  function BodyFields(l: Layer): seq<string> {
    ["workdir", l.dir] + (PairFields("env", l.env) + (PairFields("arg", l.values)
    + (SecretFields(l.secrets) + (["run", l.run] + FileFields(l.files)))))
  }

  /** The parent is written as one field, though `Root` may have put a NUL inside it. */
  function LayerText(parent: string, l: Layer): string {
    Text(["parent", parent] + BodyFields(l))
  }

  // ---------------------------------------------------------------- decoding it

  predicate Plain(s: string) {
    NUL !in s
  }

  predicate PlainVars(vars: seq<Var>) {
    forall v :: v in vars ==> Plain(v.name) && Plain(v.value)
  }

  predicate PlainLayer(l: Layer) {
    && Plain(l.dir) && Plain(l.run) && PlainVars(l.env) && PlainVars(l.values)
    && (forall s :: s in l.secrets ==> Plain(s))
    && (forall f :: f in l.files ==> Plain(f.dest) && Plain(f.digest))
  }

  /** What may stand in the parent field: a name, or a name and a disk size after a NUL. */
  ghost predicate PlainParent(p: string) {
    Plain(p) || exists b, d :: Plain(b) && Plain(d) && p == Root(b, d)
  }

  /** The fields of a text, each up to its NUL; a tail without one is dropped. */
  function Split(s: string): seq<string>
    decreases |s|
  {
    if NUL !in s then [] else [s[..IndexOf(s, NUL)]] + Split(s[IndexOf(s, NUL) + 1..])
  }

  function IndexOf(s: string, c: char): (i: nat)
    requires c in s
    ensures i < |s| && s[i] == c && c !in s[..i]
  {
    if s[0] == c then 0 else 1 + IndexOf(s[1..], c)
  }

  lemma SplitFirst(f: string, rest: string)
    requires Plain(f)
    ensures Split(f + [NUL] + rest) == [f] + Split(rest)
  {
    var s := f + [NUL] + rest;
    assert s[|f|] == NUL;
    var i := IndexOf(s, NUL);
    assert s == s[..i] + [NUL] + s[i + 1..];
    CutIsUnique(NUL, s[..i], s[i + 1..], f, rest);
  }

  lemma {:induction false} SplitText(fields: seq<string>)
    requires forall f :: f in fields ==> Plain(f)
    ensures Split(Text(fields)) == fields
  {
    if fields != [] {
      SplitText(fields[1..]);
      SplitFirst(fields[0], Text(fields[1..]));
    }
  }

  lemma {:induction false} TextConcat(xs: seq<string>, ys: seq<string>)
    ensures Text(xs + ys) == Text(xs) + Text(ys)
  {
    if xs == [] {
      assert xs + ys == ys;
    } else {
      assert (xs + ys)[1..] == xs[1..] + ys;
      TextConcat(xs[1..], ys);
    }
  }

  function TakePairs(tag: string, fields: seq<string>): (seq<Var>, seq<string>) {
    if |fields| < 3 || fields[0] != tag then ([], fields)
    else
      var (vars, rest) := TakePairs(tag, fields[3..]);
      ([Var(fields[1], fields[2])] + vars, rest)
  }

  function TakeSecrets(fields: seq<string>): (seq<string>, seq<string>) {
    if |fields| < 2 || fields[0] != "secret" then ([], fields)
    else
      var (names, rest) := TakeSecrets(fields[2..]);
      ([fields[1]] + names, rest)
  }

  function TakeFiles(fields: seq<string>): seq<File> {
    if |fields| < 4 then [] else [File(fields[1], OctalValue(fields[2]), fields[3])] + TakeFiles(fields[4..])
  }

  predicate StartsWith(s: string, prefix: string) {
    prefix <= s
  }

  function DecodeBody(body: seq<string>): Option<Layer> {
    if |body| < 2 then None
    else
      var (env, f1) := TakePairs("env", body[2..]);
      var (values, f2) := TakePairs("arg", f1);
      var (secrets, f3) := TakeSecrets(f2);
      if |f3| < 2 then None else Some(Layer(body[1], env, values, secrets, f3[1], TakeFiles(f3[2..])))
  }

  function DecodeFields(fields: seq<string>): Option<(string, Layer)> {
    if |fields| < 3 then None
    else
      var rooted := StartsWith(fields[2], "disk=");
      var parent := if rooted then fields[1] + [NUL] + fields[2] else fields[1];
      match DecodeBody(if rooted then fields[3..] else fields[2..])
      case None => None
      case Some(l) => Some((parent, l))
  }

  /** Reads a parent and a layer back out of a text. */
  function Decode(text: string): Option<(string, Layer)> {
    DecodeFields(Split(text))
  }

  lemma {:induction false} PairsBack(tag: string, vars: seq<Var>, rest: seq<string>)
    requires rest != [] && rest[0] != tag
    ensures TakePairs(tag, PairFields(tag, vars) + rest) == (vars, rest)
    decreases |vars|
  {
    if vars == [] {
      assert PairFields(tag, vars) + rest == rest;
    } else {
      var fields := PairFields(tag, vars) + rest;
      assert fields[0] == tag && fields[1] == vars[0].name && fields[2] == vars[0].value;
      assert fields[3..] == PairFields(tag, vars[1..]) + rest;
      PairsBack(tag, vars[1..], rest);
      assert vars == [Var(fields[1], fields[2])] + vars[1..];
    }
  }

  lemma {:induction false} SecretsBack(names: seq<string>, rest: seq<string>)
    requires rest != [] && rest[0] != "secret"
    ensures TakeSecrets(SecretFields(names) + rest) == (names, rest)
    decreases |names|
  {
    if names == [] {
      assert SecretFields(names) + rest == rest;
    } else {
      var fields := SecretFields(names) + rest;
      assert fields[0] == "secret" && fields[1] == names[0];
      assert fields[2..] == SecretFields(names[1..]) + rest;
      SecretsBack(names[1..], rest);
      assert names == [names[0]] + names[1..];
    }
  }

  lemma {:induction false} FilesBack(files: seq<File>)
    ensures TakeFiles(FileFields(files)) == files
  {
    if files != [] {
      OctalRoundTrip(files[0].mode);
      assert FileFields(files)[4..] == FileFields(files[1..]);
      FilesBack(files[1..]);
    }
  }

  lemma BodyBack(l: Layer)
    ensures DecodeBody(BodyFields(l)) == Some(l)
  {
    var f4 := ["run", l.run] + FileFields(l.files);
    var f3 := SecretFields(l.secrets) + f4;
    var f2 := PairFields("arg", l.values) + f3;
    var f1 := PairFields("env", l.env) + f2;
    assert f3[0] == "secret" || f3[0] == "run";
    assert f2[0] == "arg" || f2[0] == f3[0];
    PairsBack("env", l.env, f2);
    PairsBack("arg", l.values, f3);
    SecretsBack(l.secrets, f4);
    FilesBack(l.files);
    assert f4[2..] == FileFields(l.files);
    assert BodyFields(l)[2..] == f1 && BodyFields(l)[1] == l.dir;
  }

  lemma {:induction false} PairFieldsArePlain(tag: string, vars: seq<Var>)
    requires Plain(tag) && PlainVars(vars)
    ensures forall f :: f in PairFields(tag, vars) ==> Plain(f)
  {
    if vars != [] { PairFieldsArePlain(tag, vars[1..]); }
  }

  lemma {:induction false} SecretFieldsArePlain(names: seq<string>)
    requires forall s :: s in names ==> Plain(s)
    ensures forall f :: f in SecretFields(names) ==> Plain(f)
  {
    if names != [] { SecretFieldsArePlain(names[1..]); }
  }

  lemma {:induction false} FileFieldsArePlain(files: seq<File>)
    requires forall f :: f in files ==> Plain(f.dest) && Plain(f.digest)
    ensures forall f :: f in FileFields(files) ==> Plain(f)
  {
    if files != [] {
      OctalRoundTrip(files[0].mode);
      FileFieldsArePlain(files[1..]);
    }
  }

  lemma BodyFieldsArePlain(l: Layer)
    requires PlainLayer(l)
    ensures forall f :: f in BodyFields(l) ==> Plain(f)
  {
    PairFieldsArePlain("env", l.env);
    PairFieldsArePlain("arg", l.values);
    SecretFieldsArePlain(l.secrets);
    FileFieldsArePlain(l.files);
  }

  lemma SplitBack(parent: seq<string>, l: Layer)
    requires PlainLayer(l) && forall f :: f in parent ==> Plain(f)
    ensures Split(Text(["parent"] + parent + BodyFields(l))) == ["parent"] + parent + BodyFields(l)
  {
    BodyFieldsArePlain(l);
    SplitText(["parent"] + parent + BodyFields(l));
  }

  lemma FieldsBack(parent: seq<string>, l: Layer)
    requires |parent| == 1 || (|parent| == 2 && StartsWith(parent[1], "disk="))
    ensures DecodeFields(["parent"] + parent + BodyFields(l)) ==
            Some((if |parent| == 1 then parent[0] else parent[0] + [NUL] + parent[1], l))
  {
    BodyBack(l);
    hide DecodeBody;
    var body := BodyFields(l);
    assert body[0] == "workdir" && body[0][0] == 'w';
    hide BodyFields;
    var fields := ["parent"] + parent + body;
    assert fields[1] == parent[0];
    if |parent| == 1 {
      assert fields[2..] == body && fields[2] == "workdir";
    } else {
      assert fields[3..] == body && fields[2] == parent[1];
    }
  }

  /** Every text a layer's name digests reads back as the parent and layer it was made of. */
  lemma TextRoundTrip(p: string, l: Layer)
    requires PlainParent(p) && PlainLayer(l)
    ensures Decode(LayerText(p, l)) == Some((p, l))
  {
    hide DecodeFields, BodyFields, Split, Text;
    if Plain(p) {
      FieldsBack([p], l);
      SplitBack([p], l);
      assert ["parent"] + [p] == ["parent", p];
    } else {
      var b, d :| Plain(b) && Plain(d) && p == Root(b, d);
      RootedRoundTrip(b, d, l);
    }
  }

  lemma RootedRoundTrip(b: string, d: string, l: Layer)
    requires Plain(b) && Plain(d) && d != "" && PlainLayer(l)
    ensures Decode(LayerText(Root(b, d), l)) == Some((Root(b, d), l))
  {
    hide DecodeFields, BodyFields, Split, Text;
    var parent := [b, "disk=" + d];
    FieldsBack(parent, l);
    SplitBack(parent, l);
    assert ["parent"] + parent == ["parent", b, "disk=" + d];
    RootIsTwoFields(b, d, BodyFields(l));
    assert Root(b, d) == b + [NUL] + ("disk=" + d);
  }

  /** A rooted parent written as one field is two fields on the page. */
  lemma RootIsTwoFields(b: string, d: string, body: seq<string>)
    requires d != ""
    ensures Text(["parent", Root(b, d)] + body) == Text(["parent", b, "disk=" + d] + body)
  {
    var one, two := [Root(b, d)], [b, "disk=" + d];
    TextConcat(["parent"] + one, body);
    TextConcat(["parent"], one);
    TextConcat(["parent"] + two, body);
    TextConcat(["parent"], two);
    assert ["parent"] + one == ["parent", Root(b, d)] && ["parent"] + two == ["parent", b, "disk=" + d];
    assert one[1..] == [] && two[1..] == ["disk=" + d] && ["disk=" + d][1..] == [];
    assert Text(two) == b + [NUL] + (("disk=" + d) + [NUL]);
    assert Text(one) == Text(two);
  }

  /** With a NUL inside a value two different layers digest one text. */
  lemma NulMakesTextsCollide(run: string)
    ensures var l1 := Layer("/w", [Var("a", "b" + [NUL] + "env" + [NUL] + "c" + [NUL] + "d")], [], [], run, []);
            var l2 := Layer("/w", [Var("a", "b"), Var("c", "d")], [], [], run, []);
            l1 != l2 && LayerText("p", l1) == LayerText("p", l2)
  {
    var v := "b" + [NUL] + "env" + [NUL] + "c" + [NUL] + "d";
    var e1, e2 := [Var("a", v)], [Var("a", "b"), Var("c", "d")];
    var rest := ["run", run] + FileFields([]);
    assert e1[1..] == [] && e2[1..] == [Var("c", "d")] && e2[1..][1..] == [];
    var p1, p2 := ["env", "a", v], ["env", "a", "b", "env", "c", "d"];
    assert PairFields("env", e1) == p1;
    assert PairFields("env", e2) == p2;
    var start := ["parent", "p", "workdir", "/w"];
    var l1, l2 := Layer("/w", e1, [], [], run, []), Layer("/w", e2, [], [], run, []);
    assert ["parent", "p"] + BodyFields(l1) == start + (p1 + rest);
    assert ["parent", "p"] + BodyFields(l2) == start + (p2 + rest);
    TextConcat(start, p1 + rest);
    TextConcat(start, p2 + rest);
    TextConcat(p1, rest);
    TextConcat(p2, rest);
    CollidingFields();
  }

  lemma CollidingFields()
    ensures Text(["env", "a", "b" + [NUL] + "env" + [NUL] + "c" + [NUL] + "d"]) == Text(["env", "a", "b", "env", "c", "d"])
  {
    var v := "b" + [NUL] + "env" + [NUL] + "c" + [NUL] + "d";
    TextConcat(["env", "a"], [v]);
    TextConcat(["env", "a"], ["b", "env", "c", "d"]);
    assert ["env", "a"] + [v] == ["env", "a", v];
    assert ["env", "a"] + ["b", "env", "c", "d"] == ["env", "a", "b", "env", "c", "d"];
    assert [v][1..] == [] && ["b", "env", "c", "d"][1..] == ["env", "c", "d"] && ["env", "c", "d"][1..] == ["c", "d"];
    assert ["c", "d"][1..] == ["d"] && ["d"][1..] == [];
    assert Text(["d"]) == "d" + [NUL];
    assert Text(["c", "d"]) == "c" + [NUL] + "d" + [NUL];
    assert Text(["env", "c", "d"]) == "env" + [NUL] + "c" + [NUL] + "d" + [NUL];
  }

  // ------------------------------------------------------------------- names

  const BASE_PREFIX := "kranq-base-"
  const LAYER_PREFIX := "kranq-layer-"

  predicate IsBase(name: string) {
    StartsWith(name, BASE_PREFIX)
  }

  predicate IsLayer(name: string) {
    StartsWith(name, LAYER_PREFIX)
  }

  /** A collision-free digest, written in characters that are neither '-' nor NUL. */
  ghost predicate IdealDigest(h: string -> string) {
    && (forall x, y :: h(x) == h(y) ==> x == y)
    && (forall x :: '-' !in h(x) && NUL !in h(x))
  }

  function LayerNameOf(h: string -> string, parent: string, l: Layer, depth: nat): string {
    LAYER_PREFIX + TwoDigits(depth) + "-" + h(LayerText(parent, l))
  }

  /** Disk is part of the root because a clone cannot shrink one. */
  function Root(base: string, disk: string): string {
    if disk == "" then base else base + [NUL] + "disk=" + disk
  }

  /** The last name of a chain, or its root when it has no layers. */
  function Image(h: string -> string, root: string, layers: seq<Layer>): string {
    if layers == [] then root
    else
      var n := |layers|;
      LayerNameOf(h, Image(h, root, layers[..n - 1]), layers[n - 1], n)
  }

  /** Name `i` of a chain, base first. */
  function NameAt(h: string -> string, base: string, disk: string, layers: seq<Layer>, i: nat): string
    requires i <= |layers|
  {
    if i == 0 then base else Image(h, Root(base, disk), layers[..i])
  }

  function ChainOf(h: string -> string, base: string, disk: string, layers: seq<Layer>): seq<string> {
    seq(|layers| + 1, i requires 0 <= i <= |layers| => NameAt(h, base, disk, layers, i))
  }

  predicate PlainLayers(layers: seq<Layer>) {
    forall l :: l in layers ==> PlainLayer(l)
  }

  lemma LayerNameIsPlain(h: string -> string, parent: string, l: Layer, depth: nat)
    requires IdealDigest(h)
    ensures Plain(LayerNameOf(h, parent, l, depth)) && IsLayer(LayerNameOf(h, parent, l, depth))
  {
    DecimalIsDigits(depth);
    assert forall c :: c in TwoDigits(depth) ==> '0' <= c <= '9';
  }

  /** A string is cut in one way only at the first of a character. */
  lemma {:induction false} CutIsUnique(c: char, a: string, x: string, b: string, y: string)
    requires c !in a && c !in b && a + [c] + x == b + [c] + y
    ensures a == b && x == y
    decreases |a|
  {
    var s := a + [c] + x;
    assert s[0] == if a == [] then c else a[0];
    assert s[0] == if b == [] then c else b[0];
    if a == [] || b == [] {
      assert a == b == [] ==> s[1..] == x && s[1..] == y;
    } else {
      assert s[1..] == a[1..] + [c] + x && s[1..] == b[1..] + [c] + y;
      CutIsUnique(c, a[1..], x, b[1..], y);
      assert a == [a[0]] + a[1..] && b == [b[0]] + b[1..];
    }
  }

  /** Equal layer names were made from equal parents and equal layers. */
  lemma LayerNameInjective(h: string -> string, p1: string, l1: Layer, d1: nat, p2: string, l2: Layer, d2: nat)
    requires IdealDigest(h)
    requires PlainParent(p1) && PlainLayer(l1) && PlainParent(p2) && PlainLayer(l2)
    requires LayerNameOf(h, p1, l1, d1) == LayerNameOf(h, p2, l2, d2)
    ensures p1 == p2 && l1 == l2
  {
    DecimalIsDigits(d1);
    DecimalIsDigits(d2);
    var x, y := h(LayerText(p1, l1)), h(LayerText(p2, l2));
    var n1, n2 := LayerNameOf(h, p1, l1, d1), LayerNameOf(h, p2, l2, d2);
    assert n1[|LAYER_PREFIX|..] == TwoDigits(d1) + "-" + x;
    assert n2[|LAYER_PREFIX|..] == TwoDigits(d2) + "-" + y;
    CutIsUnique('-', TwoDigits(d1), x, TwoDigits(d2), y);
    TextRoundTrip(p1, l1);
    TextRoundTrip(p2, l2);
  }

  lemma RootInjective(b1: string, d1: string, b2: string, d2: string)
    requires Plain(b1) && Plain(d1) && Plain(b2) && Plain(d2)
    requires Root(b1, d1) == Root(b2, d2)
    ensures b1 == b2 && d1 == d2
  {
    var r := Root(b1, d1);
    assert d1 != "" ==> r[|b1|] == NUL;
    assert d2 != "" ==> r[|b2|] == NUL;
    if d1 != "" && d2 != "" {
      assert r == b1 + [NUL] + ("disk=" + d1) && r == b2 + [NUL] + ("disk=" + d2);
      CutIsUnique(NUL, b1, "disk=" + d1, b2, "disk=" + d2);
      assert ("disk=" + d1)[5..] == d1 && ("disk=" + d2)[5..] == d2;
    }
  }

  lemma ImageIsParent(h: string -> string, base: string, disk: string, layers: seq<Layer>)
    requires IdealDigest(h) && Plain(base) && Plain(disk)
    ensures PlainParent(Image(h, Root(base, disk), layers))
  {
    if layers == [] {
      assert PlainParent(Root(base, disk));
    } else {
      var n := |layers|;
      LayerNameIsPlain(h, Image(h, Root(base, disk), layers[..n - 1]), layers[n - 1], n);
    }
  }

  lemma RootIsNoLayer(base: string, disk: string)
    requires IsBase(base)
    ensures !IsLayer(Root(base, disk))
  {
    assert Root(base, disk)[6] == base[6] == BASE_PREFIX[6] == 'b';
    assert LAYER_PREFIX[6] == 'l';
  }

  lemma OneIsEmpty(h: string -> string, b1: string, d1: string, b2: string, d2: string, ls2: seq<Layer>)
    requires IdealDigest(h) && IsBase(b1) && ls2 != []
    ensures Root(b1, d1) != Image(h, Root(b2, d2), ls2)
  {
    var n := |ls2|;
    RootIsNoLayer(b1, d1);
    LayerNameIsPlain(h, Image(h, Root(b2, d2), ls2[..n - 1]), ls2[n - 1], n);
  }

  /** One step down two chains with equal last names. */
  lemma LastLayersAgree(h: string -> string, r1: string, ls1: seq<Layer>, r2: string, ls2: seq<Layer>)
    requires IdealDigest(h) && ls1 != [] && ls2 != [] && PlainLayers(ls1) && PlainLayers(ls2)
    requires PlainParent(Image(h, r1, ls1[..|ls1| - 1])) && PlainParent(Image(h, r2, ls2[..|ls2| - 1]))
    requires Image(h, r1, ls1) == Image(h, r2, ls2)
    ensures Image(h, r1, ls1[..|ls1| - 1]) == Image(h, r2, ls2[..|ls2| - 1])
    ensures ls1[|ls1| - 1] == ls2[|ls2| - 1]
  {
    var n1, n2 := |ls1|, |ls2|;
    LayerNameInjective(h, Image(h, r1, ls1[..n1 - 1]), ls1[n1 - 1], n1, Image(h, r2, ls2[..n2 - 1]), ls2[n2 - 1], n2);
  }

  lemma ImageOfNone(h: string -> string, root: string)
    ensures Image(h, root, []) == root
  {
  }

  lemma PlainBelow(layers: seq<Layer>)
    requires PlainLayers(layers) && layers != []
    ensures PlainLayers(layers[..|layers| - 1])
  {
    hide PlainLayer;
  }

  /** Two chains with equal last names have the same base, the same disk and the same layers. */
  lemma {:induction false} LastNameFixesTheChain(
      h: string -> string, b1: string, d1: string, ls1: seq<Layer>, b2: string, d2: string, ls2: seq<Layer>)
    requires IdealDigest(h)
    requires IsBase(b1) && IsBase(b2) && Plain(b1) && Plain(b2) && Plain(d1) && Plain(d2)
    requires PlainLayers(ls1) && PlainLayers(ls2)
    requires Image(h, Root(b1, d1), ls1) == Image(h, Root(b2, d2), ls2)
    ensures b1 == b2 && d1 == d2 && ls1 == ls2
    decreases |ls1|
  {
    hide *;
    if ls1 == [] && ls2 == [] {
      ImageOfNone(h, Root(b1, d1));
      ImageOfNone(h, Root(b2, d2));
      RootInjective(b1, d1, b2, d2);
    } else if ls1 == [] {
      ImageOfNone(h, Root(b1, d1));
      OneIsEmpty(h, b1, d1, b2, d2, ls2);
    } else if ls2 == [] {
      ImageOfNone(h, Root(b2, d2));
      OneIsEmpty(h, b2, d2, b1, d1, ls1);
    } else {
      var n1, n2 := |ls1|, |ls2|;
      ImageIsParent(h, b1, d1, ls1[..n1 - 1]);
      ImageIsParent(h, b2, d2, ls2[..n2 - 1]);
      LastLayersAgree(h, Root(b1, d1), ls1, Root(b2, d2), ls2);
      PlainBelow(ls1);
      PlainBelow(ls2);
      LastNameFixesTheChain(h, b1, d1, ls1[..n1 - 1], b2, d2, ls2[..n2 - 1]);
      assert ls1 == ls1[..n1 - 1] + [ls1[n1 - 1]] && ls2 == ls2[..n2 - 1] + [ls2[n2 - 1]];
    }
  }

  /**
   An edit of layer `i` keeps names 0 to `i`, and shares none of the later names with
   the chain it was made from, at any position.
   */
  lemma EditRebuildsExactlyTheTail(h: string -> string, base: string, disk: string, ls1: seq<Layer>, ls2: seq<Layer>, i: nat)
    requires IdealDigest(h) && IsBase(base) && Plain(base) && Plain(disk)
    requires PlainLayers(ls1) && PlainLayers(ls2)
    requires i < |ls1| && i < |ls2| && ls1[..i] == ls2[..i] && ls1[i] != ls2[i]
    ensures var c1, c2 := ChainOf(h, base, disk, ls1), ChainOf(h, base, disk, ls2);
            && c1[..i + 1] == c2[..i + 1]
            && forall j, k :: i < j < |c1| && i < k < |c2| ==> c1[j] != c2[k]
  {
    hide Image, IdealDigest;
    var c1, c2 := ChainOf(h, base, disk, ls1), ChainOf(h, base, disk, ls2);
    forall k | 0 <= k <= i ensures c1[k] == c2[k] {
      assert ls1[..k] == ls1[..i][..k] && ls2[..k] == ls2[..i][..k];
    }
    forall j, k | i < j < |c1| && i < k < |c2| ensures c1[j] != c2[k] {
      assert ls1[..j][i] == ls1[i] && ls2[..k][i] == ls2[i];
      if c1[j] == c2[k] {
        LastNameFixesTheChain(h, base, disk, ls1[..j], base, disk, ls2[..k]);
      }
    }
  }

  // ------------------------------------------------- the loops that build them

  /** Writes some more NUL-terminated fields to the digest. */
  method Feed(text: string, ghost fields: seq<string>, more: seq<string>) returns (fed: string)
    requires text == Text(fields)
    ensures fed == Text(fields + more)
  {
    TextConcat(fields, more);
    fed := text + Text(more);
  }

  method FeedPairs(text: string, ghost fields: seq<string>, tag: string, vars: seq<Var>) returns (fed: string)
    requires text == Text(fields)
    ensures fed == Text(fields + PairFields(tag, vars))
  {
    hide Text;
    fed := text;
    ghost var done := fields;
    assert vars[0..] == vars;
    for i := 0 to |vars|
      invariant fed == Text(done) && done + PairFields(tag, vars[i..]) == fields + PairFields(tag, vars)
    {
      var more := [tag, vars[i].name, vars[i].value];
      fed := Feed(fed, done, more);
      assert vars[i..][1..] == vars[i + 1..];
      assert done + (more + PairFields(tag, vars[i + 1..])) == (done + more) + PairFields(tag, vars[i + 1..]);
      done := done + more;
    }
    assert done + [] == done;
  }

  method FeedSecrets(text: string, ghost fields: seq<string>, names: seq<string>) returns (fed: string)
    requires text == Text(fields)
    ensures fed == Text(fields + SecretFields(names))
  {
    hide Text;
    fed := text;
    ghost var done := fields;
    assert names[0..] == names;
    for i := 0 to |names|
      invariant fed == Text(done) && done + SecretFields(names[i..]) == fields + SecretFields(names)
    {
      var more := ["secret", names[i]];
      fed := Feed(fed, done, more);
      assert names[i..][1..] == names[i + 1..];
      assert done + (more + SecretFields(names[i + 1..])) == (done + more) + SecretFields(names[i + 1..]);
      done := done + more;
    }
    assert done + [] == done;
  }

  method FeedFiles(text: string, ghost fields: seq<string>, files: seq<File>) returns (fed: string)
    requires text == Text(fields)
    ensures fed == Text(fields + FileFields(files))
  {
    hide Text;
    fed := text;
    ghost var done := fields;
    assert files[0..] == files;
    for i := 0 to |files|
      invariant fed == Text(done) && done + FileFields(files[i..]) == fields + FileFields(files)
    {
      var more := ["file", files[i].dest, Octal(files[i].mode), files[i].digest];
      fed := Feed(fed, done, more);
      assert files[i..][1..] == files[i + 1..];
      assert done + (more + FileFields(files[i + 1..])) == (done + more) + FileFields(files[i + 1..]);
      done := done + more;
    }
    assert done + [] == done;
  }

  /** The fields as the loops feed them are the fields of the text. */
  lemma FieldsInOrder(parent: string, l: Layer)
    ensures ["parent", parent, "workdir", l.dir] + PairFields("env", l.env) + PairFields("arg", l.values)
            + SecretFields(l.secrets) + ["run", l.run] + FileFields(l.files)
            == ["parent", parent] + BodyFields(l)
  {
    hide PairFields, SecretFields, FileFields;
  }

  method LayerName(h: string -> string, parent: string, l: Layer, depth: nat) returns (name: string)
    ensures name == LayerNameOf(h, parent, l, depth)
  {
    hide Text, PairFields, SecretFields, FileFields, TwoDigits;
    var start := ["parent", parent, "workdir", l.dir];
    ghost var f1 := start + PairFields("env", l.env);
    ghost var f2 := f1 + PairFields("arg", l.values);
    ghost var f3 := f2 + SecretFields(l.secrets);
    ghost var f4 := f3 + ["run", l.run];
    var text := Text(start);
    text := FeedPairs(text, start, "env", l.env);
    text := FeedPairs(text, f1, "arg", l.values);
    text := FeedSecrets(text, f2, l.secrets);
    text := Feed(text, f3, ["run", l.run]);
    text := FeedFiles(text, f4, l.files);
    FieldsInOrder(parent, l);
    name := LAYER_PREFIX + TwoDigits(depth) + "-" + h(text);
  }

  method Chain(h: string -> string, base: string, disk: string, layers: seq<Layer>) returns (names: seq<string>)
    ensures names == ChainOf(h, base, disk, layers)
  {
    hide LayerNameOf, Root;
    names := [base];
    var parent := Root(base, disk);
    for i := 0 to |layers|
      invariant parent == Image(h, Root(base, disk), layers[..i])
      invariant |names| == i + 1 && names[0] == base
      invariant forall k :: 0 < k <= i ==> names[k] == Image(h, Root(base, disk), layers[..k])
    {
      assert layers[..i + 1][..i] == layers[..i];
      parent := LayerName(h, parent, layers[i], i + 1);
      names := names + [parent];
    }
    ghost var all := ChainOf(h, base, disk, layers);
    assert forall k :: 0 <= k < |all| ==> names[k] == all[k];
  }
}
