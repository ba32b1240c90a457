/**
 The Kranqfile: instructions folded, one by one, into layers by way of a pending layer;
 and what a Kranqfile is to mean, said position by position without any folding.
 */
module Kranqfile {
  import opened Prelude
  import opened Text

  // -------------------------------------------------------------------- arguments

  /** Splits at blanks outside quotes; quotes are dropped and may hold an empty field. */
  function Fields(s: string, cur: string, quote: Option<char>, held: bool): seq<string> {
    if s == [] then (if cur != [] || held then [cur] else [])
    else if quote.Some? && s[0] == quote.value then Fields(s[1..], cur, None, held)
    else if quote.None? && (s[0] == '\'' || s[0] == '"') then Fields(s[1..], cur, Some(s[0]), true)
    else if quote.None? && (s[0] == ' ' || s[0] == '\t') then
      (if cur != [] || held then [cur] else []) + Fields(s[1..], "", None, false)
    else Fields(s[1..], cur + [s[0]], quote, held)
  }

  datatype Var = Var(name: string, value: string)

  datatype Copy = Copy(sources: seq<string>, dest: string, workdir: string)

  datatype Layer = Layer(
    copies: seq<Copy>, workdir: string, env: seq<Var>, args: seq<Var>, secrets: seq<string>, run: string, line: nat)

  datatype Fault =
    | NotForKranqfiles | NoCommand | BadCopy | NotAbsolute | BadEnv | BadName | SecretWithDefault | NoValue | NotANumber
    | Unknown

  function ParseCopy(args: string): Result<Copy, Fault> {
    var parts := Fields(args, "", None, false);
    if |parts| < 2 then Err(BadCopy)
    else Ok(Copy(parts[..|parts| - 1], parts[|parts| - 1], ""))
  }

  function ParsePairs(parts: seq<string>): Result<seq<Var>, Fault> {
    if parts == [] then Ok([])
    else
      var cut := Cut(parts[0], '=');
      if !cut.2 || cut.0 == "" then Err(BadEnv)
      else
        var rest := ParsePairs(parts[1..]);
        if rest.Err? then rest else Ok([Var(cut.0, cut.1)] + rest.value)
  }

  /** Pairs when the first field has an '='; otherwise a name, and all that follows is its value. */
  function ParseEnv(args: string): Result<seq<Var>, Fault> {
    var parts := Fields(args, "", None, false);
    if parts == [] then Err(BadEnv)
    else if '=' !in parts[0] then
      if |parts| < 2 then Err(BadEnv)
      else
        var cut := Cut(Trim(args), ' ');
        Ok([Var(cut.0, Trim(cut.1))])
    else ParsePairs(parts)
  }

  predicate NameStart(c: char) { 'A' <= c <= 'Z' || 'a' <= c <= 'z' || c == '_' }

  predicate VarName(s: string) {
    s != [] && NameStart(s[0]) && forall c :: c in s ==> NameStart(c) || '0' <= c <= '9'
  }

  function ParseArg(args: string): Result<Var, Fault> {
    var parts := Fields(args, "", None, false);
    if |parts| != 1 then Err(BadName)
    else
      var cut := Cut(parts[0], '=');
      if VarName(cut.0) then Ok(Var(cut.0, cut.1)) else Err(BadName)
  }

  predicate Digits(s: string) { s != [] && forall c :: c in s ==> '0' <= c <= '9' }

  function NumberOf(s: string): nat {
    if s == [] then 0
    else NumberOf(s[..|s| - 1]) * 10 + (if '0' <= s[|s| - 1] <= '9' then (s[|s| - 1] - '0') as nat else 0)
  }

  /** A signed decimal that fits 64 bits. */
  function ParseInt(s: string): Option<int> {
    var signed := s != [] && (s[0] == '-' || s[0] == '+');
    var digits := if signed then s[1..] else s;
    if !Digits(digits) then None
    else
      var m: int := NumberOf(digits);
      var n := if signed && s[0] == '-' then -m else m;
      if -0x8000_0000_0000_0000 <= n < 0x8000_0000_0000_0000 then Some(n) else None
  }

  // ----------------------------------------------------------------- instructions

  /** Lines are counted from 1. */
  type Line = n: int | n > 0 witness 1

  /** `body` is a heredoc, "" for none. */
  datatype Instruction = Instruction(verb: string, args: string, body: string, line: Line) {
    function Script(): string { if body != "" then body else args }
  }

  const REFUSED: set<string> :=
    {"FROM", "CMD", "ENTRYPOINT", "EXPOSE", "VOLUME", "USER", "ADD", "LABEL", "HEALTHCHECK", "ONBUILD", "SHELL", "STOPSIGNAL"}

  /** What is wrong with an instruction, whatever stands around it. */
  function FaultOf(i: Instruction): Option<Fault> {
    if i.verb in REFUSED then Some(NotForKranqfiles)
    else if i.verb == "RUN" then (if Trim(i.Script()) == "" then Some(NoCommand) else None)
    else if i.verb == "COPY" then (if ParseCopy(i.args).Err? then Some(BadCopy) else None)
    else if i.verb == "WORKDIR" then (if ['/'] <= Trim(i.args) then None else Some(NotAbsolute))
    else if i.verb == "ENV" then (if ParseEnv(i.args).Err? then Some(BadEnv) else None)
    else if i.verb == "ARG" then (if ParseArg(i.args).Err? then Some(BadName) else None)
    else if i.verb == "SECRET" then
      if ParseArg(i.args).Err? then Some(BadName)
      else if ParseArg(i.args).value.value != "" then Some(SecretWithDefault)
      else None
    else if i.verb == "MEMORY" || i.verb == "DISK" || i.verb == "CPUS" then
      if Trim(i.args) == "" then Some(NoValue)
      else if i.verb == "CPUS" && ParseInt(Trim(i.args)).None? then Some(NotANumber)
      else None
    else Some(Unknown)
  }

  predicate Sound(ins: seq<Instruction>) {
    forall i :: 0 <= i < |ins| ==> FaultOf(ins[i]).None?
  }

  // ---------------------------------------------------------- what a file means

  predicate IsRun(ins: seq<Instruction>, p: nat)
    requires p < |ins|
  {
    ins[p].verb == "RUN"
  }

  predicate IsCopy(ins: seq<Instruction>, p: nat)
    requires p < |ins|
  {
    ins[p].verb == "COPY" && ParseCopy(ins[p].args).Ok?
  }

  /** What the last instruction of a kind before a position says, "" for none. */
  function Last(ins: seq<Instruction>, verb: string, p: nat): string
    requires p <= |ins|
  {
    if p == 0 then ""
    else if ins[p - 1].verb == verb then Trim(ins[p - 1].args)
    else Last(ins, verb, p - 1)
  }

  function WorkdirAt(ins: seq<Instruction>, p: nat): string
    requires p <= |ins|
  {
    Last(ins, "WORKDIR", p)
  }

  /** All ENV before a position, in order. */
  function EnvAt(ins: seq<Instruction>, p: nat): seq<Var>
    requires p <= |ins|
  {
    if p == 0 then []
    else if ins[p - 1].verb == "ENV" && ParseEnv(ins[p - 1].args).Ok? then
      EnvAt(ins, p - 1) + ParseEnv(ins[p - 1].args).value
    else EnvAt(ins, p - 1)
  }

  function ArgsAt(ins: seq<Instruction>, p: nat): seq<Var>
    requires p <= |ins|
  {
    if p == 0 then []
    else if ins[p - 1].verb == "ARG" && ParseArg(ins[p - 1].args).Ok? then
      ArgsAt(ins, p - 1) + [ParseArg(ins[p - 1].args).value]
    else ArgsAt(ins, p - 1)
  }

  function SecretsAt(ins: seq<Instruction>, p: nat): seq<string>
    requires p <= |ins|
  {
    if p == 0 then []
    else if ins[p - 1].verb == "SECRET" && ParseArg(ins[p - 1].args).Ok? then
      SecretsAt(ins, p - 1) + [ParseArg(ins[p - 1].args).value.name]
    else SecretsAt(ins, p - 1)
  }

  /** A COPY, with the WORKDIR in force where it stands. */
  function CopyAt(ins: seq<Instruction>, p: nat): Copy
    requires p < |ins| && IsCopy(ins, p)
  {
    ParseCopy(ins[p].args).value.(workdir := WorkdirAt(ins, p))
  }

  function CopiesIn(ins: seq<Instruction>, from: nat, end: nat): seq<Copy>
    requires end <= |ins|
  {
    if end <= from then []
    else if IsCopy(ins, end - 1) then CopiesIn(ins, from, end - 1) + [CopyAt(ins, end - 1)]
    else CopiesIn(ins, from, end - 1)
  }

  /** Just after the last RUN before a position. */
  function Since(ins: seq<Instruction>, p: nat): (q: nat)
    requires p <= |ins|
    ensures q <= p && (q > 0 ==> IsRun(ins, q - 1)) && forall r :: q <= r < p ==> !IsRun(ins, r)
  {
    if p == 0 || IsRun(ins, p - 1) then p else Since(ins, p - 1)
  }

  /** The line of the first COPY of a stretch; 0 when it has none. */
  function FirstCopyLine(ins: seq<Instruction>, from: nat, end: nat): nat
    requires end <= |ins|
  {
    if end <= from then 0
    else
      var before := FirstCopyLine(ins, from, end - 1);
      if before == 0 && IsCopy(ins, end - 1) then ins[end - 1].line else before
  }

  /** The layer of a RUN. */
  function RunLayer(ins: seq<Instruction>, p: nat): Layer
    requires p < |ins|
  {
    Layer(CopiesIn(ins, Since(ins, p), p), WorkdirAt(ins, p), EnvAt(ins, p), ArgsAt(ins, p), SecretsAt(ins, p),
          ins[p].Script(), ins[p].line)
  }

  /** What has gathered since the last RUN. */
  function Gathered(ins: seq<Instruction>, p: nat): Layer
    requires p <= |ins|
  {
    Layer(CopiesIn(ins, Since(ins, p), p), WorkdirAt(ins, p), EnvAt(ins, p), ArgsAt(ins, p), SecretsAt(ins, p),
          "", FirstCopyLine(ins, Since(ins, p), p))
  }

  function RunLayers(ins: seq<Instruction>, n: nat): seq<Layer>
    requires n <= |ins|
  {
    if n == 0 then [] else RunLayers(ins, n - 1) + if IsRun(ins, n - 1) then [RunLayer(ins, n - 1)] else []
  }

  /** One layer per RUN, and one more exactly when COPYs remain after the last. */
  function Reading(ins: seq<Instruction>): seq<Layer>
  {
    var rest := Gathered(ins, |ins|);
    RunLayers(ins, |ins|) + if rest.copies != [] then [rest] else []
  }

  /** The last CPUS before a position, 0 for none. */
  function CpusAt(ins: seq<Instruction>, p: nat): int
    requires p <= |ins|
  {
    if p == 0 then 0
    else if ins[p - 1].verb == "CPUS" && ParseInt(Trim(ins[p - 1].args)).Some? then
      ParseInt(Trim(ins[p - 1].args)).value
    else CpusAt(ins, p - 1)
  }

  // ---------------------------------------------------------------------- lemmas

  /** It is the last one of its kind that counts. */
  lemma {:induction false} LastIsTheLast(ins: seq<Instruction>, verb: string, q: nat, p: nat)
    requires q < p <= |ins| && ins[q].verb == verb && forall r :: q < r < p ==> ins[r].verb != verb
    ensures Last(ins, verb, p) == Trim(ins[q].args)
  {
    if q < p - 1 { LastIsTheLast(ins, verb, q, p - 1); }
  }

  lemma {:induction false} LastOfNone(ins: seq<Instruction>, verb: string, p: nat)
    requires p <= |ins| && forall r :: 0 <= r < p ==> ins[r].verb != verb
    ensures Last(ins, verb, p) == ""
  {
    if p > 0 { LastOfNone(ins, verb, p - 1); }
  }

  predicate SaysEnv(i: Instruction, v: Var) {
    i.verb == "ENV" && ParseEnv(i.args).Ok? && v in ParseEnv(i.args).value
  }

  predicate SaysArg(i: Instruction, v: Var) {
    i.verb == "ARG" && ParseArg(i.args) == Ok(v)
  }

  /** What a layer sees is exactly what some instruction before it says. */
  lemma {:induction false} EnvExactly(ins: seq<Instruction>, p: nat, v: Var)
    requires p <= |ins|
    ensures v in EnvAt(ins, p) <==> exists q :: 0 <= q < p && SaysEnv(ins[q], v)
  {
    hide ParseEnv;
    if p > 0 { EnvExactly(ins, p - 1, v); }
  }

  lemma {:induction false} ArgsExactly(ins: seq<Instruction>, p: nat, v: Var)
    requires p <= |ins|
    ensures v in ArgsAt(ins, p) <==> exists q :: 0 <= q < p && SaysArg(ins[q], v)
  {
    hide ParseArg;
    if p > 0 { ArgsExactly(ins, p - 1, v); }
  }

  lemma {:induction false} SecretsExactly(ins: seq<Instruction>, p: nat, name: string)
    requires p <= |ins|
    ensures name in SecretsAt(ins, p) <==>
              exists q :: 0 <= q < p && ins[q].verb == "SECRET" && ParseArg(ins[q].args).Ok?
                          && ParseArg(ins[q].args).value.name == name
  {
    if p > 0 { SecretsExactly(ins, p - 1, name); }
  }

  lemma {:induction false} CopiesExactly(ins: seq<Instruction>, from: nat, end: nat, c: Copy)
    requires from <= end <= |ins|
    ensures c in CopiesIn(ins, from, end) <==> exists q :: from <= q < end && IsCopy(ins, q) && CopyAt(ins, q) == c
  {
    if from < end { CopiesExactly(ins, from, end - 1, c); }
  }

  predicate Blank(c: char) { c == ' ' || c == '\t' }

  predicate Mark(c: char) { c == '\'' || c == '"' }

  predicate Bare(w: string) {
    w != [] && forall c :: c in w ==> !Blank(c) && !Mark(c)
  }

  /** A word as it may be written: bare, or between two quotation marks that it does not hold. */
  predicate Spells(raw: string, w: string) {
    (raw == w && Bare(w)) || exists q :: q in ['\'', '"'] && q !in w && raw == [q] + w + [q]
  }

  function Spaced(raws: seq<string>): string {
    if raws == [] then "" else if |raws| == 1 then raws[0] else raws[0] + " " + Spaced(raws[1..])
  }

  /** What is neither a blank nor a mark that counts goes into the field as it is. */
  lemma {:induction false} FieldTakes(w: string, rest: string, cur: string, quote: Option<char>, held: bool)
    requires forall c :: c in w ==> if quote.Some? then c != quote.value else !Blank(c) && !Mark(c)
    ensures Fields(w + rest, cur, quote, held) == Fields(rest, cur + w, quote, held)
  {
    if w == [] {
      assert w + rest == rest && cur + w == cur;
    } else {
      var s := w + rest;
      assert s[0] == w[0] && s[1..] == w[1..] + rest && w[0] in w;
      assert forall c :: c in w[1..] ==> c in w;
      FieldTakes(w[1..], rest, cur + [w[0]], quote, held);
      assert cur + [w[0]] + w[1..] == cur + w;
    }
  }

  lemma SpellingIsTaken(raw: string, w: string, rest: string)
    requires Spells(raw, w)
    ensures exists held :: (w != [] || held) && Fields(raw + rest, "", None, false) == Fields(rest, w, None, held)
  {
    if raw == w && Bare(w) {
      FieldTakes(w, rest, "", None, false);
      assert "" + w == w;
    } else {
      var q :| q in ['\'', '"'] && q !in w && raw == [q] + w + [q];
      var tail := [q] + rest;
      assert raw + rest == [q] + (w + tail);
      FieldTakes(w, tail, "", Some(q), true);
      assert "" + w == w && tail[1..] == rest;
      assert Fields(raw + rest, "", None, false) == Fields(w + tail, "", Some(q), true);
    }
  }

  /** Words written one by one come back, whatever is in them. */
  lemma {:induction false} FieldsAreTheWords(raws: seq<string>, words: seq<string>)
    requires |raws| == |words| && forall k :: 0 <= k < |raws| ==> Spells(raws[k], words[k])
    ensures Fields(Spaced(raws), "", None, false) == words
  {
    if |raws| == 1 {
      SpellingIsTaken(raws[0], words[0], "");
      assert raws[0] + "" == raws[0];
    } else if raws != [] {
      var rest := Spaced(raws[1..]);
      SpellingIsTaken(raws[0], words[0], " " + rest);
      assert raws[0] + (" " + rest) == raws[0] + " " + rest;
      assert (" " + rest)[1..] == rest;
      FieldsAreTheWords(raws[1..], words[1..]);
      assert [words[0]] + words[1..] == words;
    }
  }

  /** A COPY takes all its words but the last to where the last says; it needs one of each. */
  lemma CopyGoesToTheLast(raws: seq<string>, words: seq<string>)
    requires |raws| == |words| && forall k :: 0 <= k < |raws| ==> Spells(raws[k], words[k])
    ensures var copy := ParseCopy(Spaced(raws));
            if |words| < 2 then copy == Err(BadCopy)
            else copy.Ok? && copy.value.sources + [copy.value.dest] == words
  {
    FieldsAreTheWords(raws, words);
  }

  function Written(vars: seq<Var>): seq<string> {
    if vars == [] then [] else [vars[0].name + "=" + vars[0].value] + Written(vars[1..])
  }

  lemma {:induction false} PairsComeBack(vars: seq<Var>)
    requires forall v :: v in vars ==> v.name != "" && '=' !in v.name
    ensures ParsePairs(Written(vars)) == Ok(vars)
  {
    if vars != [] {
      CutAt(vars[0].name, '=', vars[0].value);
      PairsComeBack(vars[1..]);
      assert [vars[0]] + vars[1..] == vars;
    }
  }

  /** Variables written as NAME=value, each in quotes or bare, come back from ENV. */
  lemma EnvComesBack(raws: seq<string>, vars: seq<Var>)
    requires vars != [] && forall v :: v in vars ==> v.name != "" && '=' !in v.name
    requires |raws| == |Written(vars)| && forall k :: 0 <= k < |raws| ==> Spells(raws[k], Written(vars)[k])
    ensures ParseEnv(Spaced(raws)) == Ok(vars)
  {
    FieldsAreTheWords(raws, Written(vars));
    PairsComeBack(vars);
    assert '=' in Written(vars)[0];
  }

  /** An ARG or SECRET comes back exactly when its name is one. */
  lemma ArgComesBackExactly(raw: string, name: string, value: string)
    requires '=' !in name && (Spells(raw, name + "=" + value) || (Spells(raw, name) && value == ""))
    ensures ParseArg(raw) == if VarName(name) then Ok(Var(name, value)) else Err(BadName)
  {
    var word := if Spells(raw, name + "=" + value) then name + "=" + value else name;
    FieldsAreTheWords([raw], [word]);
    if word == name { CutNone(name, '='); } else { CutAt(name, '=', value); }
  }

  function RunsBefore(ins: seq<Instruction>, n: nat): nat
    requires n <= |ins|
  {
    if n == 0 then 0 else RunsBefore(ins, n - 1) + if IsRun(ins, n - 1) then 1 else 0
  }

  lemma {:induction false} RunLayersAt(ins: seq<Instruction>, n: nat, p: nat)
    requires n <= |ins|
    ensures |RunLayers(ins, n)| == RunsBefore(ins, n)
    ensures p < n && IsRun(ins, p) ==>
              RunsBefore(ins, p) < RunsBefore(ins, n) && RunLayers(ins, n)[RunsBefore(ins, p)] == RunLayer(ins, p)
  {
    if n > 0 {
      RunLayersAt(ins, n - 1, p);
      if p == n - 1 { RunLayersAt(ins, n - 1, 0); }
    }
  }

  /** The k-th RUN makes the k-th layer, and the layers are one more than the RUNs exactly when COPYs remain. */
  lemma EachRunItsLayer(ins: seq<Instruction>, p: nat)
    requires p < |ins| && IsRun(ins, p)
    ensures RunsBefore(ins, p) < |Reading(ins)| && Reading(ins)[RunsBefore(ins, p)] == RunLayer(ins, p)
    ensures |Reading(ins)| == RunsBefore(ins, |ins|) + (if CopiesIn(ins, Since(ins, |ins|), |ins|) != [] then 1 else 0)
  {
    RunLayersAt(ins, |ins|, p);
  }

  function AllCopies(layers: seq<Layer>): seq<Copy> {
    if layers == [] then [] else AllCopies(layers[..|layers| - 1]) + layers[|layers| - 1].copies
  }

  lemma {:induction false} CopiesJoin(ins: seq<Instruction>, from: nat, mid: nat, end: nat)
    requires from <= mid <= end <= |ins|
    ensures CopiesIn(ins, from, mid) + CopiesIn(ins, mid, end) == CopiesIn(ins, from, end)
    decreases end
  {
    if mid < end { CopiesJoin(ins, from, mid, end - 1); }
  }

  lemma {:induction false} RunLayersCopies(ins: seq<Instruction>, n: nat)
    requires n <= |ins|
    ensures AllCopies(RunLayers(ins, n)) == CopiesIn(ins, 0, Since(ins, n))
  {
    if n > 0 {
      RunLayersCopies(ins, n - 1);
      var before := RunLayers(ins, n - 1);
      if IsRun(ins, n - 1) {
        assert (before + [RunLayer(ins, n - 1)])[..|before|] == before;
        CopiesJoin(ins, 0, Since(ins, n - 1), n - 1);
      } else {
        assert before + [] == before;
      }
    }
  }

  lemma AllCopiesWith(layers: seq<Layer>, last: Layer)
    ensures AllCopies(layers + [last]) == AllCopies(layers) + last.copies
  {
    assert (layers + [last])[..|layers|] == layers;
  }

  /** The last layer is there exactly when there are COPYs for it. */
  lemma ReadingCopies(ins: seq<Instruction>)
    ensures AllCopies(Reading(ins)) == AllCopies(RunLayers(ins, |ins|)) + Gathered(ins, |ins|).copies
  {
    hide RunLayers, AllCopies, Gathered;
    var runs, rest := RunLayers(ins, |ins|), Gathered(ins, |ins|);
    AllCopiesWith(runs, rest);
    assert runs + [] == runs && AllCopies(runs) + [] == AllCopies(runs);
  }

  /** Every COPY lands in exactly one layer: the layers' COPYs, in order, are the file's. */
  lemma EveryCopyOnce(ins: seq<Instruction>)
    ensures AllCopies(Reading(ins)) == CopiesIn(ins, 0, |ins|)
  {
    hide AllCopies, Reading, RunLayers, CopiesIn, WorkdirAt, EnvAt, ArgsAt, SecretsAt, FirstCopyLine;
    ReadingCopies(ins);
    RunLayersCopies(ins, |ins|);
    CopiesJoin(ins, 0, Since(ins, |ins|), |ins|);
  }

  lemma {:induction false} Carried(ins: seq<Instruction>, p: nat, q: nat)
    requires p <= q <= |ins|
    ensures EnvAt(ins, p) <= EnvAt(ins, q) && ArgsAt(ins, p) <= ArgsAt(ins, q) && SecretsAt(ins, p) <= SecretsAt(ins, q)
    decreases q - p
  {
    if p < q { Carried(ins, p, q - 1); }
  }

  lemma BuildsNothing(ins: seq<Instruction>)
    requires Sound(ins)
    ensures Reading(ins) == [] <==> forall p :: 0 <= p < |ins| ==> ins[p].verb !in {"RUN", "COPY"}
  {
    EveryCopyOnce(ins);
    NoCopies(ins, 0, |ins|);
    forall p | 0 <= p < |ins|
      ensures (IsCopy(ins, p) || IsRun(ins, p)) <==> ins[p].verb in {"RUN", "COPY"}
    {
      assert FaultOf(ins[p]).None?;
    }
    if p :| 0 <= p < |ins| && IsRun(ins, p) {
      EachRunItsLayer(ins, p);
    } else {
      NoRuns(ins, |ins|);
    }
  }

  lemma {:induction false} NoCopies(ins: seq<Instruction>, from: nat, end: nat)
    requires from <= end <= |ins|
    ensures CopiesIn(ins, from, end) == [] <==> forall p :: from <= p < end ==> !IsCopy(ins, p)
  {
    if from < end { NoCopies(ins, from, end - 1); }
  }

  lemma {:induction false} NoRuns(ins: seq<Instruction>, n: nat)
    requires n <= |ins| && forall p :: 0 <= p < n ==> !IsRun(ins, p)
    ensures RunLayers(ins, n) == [] && Since(ins, n) == 0
  {
    if n > 0 { NoRuns(ins, n - 1); }
  }

  // ------------------------------------------------------------------------ parse

  datatype Error = Error(line: nat, fault: Fault) | NothingBuilt

  class Build {
    var memory: string
    var disk: string
    var cpus: int
    var layers: seq<Layer>
    /** What the next layer has so far. */
    var pending: Layer

    constructor ()
      ensures Holds([], 0)
    {
      memory, disk, cpus, layers := "", "", 0, [];
      pending := Layer([], "", [], [], [], "", 0);
    }

    /** The build after the first `n` instructions is what those mean. */
    ghost predicate Holds(ins: seq<Instruction>, n: nat)
      requires n <= |ins|
      reads this
    {
      && memory == Last(ins, "MEMORY", n) && disk == Last(ins, "DISK", n) && cpus == CpusAt(ins, n)
      && layers == RunLayers(ins, n) && pending == Gathered(ins, n)
    }

    /** One instruction, into the pending layer or, for a RUN, out of it. */
    method Apply(i: Instruction, ghost ins: seq<Instruction>, ghost n: nat) returns (e: Option<Fault>)
      requires n < |ins| && ins[n] == i && Holds(ins, n) && i.verb !in REFUSED
      modifies this
      ensures e == FaultOf(i)
      ensures e.None? ==> Holds(ins, n + 1)
    {
      match i.verb {
        case "RUN" =>
        var script := i.args;
        if i.body != "" { script := i.body; }
        if Trim(script) == "" { return Some(NoCommand); }
        layers := layers + [pending.(run := script, line := i.line)];
        pending := pending.(copies := [], line := 0);
        case "COPY" =>
        var copy := ParseCopy(i.args);
        if copy.Err? { return Some(BadCopy); }
        pending := pending.(
          copies := pending.copies + [copy.value.(workdir := pending.workdir)],
          line := if pending.line == 0 then i.line else pending.line);
        case "WORKDIR" =>
        var dir := Trim(i.args);
        if !(['/'] <= dir) { return Some(NotAbsolute); }
        pending := pending.(workdir := dir);
        case "ENV" =>
        var vars := ParseEnv(i.args);
        if vars.Err? { return Some(BadEnv); }
        pending := pending.(env := pending.env + vars.value);
        case "ARG" =>
        var arg := ParseArg(i.args);
        if arg.Err? { return Some(BadName); }
        pending := pending.(args := pending.args + [arg.value]);
        case "SECRET" =>
        var arg := ParseArg(i.args);
        if arg.Err? { return Some(BadName); }
        if arg.value.value != "" { return Some(SecretWithDefault); }
        pending := pending.(secrets := pending.secrets + [arg.value.name]);
        case _ =>
        e := Size(i, ins, n);
        return;
      }
      e := None;
    }

    method Size(i: Instruction, ghost ins: seq<Instruction>, ghost n: nat) returns (e: Option<Fault>)
      requires n < |ins| && ins[n] == i && Holds(ins, n) && i.verb !in REFUSED
      requires i.verb !in {"RUN", "COPY", "WORKDIR", "ENV", "ARG", "SECRET"}
      modifies this`memory, this`disk, this`cpus
      ensures e == FaultOf(i)
      ensures e.None? ==> Holds(ins, n + 1)
    {
      var value := Trim(i.args);
      if (i.verb == "MEMORY" || i.verb == "DISK" || i.verb == "CPUS") && value == "" { return Some(NoValue); }
      match i.verb {
        case "MEMORY" => memory := value;
        case "DISK" => disk := value;
        case "CPUS" =>
          var n := ParseInt(value);
          if n.None? { return Some(NotANumber); }
          cpus := n.value;
        case _ => return Some(Unknown);
      }
      e := None;
    }

    /**
     The whole fold: it gives the file's meaning, or the first fault on its line, or says
     that the file builds nothing.
     */
    method Parse(ins: seq<Instruction>) returns (e: Option<Error>)
      requires Holds(ins, 0)
      modifies this
      ensures e.None? <==> Sound(ins) && exists p :: 0 <= p < |ins| && ins[p].verb in {"RUN", "COPY"}
      ensures e.None? ==>
                && layers == Reading(ins) && memory == Last(ins, "MEMORY", |ins|) && disk == Last(ins, "DISK", |ins|)
                && cpus == CpusAt(ins, |ins|)
      ensures e == Some(NothingBuilt) ==> Sound(ins)
      ensures e.Some? && e.value.Error? ==>
                exists p :: 0 <= p < |ins| && Sound(ins[..p]) && FaultOf(ins[p]) == Some(e.value.fault) && ins[p].line == e.value.line
    {
      hide Last, CpusAt, EnvAt, ArgsAt, SecretsAt, CopiesIn, FirstCopyLine, RunLayers, ParseCopy, ParseEnv, ParseArg, ParseInt;
      for n := 0 to |ins|
        invariant Holds(ins, n) && Sound(ins[..n])
      {
        var i := ins[n];
        if i.verb in REFUSED { return Some(Error(i.line, NotForKranqfiles)); }
        var fault := Apply(i, ins, n);
        if fault.Some? { return Some(Error(i.line, fault.value)); }
        assert ins[..n + 1] == ins[..n] + [i];
      }
      assert ins[..|ins|] == ins;
      BuildsNothing(ins);
      if |pending.copies| > 0 { layers := layers + [pending]; }
      if layers == [] { return Some(NothingBuilt); }
      e := None;
    }
  }
}
