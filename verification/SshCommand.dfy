/**
 The forced command: what git sends over ssh, read back into a verb and a repository, or
 refused.
 */
module SshCommand {
  import opened Prelude
  import opened Text

  // --------------------------------------------------------------------- quoting

  const QUOTE := '\''
  const ESCAPED := "'\\''"

  function Escape(v: string): string {
    if v == [] then [] else (if v[0] == QUOTE then ESCAPED else [v[0]]) + Escape(v[1..])
  }

  /** Single quotes around, and each one inside closed, escaped and opened again. */
  function ShellQuote(v: string): string {
    [QUOTE] + Escape(v) + [QUOTE]
  }

  function After(built: string, rest: Option<string>): Option<string> {
    if rest.None? then None else Some(built + rest.value)
  }

  /** Undoes `Escape`; any other use of a quote is refused. */
  function Unescape(s: string): Option<string> {
    if s == [] then Some([])
    else if s[0] != QUOTE then After([s[0]], Unescape(s[1..]))
    else if ESCAPED <= s then After([QUOTE], Unescape(s[4..]))
    else None
  }

  datatype Refusal =
    | NoShell | NotGit | NotAllowed | NoRepository | NotQuoted | NotClosed | OddlyQuoted | NotAName | NoValue

  const SHELL_SYNTAX := " \t;|&$`<>()\\\"'\n"

  /** A repository argument with its quotes taken off. */
  function Unquote(v: string): Result<string, Refusal> {
    if v == "" then Err(NoRepository)
    else if v[0] != QUOTE then
      if exists c :: c in SHELL_SYNTAX && c in v then Err(NotQuoted) else Ok(v)
    else if v[|v| - 1] != QUOTE || |v| < 2 then Err(NotClosed)
    else
      var inner := Unescape(v[1..|v| - 1]);
      if inner.None? then Err(OddlyQuoted) else Ok(inner.value)
  }

  lemma {:induction false} UnescapesExactly(s: string, v: string)
    ensures Unescape(s) == Some(v) <==> s == Escape(v)
    decreases |s|
  {
    if s == [] {
      EscapeOfNone(v);
    } else if s[0] != QUOTE {
      if v != [] {
        UnescapesExactly(s[1..], v[1..]);
        assert s == [s[0]] + s[1..] && v == [v[0]] + v[1..];
        assert v[0] == QUOTE ==> Escape(v)[0] == QUOTE;
        assert v[0] != QUOTE ==> Escape(v)[0] == v[0] && Escape(v)[1..] == Escape(v[1..]);
      }
    } else if ESCAPED <= s {
      if v != [] {
        UnescapesExactly(s[4..], v[1..]);
        assert s == ESCAPED + s[4..] && v == [v[0]] + v[1..];
        assert v[0] == QUOTE ==> Escape(v)[4..] == Escape(v[1..]);
        assert v[0] != QUOTE ==> Escape(v)[0] == v[0];
      }
    } else {
      assert v != [] && v[0] == QUOTE ==> ESCAPED <= Escape(v);
      assert v != [] && v[0] != QUOTE ==> Escape(v)[0] == v[0];
    }
  }

  lemma EscapeOfNone(v: string)
    ensures Escape(v) == [] <==> v == []
  {
  }

  /** Of what starts with a quote, exactly the shell-quoted forms are accepted, each as what was quoted. */
  lemma UnquotesExactly(v: string, u: string)
    requires v != "" && v[0] == QUOTE
    ensures Unquote(v) == Ok(u) <==> v == ShellQuote(u)
  {
    var q := ShellQuote(u);
    assert q[0] == QUOTE && q[|q| - 1] == QUOTE && q[1..|q| - 1] == Escape(u);
    if |v| >= 2 && v[|v| - 1] == QUOTE {
      UnescapesExactly(v[1..|v| - 1], u);
      assert v == [QUOTE] + v[1..|v| - 1] + [QUOTE];
    }
  }

  // ----------------------------------------------------------------- repositories

  predicate Alnum(c: char) { 'a' <= c <= 'z' || 'A' <= c <= 'Z' || '0' <= c <= '9' }

  predicate NameChar(c: char) { Alnum(c) || c == '.' || c == '_' || c == '-' }

  predicate TwoDots(s: string) {
    exists i :: 0 <= i < |s| - 1 && s[i] == '.' && s[i + 1] == '.'
  }

  /** A plain name: what the pattern allows, without two dots in a row. */
  predicate PlainName(s: string) {
    1 <= |s| <= 64 && Alnum(s[0]) && (forall c :: c in s ==> NameChar(c)) && !TwoDots(s)
  }

  const GIT := ".git"

  /** The pattern is put to the name without its ".git". */
  predicate ValidRepo(name: string) {
    PlainName(TrimSuffix(name, GIT))
  }

  function TrimSlashesLeft(s: string): string {
    if s != [] && s[0] == '/' then TrimSlashesLeft(s[1..]) else s
  }

  function TrimSlashes(s: string): string {
    if s != [] && s[|s| - 1] == '/' then TrimSlashes(s[..|s| - 1]) else TrimSlashesLeft(s)
  }

  // -------------------------------------------------------------------- commands

  datatype Command = Command(verb: string, repo: string)

  const RECEIVE := "git-receive-pack"
  const UPLOAD := "git-upload-pack"

  function Finish(verb: string, rest: string): Result<Command, Refusal> {
    var path := Unquote(Trim(rest));
    if path.Err? then Err(path.error)
    else
      var repo := TrimSlashes(path.value);
      if '/' in repo || !ValidRepo(repo) then Err(NotAName) else Ok(Command(verb, TrimSuffix(repo, GIT)))
  }

  /** kranq's own flags, before the path; an unknown one is refused. */
  function TakeFlags(verb: string, rest: string): Result<(string, string), Refusal>
    decreases |rest|
  {
    var trimmed := Trim(rest);
    if !("-" <= trimmed) then Ok((verb, trimmed))
    else
      var cut := Cut(trimmed, ' ');
      TrimShrinks(rest);
      CutShrinks(trimmed, ' ');
      if cut.0 == "--upload" then TakeFlags(UPLOAD, cut.1)
      else if "--name=" <= cut.0 then TakeFlags(verb, cut.1)
      else if cut.0 == "--name" then
        var value := Cut(Trim(cut.1), ' ');
        TrimShrinks(cut.1);
        CutShrinks(Trim(cut.1), ' ');
        if value.2 then TakeFlags(verb, value.1) else Err(NoValue)
      else Err(NotAllowed)
  }

  /** git may be spelled with a space, and a client may ask for kranq itself. */
  function Parse(original: string): Result<Command, Refusal> {
    var trimmed := Trim(original);
    var first := Cut(trimmed, ' ');
    var sub := Cut(Trim(first.1), ' ');
    if trimmed == "" then Err(NoShell)
    else if !first.2 || (first.0 == "git" && !sub.2) then Err(NotGit)
    else
      var verb := if first.0 == "git" then "git-" + sub.0 else first.0;
      var rest := if first.0 == "git" then sub.1 else first.1;
      if EndsWith(verb, "/kranq") || verb == "kranq" then ForKranq(rest)
      else if verb != RECEIVE && verb != UPLOAD then Err(NotAllowed)
      else Finish(verb, rest)
  }

  function ForKranq(rest: string): Result<Command, Refusal> {
    var sub := Cut(Trim(rest), ' ');
    if !sub.2 then Err(NotGit)
    else if sub.0 != "git-receive" && sub.0 != "git-upload" then Err(NotAllowed)
    else
      var taken := TakeFlags(if sub.0 == "git-receive" then RECEIVE else UPLOAD, sub.1);
      if taken.Err? then Err(taken.error) else Finish(taken.value.0, taken.value.1)
  }

  lemma {:induction false} FlagsKeepTheVerb(verb: string, rest: string)
    requires TakeFlags(verb, rest).Ok?
    ensures var taken := TakeFlags(verb, rest).value;
            (taken.0 == verb || taken.0 == UPLOAD) && !("-" <= taken.1)
    decreases |rest|
  {
    var trimmed := Trim(rest);
    if "-" <= trimmed {
      var cut := Cut(trimmed, ' ');
      TrimShrinks(rest);
      CutShrinks(trimmed, ' ');
      TrimShrinks(cut.1);
      CutShrinks(Trim(cut.1), ' ');
      if cut.0 == "--upload" { FlagsKeepTheVerb(UPLOAD, cut.1); }
      else if "--name=" <= cut.0 { FlagsKeepTheVerb(verb, cut.1); }
      else { FlagsKeepTheVerb(verb, Cut(Trim(cut.1), ' ').1); }
    }
  }

  /** Whatever is accepted is a push or a fetch of a single plain name. */
  lemma AcceptedIsPlain(original: string)
    requires Parse(original).Ok?
    ensures var c := Parse(original).value;
            c.verb in {RECEIVE, UPLOAD} && PlainName(c.repo) && '/' !in c.repo
  {
    hide Trim, Cut, Unquote, TrimSlashes, TakeFlags, EndsWith;
    var first := Cut(Trim(original), ' ');
    var sub := Cut(Trim(first.1), ' ');
    var verb := if first.0 == "git" then "git-" + sub.0 else first.0;
    var rest := if first.0 == "git" then sub.1 else first.1;
    if EndsWith(verb, "/kranq") || verb == "kranq" {
      var inner := Cut(Trim(rest), ' ');
      FlagsKeepTheVerb(if inner.0 == "git-receive" then RECEIVE else UPLOAD, inner.1);
    }
  }

  lemma QuoteIsTight(v: string)
    ensures Trim(ShellQuote(v)) == ShellQuote(v)
    ensures Unquote(ShellQuote(v)) == Ok(v)
  {
    assert ShellQuote(v)[0] == QUOTE;
    TrimLeavesTight(ShellQuote(v));
    UnquotesExactly(ShellQuote(v), v);
  }

  lemma PathOfName(repo: string)
    requires PlainName(repo)
    ensures var name := TrimSlashes(['/'] + repo + GIT);
            name == repo + GIT && '/' !in name && TrimSuffix(name, GIT) == repo
  {
    var path := ['/'] + repo + GIT;
    assert path[|path| - 1] == GIT[3] == 't';
    assert path[1..] == repo + GIT;
    assert (repo + GIT)[0] == repo[0] != '/';
    assert TrimSlashesLeft(path[1..]) == path[1..] == repo + GIT && TrimSlashesLeft(path) == TrimSlashesLeft(path[1..]);
    assert (repo + GIT)[|repo|..] == GIT && (repo + GIT)[..|repo|] == repo;
    assert forall c :: c in GIT ==> c == '.' || c == 'g' || c == 'i' || c == 't';
  }

  lemma GitForm(verb: string, v: string)
    requires verb in {RECEIVE, UPLOAD}
    ensures Parse(verb + [' '] + ShellQuote(v)) == Finish(verb, ShellQuote(v))
  {
    hide Unescape, Unquote, Finish, Cut, Escape;
    var q := ShellQuote(v);
    var s := verb + [' '] + q;
    assert s[0] == 'g' && s[|s| - 1] == q[|q| - 1] == QUOTE;
    TrimLeavesTight(s);
    assert forall i :: 0 <= i < |verb| ==> verb[i] != ' ';
    CutAt(verb, ' ', q);
    assert verb[|verb| - 1] == 'k' && "/kranq"[5] == 'q' && "kranq"[0] == 'k' && verb[0] == 'g';
    EndsAlike(verb, "/kranq");
  }

  /**
   What git sends for a repository comes back as that verb and that repository exactly
   when the name, taken with a ".git" it may itself end in, is a plain one. `ValidRepo`
   is not enough: it looks at the name without its ".git".
   */
  lemma RoundTripExactly(verb: string, repo: string)
    requires verb in {RECEIVE, UPLOAD}
    ensures Parse(verb + [' '] + ShellQuote(['/'] + repo + GIT)) == Ok(Command(verb, repo)) <==> PlainName(repo)
  {
    hide Parse, Escape, Unescape, Unquote, Trim, ShellQuote, TrimSlashes;
    var path := ['/'] + repo + GIT;
    GitForm(verb, path);
    QuoteIsTight(path);
    if PlainName(repo) {
      PathOfName(repo);
    }
    if Parse(verb + [' '] + ShellQuote(path)) == Ok(Command(verb, repo)) {
      AcceptedIsPlain(verb + [' '] + ShellQuote(path));
    }
  }

  /** A valid name comes back unless it ends in ".git" and is not plain with that: too long, or a dot before it. */
  lemma ValidComesBackExactly(verb: string, repo: string)
    requires verb in {RECEIVE, UPLOAD} && ValidRepo(repo)
    ensures Parse(verb + [' '] + ShellQuote(['/'] + repo + GIT)) == Ok(Command(verb, repo))
            <==> !EndsWith(repo, GIT) || (|repo| <= 64 && repo[|repo| - 5] != '.')
  {
    RoundTripExactly(verb, repo);
    if EndsWith(repo, GIT) { ValidIsPlainExactly(repo); }
  }

  /** ".git" adds two dots in a row exactly after a dot. */
  lemma TwoDotsWithGit(stem: string)
    ensures TwoDots(stem + GIT) <==> TwoDots(stem) || (stem != "" && stem[|stem| - 1] == '.')
  {
    var s, n := stem + GIT, |stem|;
    assert s[n] == '.' && s[n + 1] == 'g' && s[n + 2] == 'i' && s[n + 3] == 't';
    if TwoDots(stem) {
      var i :| 0 <= i < n - 1 && stem[i] == '.' && stem[i + 1] == '.';
      assert s[i] == '.' && s[i + 1] == '.';
    }
    if stem != "" && stem[n - 1] == '.' { assert s[n - 1] == '.' && s[n - 1 + 1] == '.'; }
    if i :| 0 <= i < |s| - 1 && s[i] == '.' && s[i + 1] == '.' {
      assert i < n;
      if i < n - 1 { assert stem[i] == '.' && stem[i + 1] == '.'; }
    }
  }

  lemma ValidIsPlainExactly(repo: string)
    requires ValidRepo(repo) && EndsWith(repo, GIT)
    ensures PlainName(repo) <==> |repo| <= 64 && repo[|repo| - 5] != '.'
  {
    var stem := repo[..|repo| - 4];
    assert stem + GIT == repo && stem[|stem| - 1] == repo[|repo| - 5];
    TwoDotsWithGit(stem);
    forall c | c in repo ensures NameChar(c) {
      assert c in stem || c in GIT;
    }
  }

  // ------------------------------------------------------- the other two forms

  /** "git receive-pack", with a space, says the same. */
  lemma SpacedIsTheSame(sub: string, v: string)
    requires sub in {"receive-pack", "upload-pack"}
    ensures Parse("git " + sub + [' '] + ShellQuote(v)) == Parse("git-" + sub + [' '] + ShellQuote(v))
  {
    hide *;
    PackWords(sub);
    GitForm("git-" + sub, v);
    QuoteEnds(v);
    SpacedForm(sub, ShellQuote(v));
  }

  lemma QuoteEnds(v: string)
    ensures ShellQuote(v) != "" && !Space(ShellQuote(v)[|ShellQuote(v)| - 1])
  {
  }

  lemma SpacedForm(sub: string, q: string)
    requires sub in {"receive-pack", "upload-pack"} && q != "" && !Space(q[|q| - 1])
    ensures Parse("git " + sub + [' '] + q) == Finish("git-" + sub, q)
  {
    hide *;
    PackWords(sub);
    FirstWord(sub, q);
    GitAndRest(sub + [' '] + q);
    assert "git" + [' '] == "git ";
    assert "git " + sub + [' '] + q == "git" + [' '] + (sub + [' '] + q);
    GitWithSpace("git " + sub + [' '] + q, sub, q);
  }

  lemma GitAndRest(rest: string)
    requires rest != "" && !Space(rest[|rest| - 1])
    ensures Cut(Trim("git" + [' '] + rest), ' ') == ("git", rest, true) && Trim("git" + [' '] + rest) != ""
  {
    assert forall i :: 0 <= i < 3 ==> "git"[i] != ' ';
    FirstWord("git", rest);
  }

  lemma PackWords(sub: string)
    requires sub in {"receive-pack", "upload-pack"}
    ensures sub != "" && ' ' !in sub && !Space(sub[0])
    ensures "git-" + sub in {RECEIVE, UPLOAD}
  {
    assert forall i :: 0 <= i < |sub| ==> sub[i] != ' ';
    assert "git-" + sub == if sub == "receive-pack" then RECEIVE else UPLOAD;
  }

  lemma GitWithSpace(s: string, sub: string, q: string)
    requires Trim(s) != "" && Cut(Trim(s), ' ').0 == "git" && Cut(Trim(s), ' ').2
    requires Cut(Trim(Cut(Trim(s), ' ').1), ' ') == (sub, q, true) && sub in {"receive-pack", "upload-pack"}
    ensures Parse(s) == Finish("git-" + sub, q)
  {
    hide Trim, Cut, Finish;
    var verb := "git-" + sub;
    assert verb == if sub == "receive-pack" then RECEIVE else UPLOAD;
    assert verb[|verb| - 1] == 'k' && "/kranq"[5] == 'q' && "kranq"[0] == 'k' && verb[0] == 'g';
    EndsAlike(verb, "/kranq");
  }

  datatype Flag = ToUpload | Named(name: string) | NamedApart(name: string)

  predicate Flags(flags: seq<Flag>) {
    forall f :: f in flags ==>
      f.ToUpload? || (' ' !in f.name && (f.NamedApart? ==> f.name != "" && !Space(f.name[0])))
  }

  function FlagText(f: Flag): string {
    match f
    case ToUpload => "--upload"
    case Named(name) => "--name=" + name
    case NamedApart(name) => "--name " + name
  }

  function WithFlags(flags: seq<Flag>, path: string): string {
    if flags == [] then path else FlagText(flags[0]) + [' '] + WithFlags(flags[1..], path)
  }

  lemma {:induction false} FlagsAreTight(flags: seq<Flag>, v: string)
    ensures var s := WithFlags(flags, ShellQuote(v));
            s != "" && Trim(s) == s && s[|s| - 1] == QUOTE && ("-" <= s <==> flags != [])
  {
    var s := WithFlags(flags, ShellQuote(v));
    if flags == [] {
      QuoteIsTight(v);
    } else {
      FlagsAreTight(flags[1..], v);
      assert FlagText(flags[0])[0] == '-';
      TrimLeavesTight(s);
    }
  }

  /** Flags before a quoted path are all taken, and make a push a fetch exactly when one of them is --upload. */
  lemma {:induction false} FlagsAreTaken(verb: string, flags: seq<Flag>, v: string)
    requires Flags(flags)
    ensures TakeFlags(verb, WithFlags(flags, ShellQuote(v)))
            == Ok((if ToUpload in flags then UPLOAD else verb, ShellQuote(v)))
    decreases |flags|
  {
    hide *;
    WithFlagsIs(flags, ShellQuote(v));
    FlagsAreTight(flags, v);
    if flags == [] {
      TakesNone(verb, ShellQuote(v));
    } else {
      var rest := WithFlags(flags[1..], ShellQuote(v));
      FlagsAreTight(flags[1..], v);
      QuoteIsNoSpace();
      FlagsOf(flags);
      FlagIsTaken(verb, flags[0], rest);
      FlagsAreTaken(if flags[0].ToUpload? then UPLOAD else verb, flags[1..], v);
      assert flags == [flags[0]] + flags[1..];
    }
  }

  lemma WithFlagsIs(flags: seq<Flag>, path: string)
    ensures WithFlags(flags, path) == if flags == [] then path else FlagText(flags[0]) + [' '] + WithFlags(flags[1..], path)
  {
  }

  lemma QuoteIsNoSpace()
    ensures !Space(QUOTE)
  {
  }

  lemma FlagsOf(flags: seq<Flag>)
    requires Flags(flags) && flags != []
    ensures Flags([flags[0]]) && Flags(flags[1..])
  {
  }

  lemma TakesNone(verb: string, path: string)
    requires Trim(path) == path && !("-" <= path)
    ensures TakeFlags(verb, path) == Ok((verb, path))
  {
  }

  lemma FlagIsTaken(verb: string, f: Flag, rest: string)
    requires Flags([f]) && rest != "" && Trim(FlagText(f) + [' '] + rest) == FlagText(f) + [' '] + rest
    requires !Space(rest[|rest| - 1])
    ensures TakeFlags(verb, FlagText(f) + [' '] + rest) == TakeFlags(if f.ToUpload? then UPLOAD else verb, rest)
  {
    assert f in [f];
    var s := FlagText(f) + [' '] + rest;
    assert s[0] == '-';
    hide Trim, Cut;
    match f {
      case ToUpload =>
        assert forall i :: 0 <= i < 8 ==> "--upload"[i] != ' ';
        CutAt("--upload", ' ', rest);
      case Named(name) =>
        var word := "--name=" + name;
        assert forall i :: 0 <= i < 7 ==> "--name="[i] != ' ';
        assert "--name=" <= word && word[2] == 'n' && "--upload"[2] == 'u';
        CutAt(word, ' ', rest);
      case NamedApart(name) =>
        var after := name + [' '] + rest;
        assert s == "--name" + [' '] + after;
        assert forall i :: 0 <= i < 6 ==> "--name"[i] != ' ';
        assert !("--name=" <= "--name") && "--name"[2] == 'n' && "--upload"[2] == 'u';
        CutAt("--name", ' ', after);
        TrimLeavesTight(after);
        CutAt(name, ' ', rest);
    }
  }

  predicate Client(word: string) {
    (word == "kranq" || EndsWith(word, "/kranq")) && ' ' !in word && word != "" && !Space(word[0])
  }

  lemma KranqForm(client: string, sub: string, flags: seq<Flag>, v: string)
    requires Client(client) && sub in {"git-receive", "git-upload"} && Flags(flags)
    ensures Parse(client + [' '] + (sub + [' '] + WithFlags(flags, ShellQuote(v))))
            == Finish(if sub == "git-receive" && ToUpload !in flags then RECEIVE else UPLOAD, ShellQuote(v))
  {
    hide *;
    var tail := WithFlags(flags, ShellQuote(v));
    FlagsAreTight(flags, v);
    FlagsAreTaken(if sub == "git-receive" then RECEIVE else UPLOAD, flags, v);
    QuoteIsNoSpace();
    SubIsTaken(sub, tail);
    ClientIsTaken(client, sub + [' '] + tail);
  }

  lemma ClientIsTaken(client: string, rest: string)
    requires Client(client) && rest != "" && !Space(rest[|rest| - 1])
    ensures Parse(client + [' '] + rest) == ForKranq(rest)
  {
    EndsAlike(client, "/kranq");
    FirstWord(client, rest);
    assert "/kranq"[5] == 'q' && "git"[2] == 't' && "kranq"[4] == 'q';
    assert client[|client| - 1] == 'q' && client != "git";
    hide Trim, Cut, EndsWith, ForKranq, Finish;
  }

  lemma SubIsTaken(sub: string, tail: string)
    requires sub in {"git-receive", "git-upload"} && tail != "" && !Space(tail[|tail| - 1])
    ensures var taken := TakeFlags(if sub == "git-receive" then RECEIVE else UPLOAD, tail);
            taken.Ok? ==> ForKranq(sub + [' '] + tail) == Finish(taken.value.0, taken.value.1)
  {
    hide *;
    SubsAreWords();
    FirstWord(sub, tail);
    ForKranqIs(sub + [' '] + tail, sub, tail);
  }

  lemma ForKranqIs(rest: string, sub: string, tail: string)
    requires Cut(Trim(rest), ' ') == (sub, tail, true) && sub in {"git-receive", "git-upload"}
    ensures var taken := TakeFlags(if sub == "git-receive" then RECEIVE else UPLOAD, tail);
            taken.Ok? ==> ForKranq(rest) == Finish(taken.value.0, taken.value.1)
  {
    hide Trim, Cut, TakeFlags, Finish;
  }

  lemma SubsAreWords()
    ensures ' ' !in "git-receive" && ' ' !in "git-upload" && !Space('g') && "git-receive"[0] == "git-upload"[0] == 'g'
  {
    assert forall i :: 0 <= i < 11 ==> "git-receive"[i] != ' ';
    assert forall i :: 0 <= i < 10 ==> "git-upload"[i] != ' ';
  }

  lemma FirstWord(word: string, rest: string)
    requires ' ' !in word && word != "" && !Space(word[0]) && rest != "" && !Space(rest[|rest| - 1])
    ensures Cut(Trim(word + [' '] + rest), ' ') == (word, rest, true) && Trim(word + [' '] + rest) != ""
  {
    var s := word + [' '] + rest;
    assert s[0] == word[0] && s[|s| - 1] == rest[|rest| - 1];
    TrimLeavesTight(s);
    CutAt(word, ' ', rest);
  }

  /**
   A client that asks for kranq itself: with any of its flags, git-receive is a push unless
   one of them is --upload, and git-upload a fetch; of a plain name and nothing else.
   */
  lemma KranqComesBackExactly(client: string, sub: string, flags: seq<Flag>, repo: string)
    requires Client(client) && sub in {"git-receive", "git-upload"} && Flags(flags)
    ensures var verb := if sub == "git-receive" && ToUpload !in flags then RECEIVE else UPLOAD;
            Parse(client + [' '] + (sub + [' '] + WithFlags(flags, ShellQuote(['/'] + repo + GIT)))) == Ok(Command(verb, repo))
            <==> PlainName(repo)
  {
    hide *;
    var path := ['/'] + repo + GIT;
    var verb := if sub == "git-receive" && ToUpload !in flags then RECEIVE else UPLOAD;
    KranqForm(client, sub, flags, path);
    VerbsDiffer();
    GitForm(verb, path);
    RoundTripExactly(verb, repo);
  }

  lemma VerbsDiffer()
    ensures RECEIVE in {RECEIVE, UPLOAD} && UPLOAD in {RECEIVE, UPLOAD}
  {
  }

  // ----------------------------------------------------------------------- loops

  /** The inner text, character by character, into a builder. */
  method Unquoted(inner: string) returns (r: Option<string>)
    ensures r == Unescape(inner)
  {
    var built := "";
    var i := 0;
    assert inner[0..] == inner && (Unescape(inner).Some? ==> [] + Unescape(inner).value == Unescape(inner).value);
    while i < |inner|
      invariant 0 <= i <= |inner|
      invariant Unescape(inner) == After(built, Unescape(inner[i..]))
    {
      var rest := inner[i..];
      if inner[i] != QUOTE {
        AfterOne(built, inner[i], Unescape(rest[1..]));
        assert rest[1..] == inner[i + 1..];
        built := built + [inner[i]];
        i := i + 1;
      } else if ESCAPED <= rest {
        AfterOne(built, QUOTE, Unescape(rest[4..]));
        assert rest[4..] == inner[i + 4..];
        built := built + [QUOTE];
        i := i + 4;
      } else {
        return None;
      }
    }
    assert inner[i..] == [] && built + [] == built;
    r := Some(built);
  }

  lemma AfterOne(built: string, c: char, rest: Option<string>)
    ensures After(built, After([c], rest)) == After(built + [c], rest)
  {
    if rest.Some? { assert built + ([c] + rest.value) == built + [c] + rest.value; }
  }

  method FlagsTaken(verb: string, rest: string) returns (r: Result<(string, string), Refusal>)
    ensures r == TakeFlags(verb, rest)
  {
    var v, left := verb, rest;
    while true
      invariant TakeFlags(v, left) == TakeFlags(verb, rest)
      decreases |left|
    {
      var trimmed := Trim(left);
      TrimShrinks(left);
      CutShrinks(trimmed, ' ');
      if !("-" <= trimmed) { return Ok((v, trimmed)); }
      var cut := Cut(trimmed, ' ');
      TrimShrinks(cut.1);
      CutShrinks(Trim(cut.1), ' ');
      if cut.0 == "--upload" {
        v, left := UPLOAD, cut.1;
      } else if "--name=" <= cut.0 {
        left := cut.1;
      } else if cut.0 == "--name" {
        var value := Cut(Trim(cut.1), ' ');
        if !value.2 { return Err(NoValue); }
        left := value.1;
      } else {
        return Err(NotAllowed);
      }
    }
  }
}
