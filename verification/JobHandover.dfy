/**
 The handover between one task's job processes and the daemon: a result file that a job
 renames into place, a process group id in the store, and a daemon that polls both while
 jobs move on by themselves.
 */
module JobHandover {
  import opened Prelude

  /** A result, with the attempt that wrote it. */
  datatype Report = Report(attempt: nat, code: int, error: string)

  datatype Stage = Working | Written | Gone

  /** `outcome` is what the process has renamed into place. */
  datatype Job = Job(stage: Stage, outcome: Option<Report>)

  /** The process of attempt n is `jobs[n - 1]`, and n is its group id; 0 is no process. */
  datatype World = World(file: Option<Report>, jobs: seq<Job>, pgid: nat)

  datatype Move = Write(attempt: nat, code: int, error: string) | Exit(attempt: nat)

  const STARTED := Job(Working, None)

  /** A job's own progress: it writes its result once, and exits with or without that. */
  function Apply(w: World, m: Move): World {
    if !(1 <= m.attempt <= |w.jobs|) then w
    else
      var job := w.jobs[m.attempt - 1];
      match m
      case Write(n, code, error) =>
        if !job.stage.Working? then w
        else
          var r := Report(n, code, error);
          w.(file := Some(r), jobs := w.jobs[n - 1 := Job(Written, Some(r))])
      case Exit(n) => w.(jobs := w.jobs[n - 1 := job.(stage := Gone)])
  }

  function Meanwhile(w: World, moves: seq<Move>): (r: World)
    ensures |r.jobs| == |w.jobs| && r.pgid == w.pgid
    decreases |moves|
  {
    if moves == [] then w else Meanwhile(Apply(w, moves[0]), moves[1..])
  }

  predicate Alive(w: World, pid: nat) {
    1 <= pid <= |w.jobs| && !w.jobs[pid - 1].stage.Gone?
  }

  /** A result in place was put there by the attempt it names. */
  predicate Valid(w: World) {
    && (forall n :: 0 <= n < |w.jobs| && w.jobs[n].stage.Working? ==> w.jobs[n].outcome.None?)
    && (forall n :: 0 <= n < |w.jobs| && w.jobs[n].outcome.Some? ==> w.jobs[n].outcome.value.attempt == n + 1)
    && (w.file.Some? ==> 1 <= w.file.value.attempt <= |w.jobs| && w.jobs[w.file.value.attempt - 1].outcome == w.file)
    && w.pgid <= |w.jobs|
  }

  /** Jobs only move forward, and a result is in place whenever one has been written since. */
  predicate Later(w: World, w': World) {
    && |w'.jobs| == |w.jobs| && w'.pgid == w.pgid
    && (w.file.Some? ==> w'.file.Some?)
    && forall n :: 0 <= n < |w.jobs| ==>
         && (w.jobs[n].stage.Gone? ==> w'.jobs[n] == w.jobs[n])
         && (!w.jobs[n].stage.Working? ==> w'.jobs[n].outcome == w.jobs[n].outcome && !w'.jobs[n].stage.Working?)
         && (w.jobs[n].outcome.None? && w'.jobs[n].outcome.Some? ==> w'.file.Some?)
  }

  /** A result that appears is the old one, or that of a job that was still at work. */
  predicate FileOf(w: World, w': World) {
    w'.file.Some? ==>
      w'.file == w.file || (1 <= w'.file.value.attempt <= |w.jobs| && w.jobs[w'.file.value.attempt - 1].stage.Working?)
  }

  lemma {:induction false} JobsMoveOn(w: World, moves: seq<Move>)
    requires Valid(w)
    ensures Valid(Meanwhile(w, moves)) && Later(w, Meanwhile(w, moves)) && FileOf(w, Meanwhile(w, moves))
    decreases |moves|
  {
    if moves != [] {
      JobMovesOn(w, moves[0]);
      JobsMoveOn(Apply(w, moves[0]), moves[1..]);
      hide Valid, Apply;
    }
  }

  lemma JobMovesOn(w: World, m: Move)
    requires Valid(w)
    ensures Valid(Apply(w, m)) && Later(w, Apply(w, m)) && FileOf(w, Apply(w, m))
  {
  }

  lemma LaterChain(a: World, b: World, c: World)
    requires Later(a, b) && Later(b, c)
    ensures Later(a, c)
  {
  }

  // ------------------------------------------------------------------- adopting

  /** Two looks, at the result and then at the process, with `between` in the middle. */
  function Adoptable(w: World, between: seq<Move>): bool {
    w.file.Some? || Alive(Meanwhile(w, between), w.pgid)
  }

  /** The job writes its result and then exits. */
  predicate WritesThenExits(moves: seq<Move>, n: nat) {
    if moves == [] || moves[0] == Exit(n) then false
    else if moves[0].Write? && moves[0].attempt == n then Exit(n) in moves[1..]
    else WritesThenExits(moves[1..], n)
  }

  lemma {:induction false} ExitsIfItExits(w: World, moves: seq<Move>, n: nat)
    requires Valid(w) && 1 <= n <= |w.jobs|
    ensures w.jobs[n - 1].stage.Gone? || Exit(n) in moves <==> Meanwhile(w, moves).jobs[n - 1].stage.Gone?
    decreases |moves|
  {
    if moves != [] {
      JobMovesOn(w, moves[0]);
      ExitsIfItExits(Apply(w, moves[0]), moves[1..], n);
      assert moves == [moves[0]] + moves[1..];
    }
  }

  lemma {:induction false} WrittenAndGone(w: World, moves: seq<Move>, n: nat)
    requires Valid(w) && 1 <= n <= |w.jobs| && w.jobs[n - 1].outcome.None?
    ensures var job := Meanwhile(w, moves).jobs[n - 1];
            job.outcome.Some? && job.stage.Gone? <==> w.jobs[n - 1].stage.Working? && WritesThenExits(moves, n)
    decreases |moves|
  {
    if moves != [] {
      var next := Apply(w, moves[0]);
      JobMovesOn(w, moves[0]);
      JobsMoveOn(next, moves[1..]);
      if moves[0].Write? && moves[0].attempt == n {
        ExitsIfItExits(next, moves[1..], n);
        if !w.jobs[n - 1].stage.Working? { WrittenAndGone(next, moves[1..], n); }
      } else {
        WrittenAndGone(next, moves[1..], n);
      }
    }
  }

  /**
   `Adoptable` loses a job's result exactly when the job is still at work at the first
   look, and both writes its result and exits before the second.
   */
  lemma AdoptableLosesExactly(w: World, between: seq<Move>)
    requires Valid(w) && 0 < w.pgid <= |w.jobs| && w.file.None? && w.jobs[w.pgid - 1].outcome.None?
    ensures !Adoptable(w, between) && Meanwhile(w, between).jobs[w.pgid - 1].outcome.Some?
            <==> w.jobs[w.pgid - 1].stage.Working? && WritesThenExits(between, w.pgid)
  {
    JobsMoveOn(w, between);
    WrittenAndGone(w, between, w.pgid);
  }

  // ------------------------------------------------------------------- launching

  /** A launch: 1 clears the old result, 2 starts the process, 3 puts its group id in the store. */
  function Act(w: World, step: nat): World {
    if step == 1 then w.(file := None)
    else if step == 2 then w.(jobs := w.jobs + [STARTED])
    else if step == 3 then w.(pgid := |w.jobs|)
    else w
  }

  /** A launch up to a step; `ms` is what jobs do after each. */
  function Launch(w: World, ms: nat -> seq<Move>, step: nat): World {
    Meanwhile(if step == 0 then w else Act(Launch(w, ms, step - 1), step), ms(step))
  }

  /** No earlier job is still at work. */
  predicate Quiet(w: World) {
    forall n :: 0 <= n < |w.jobs| ==> !w.jobs[n].stage.Working?
  }

  ghost predicate AtStep(w: World, at: World, step: nat) {
    && Valid(at) && at.pgid == (if step == 3 then |at.jobs| else 0)
    && |at.jobs| == |w.jobs| + (if step >= 2 then 1 else 0)
    && (forall n :: 0 <= n < |w.jobs| ==> !at.jobs[n].stage.Working?)
    && (step == 0 ==> at.file == w.file)
    && (step == 1 ==> at.file.None?)
    && (step >= 2 ==> at.file == at.jobs[|w.jobs|].outcome)
  }

  lemma MovesKeepStep(w: World, at: World, moves: seq<Move>, step: nat)
    requires AtStep(w, at, step) && step <= 3
    ensures AtStep(w, Meanwhile(at, moves), step)
  {
    JobsMoveOn(at, moves);
    hide Meanwhile;
  }

  lemma ActTakesStep(w: World, at: World, step: nat)
    requires AtStep(w, at, step) && step < 3
    ensures AtStep(w, Act(at, step + 1), step + 1)
  {
  }

  lemma {:induction false} LaunchSteps(w: World, ms: nat -> seq<Move>, step: nat)
    requires Valid(w) && Quiet(w) && w.pgid == 0 && step <= 3
    ensures AtStep(w, Launch(w, ms, step), step)
  {
    if step == 0 {
      MovesKeepStep(w, w, ms(0), 0);
    } else {
      LaunchSteps(w, ms, step - 1);
      ActTakesStep(w, Launch(w, ms, step - 1), step - 1);
      hide AtStep, Act;
      MovesKeepStep(w, Act(Launch(w, ms, step - 1), step), ms(step), step);
    }
  }

  /**
   A daemon that dies during a launch and comes back. The first look finds an earlier
   attempt's result exactly when it died before clearing it, so adopting may report that
   one. And a process at work is taken for gone exactly when it died between starting the
   process and storing its group id.
   */
  lemma RestartDuringLaunchExactly(w: World, ms: nat -> seq<Move>, step: nat)
    requires Valid(w) && Quiet(w) && w.pgid == 0 && step <= 3
    ensures var at := Launch(w, ms, step);
            && (at.file.Some? && at.file.value.attempt <= |w.jobs| <==> step == 0 && w.file.Some?)
            && (!Adoptable(at, []) && (exists n :: 0 <= n < |at.jobs| && at.jobs[n].stage.Working?)
                <==> step == 2 && |at.jobs| > |w.jobs| && at.jobs[|w.jobs|].stage.Working?)
  {
    var at := Launch(w, ms, step);
    LaunchSteps(w, ms, step);
    hide Launch;
    if step >= 2 {
      assert at.file.Some? ==> at.jobs[at.file.value.attempt - 1].outcome.Some?;
    }
  }

  // ------------------------------------------------------------- the supervisor

  lemma FileOfChain(a: World, b: World, c: World)
    requires Later(a, b) && FileOf(a, b) && FileOf(b, c)
    ensures FileOf(a, c)
  {
  }

  datatype Ending = Reported(report: Report) | NoResult | Interrupted | NotStarted

  /**
   What jobs do before the first look at the result, before the look at the process, and
   before the last look or the next round.
   */
  datatype Looks = Looks(first: seq<Move>, second: seq<Move>, third: seq<Move>)

  function AtFirst(w: World, l: Looks): (r: World)
    ensures |r.jobs| == |w.jobs|
  {
    Meanwhile(w, l.first)
  }

  function AtSecond(w: World, l: Looks): (r: World)
    ensures |r.jobs| == |w.jobs|
  {
    Meanwhile(AtFirst(w, l), l.second)
  }

  function AtThird(w: World, l: Looks): (r: World)
    ensures |r.jobs| == |w.jobs|
  {
    Meanwhile(AtSecond(w, l), l.third)
  }

  /** The world after so many rounds. */
  function Waiting(w: World, looks: nat -> Looks, n: nat): (r: World)
    ensures |r.jobs| == |w.jobs|
  {
    if n == 0 then w else AtThird(Waiting(w, looks, n - 1), looks(n - 1))
  }

  /** A round that finds no result, and then the job alive. */
  predicate Silent(w: World, pid: nat, l: Looks) {
    AtFirst(w, l).file.None? && Alive(AtSecond(w, l), pid)
  }

  /** What a round that is not silent ends in. */
  function EndOf(w: World, l: Looks): Ending {
    if AtFirst(w, l).file.Some? then Reported(AtFirst(w, l).file.value)
    else if AtThird(w, l).file.Some? then Reported(AtThird(w, l).file.value)
    else NoResult
  }

  lemma RoundMovesOn(w: World, l: Looks)
    requires Valid(w)
    ensures Valid(AtFirst(w, l)) && Later(w, AtFirst(w, l))
    ensures Valid(AtThird(w, l)) && Later(w, AtThird(w, l)) && FileOf(w, AtThird(w, l)) && Later(AtFirst(w, l), AtThird(w, l))
  {
    JobsMoveOn(w, l.first);
    JobsMoveOn(AtFirst(w, l), l.second);
    JobsMoveOn(AtSecond(w, l), l.third);
    hide Meanwhile, Valid, Later, FileOf;
    LaterChain(w, AtFirst(w, l), AtSecond(w, l));
    FileOfChain(w, AtFirst(w, l), AtSecond(w, l));
    LaterChain(w, AtSecond(w, l), AtThird(w, l));
    FileOfChain(w, AtSecond(w, l), AtThird(w, l));
    LaterChain(AtFirst(w, l), AtSecond(w, l), AtThird(w, l));
  }

  lemma {:induction false} WaitingMovesOn(w: World, looks: nat -> Looks, j: nat, k: nat)
    requires Valid(w) && j <= k
    ensures Valid(Waiting(w, looks, k)) && Later(Waiting(w, looks, j), Waiting(w, looks, k))
    decreases k, k - j
  {
    hide Valid, Later, FileOf, AtThird;
    if k == 0 {
      LaterSelf(w);
    } else if j == k {
      WaitingMovesOn(w, looks, k - 1, k - 1);
      RoundMovesOn(Waiting(w, looks, k - 1), looks(k - 1));
      LaterSelf(Waiting(w, looks, k));
    } else {
      WaitingMovesOn(w, looks, j, k - 1);
      RoundMovesOn(Waiting(w, looks, k - 1), looks(k - 1));
      LaterChain(Waiting(w, looks, j), Waiting(w, looks, k - 1), Waiting(w, looks, k));
    }
  }

  /** What `await` comes to: the end of its first round that is not silent, if that is before the deadline. */
  ghost predicate Awaits(w: World, pid: nat, looks: nat -> Looks, deadline: nat, e: Ending) {
    if e.Interrupted? then forall k :: 0 <= k < deadline ==> Silent(Waiting(w, looks, k), pid, looks(k))
    else exists k :: 0 <= k < deadline && EndsAt(w, pid, looks, k, e)
  }

  ghost predicate EndsAt(w: World, pid: nat, looks: nat -> Looks, k: nat, e: Ending) {
    && (forall j :: 0 <= j < k ==> Silent(Waiting(w, looks, j), pid, looks(j)))
    && !Silent(Waiting(w, looks, k), pid, looks(k)) && e == EndOf(Waiting(w, looks, k), looks(k))
  }

  /**
   A job that has written its result by the first look of some round before the deadline
   is reported, unless its result had been cleared away before the wait began.
   */
  lemma WrittenIsReported(w: World, pid: nat, looks: nat -> Looks, deadline: nat, e: Ending, k: nat)
    requires Valid(w) && 1 <= pid <= |w.jobs| && k < deadline && Awaits(w, pid, looks, deadline, e)
    requires AtFirst(Waiting(w, looks, k), looks(k)).jobs[pid - 1].outcome.Some?
    requires w.file.Some? || w.jobs[pid - 1].outcome.None?
    ensures e.Reported?
  {
    hide *;
    NotSilentWhenWritten(w, pid, looks, k);
    if !e.Reported? {
      EndsBefore(w, pid, looks, deadline, e, k);
      assert false;
    }
  }

  /** The first look of a round whose job has written finds a result. */
  lemma NotSilentWhenWritten(w: World, pid: nat, looks: nat -> Looks, k: nat)
    requires Valid(w) && 1 <= pid <= |w.jobs|
    requires AtFirst(Waiting(w, looks, k), looks(k)).jobs[pid - 1].outcome.Some?
    requires w.file.Some? || w.jobs[pid - 1].outcome.None?
    ensures AtFirst(Waiting(w, looks, k), looks(k)).file.Some?
    ensures !Silent(Waiting(w, looks, k), pid, looks(k))
  {
    var v := Waiting(w, looks, k);
    var at := AtFirst(v, looks(k));
    WaitingMovesOn(w, looks, 0, k);
    RoundMovesOn(v, looks(k));
    FirstIsWaiting(w, looks);
    LaterChain(w, v, at);
    hide Waiting, AtFirst, AtSecond, AtThird, Valid, FileOf;
  }

  lemma FirstIsWaiting(w: World, looks: nat -> Looks)
    ensures Waiting(w, looks, 0) == w
  {
  }

  /** A wait that ends without a report had a round, no later than any that is not silent, that ended in no result. */
  lemma EndsBefore(w: World, pid: nat, looks: nat -> Looks, deadline: nat, e: Ending, k: nat)
    requires Valid(w) && 1 <= pid <= |w.jobs| && k < deadline && Awaits(w, pid, looks, deadline, e) && !e.Reported?
    requires !Silent(Waiting(w, looks, k), pid, looks(k)) && AtFirst(Waiting(w, looks, k), looks(k)).file.Some?
    requires w.file.Some? || w.jobs[pid - 1].outcome.None?
    ensures AtFirst(Waiting(w, looks, k), looks(k)).jobs[pid - 1].outcome.None?
  {
    hide Waiting, Silent, AtFirst, AtSecond, AtThird, Valid;
    var j :| 0 <= j < deadline && EndsAt(w, pid, looks, j, e);
    assert j <= k;
    EndedWithout(w, pid, looks, j);
    hide EndsAt;
    if j < k { StaysWithout(w, pid, looks, j, k); } else { EndWasNoReport(w, looks, k, pid); }
  }

  lemma EndWasNoReport(w: World, looks: nat -> Looks, k: nat, pid: nat)
    requires EndsAt(w, pid, looks, k, NoResult)
    ensures AtFirst(Waiting(w, looks, k), looks(k)).file.None?
  {
    hide Waiting, Silent, AtFirst, AtSecond, AtThird;
  }

  /** Where a wait ends in no result, the job is gone and has left none. */
  lemma EndedWithout(w: World, pid: nat, looks: nat -> Looks, j: nat)
    requires Valid(w) && 1 <= pid <= |w.jobs| && EndsAt(w, pid, looks, j, NoResult)
    requires w.file.Some? || w.jobs[pid - 1].outcome.None?
    ensures Waiting(w, looks, j + 1).file.None? && Waiting(w, looks, j + 1).jobs[pid - 1] == Job(Gone, None)
  {
    hide *;
    var u := Waiting(w, looks, j);
    EndsAtMeans(w, pid, looks, j, NoResult);
    NextIsWaiting(w, looks, j);
    FirstIsWaiting(w, looks);
    WaitingMovesOn(w, looks, 0, j);
    WaitingMovesOn(w, looks, 0, j + 1);
    EndIsGone(u, pid, looks(j));
    NoneLeft(w, Waiting(w, looks, j + 1), pid);
  }

  lemma EndsAtMeans(w: World, pid: nat, looks: nat -> Looks, k: nat, e: Ending)
    requires EndsAt(w, pid, looks, k, e)
    ensures !Silent(Waiting(w, looks, k), pid, looks(k)) && e == EndOf(Waiting(w, looks, k), looks(k))
  {
    hide Waiting, Silent, EndOf;
  }

  lemma EndsHere(w: World, pid: nat, looks: nat -> Looks, deadline: nat, k: nat, e: Ending)
    requires k < deadline && !e.Interrupted? && forall j :: 0 <= j < k ==> Silent(Waiting(w, looks, j), pid, looks(j))
    requires !Silent(Waiting(w, looks, k), pid, looks(k)) && e == EndOf(Waiting(w, looks, k), looks(k))
    ensures Awaits(w, pid, looks, deadline, e)
  {
    hide Waiting, Silent, EndOf;
    assert EndsAt(w, pid, looks, k, e);
  }

  lemma AllSilent(w: World, pid: nat, looks: nat -> Looks, deadline: nat)
    requires forall k :: 0 <= k < deadline ==> Silent(Waiting(w, looks, k), pid, looks(k))
    ensures Awaits(w, pid, looks, deadline, Interrupted)
  {
    hide Waiting, Silent;
  }

  lemma NextIsWaiting(w: World, looks: nat -> Looks, j: nat)
    ensures Waiting(w, looks, j + 1) == AtThird(Waiting(w, looks, j), looks(j))
  {
  }

  lemma NoneLeft(w: World, end: World, pid: nat)
    requires Later(w, end) && 1 <= pid <= |w.jobs| && end.file.None? && end.jobs[pid - 1].stage.Gone?
    requires w.file.Some? || w.jobs[pid - 1].outcome.None?
    ensures end.jobs[pid - 1] == Job(Gone, None)
  {
  }

  lemma EndIsGone(u: World, pid: nat, l: Looks)
    requires Valid(u) && 1 <= pid <= |u.jobs| && !Silent(u, pid, l) && EndOf(u, l) == NoResult
    ensures AtThird(u, l).file.None? && AtThird(u, l).jobs[pid - 1].stage.Gone?
  {
    JobsMoveOn(u, l.first);
    JobsMoveOn(AtFirst(u, l), l.second);
    JobsMoveOn(AtSecond(u, l), l.third);
    hide Meanwhile, Valid, FileOf;
  }

  lemma StaysWithout(w: World, pid: nat, looks: nat -> Looks, j: nat, k: nat)
    requires Valid(w) && 1 <= pid <= |w.jobs| && j < k && Waiting(w, looks, j + 1).jobs[pid - 1] == Job(Gone, None)
    ensures AtFirst(Waiting(w, looks, k), looks(k)).jobs[pid - 1].outcome.None?
  {
    var end, v := Waiting(w, looks, j + 1), Waiting(w, looks, k);
    WaitingMovesOn(w, looks, j + 1, k);
    RoundMovesOn(v, looks(k));
    LaterChain(end, v, AtFirst(v, looks(k)));
    hide Waiting, AtFirst, AtSecond, AtThird, Valid, FileOf;
  }

  /** The job has written its result by the first look of some round before the deadline. */
  ghost predicate WrittenByDeadline(w: World, pid: nat, looks: nat -> Looks, deadline: nat)
    requires 1 <= pid <= |w.jobs|
  {
    exists k :: 0 <= k < deadline && AtFirst(Waiting(w, looks, k), looks(k)).jobs[pid - 1].outcome.Some?
  }

  /** A stored job, whose result is in place or not yet written. */
  predicate Adopting(w: World) {
    1 <= w.pgid <= |w.jobs| && (w.file.Some? || w.jobs[w.pgid - 1].outcome.None?)
  }

  /** The stored job has exited without writing a result. */
  predicate GoneWithout(w: World) {
    1 <= w.pgid <= |w.jobs| && w.jobs[w.pgid - 1] == Job(Gone, None)
  }

  lemma ReportedByDeadline(w: World, pid: nat, looks: nat -> Looks, deadline: nat, e: Ending)
    requires Valid(w) && 1 <= pid <= |w.jobs| && Awaits(w, pid, looks, deadline, e)
    requires WrittenByDeadline(w, pid, looks, deadline) && (w.file.Some? || w.jobs[pid - 1].outcome.None?)
    ensures e.Reported?
  {
    var k :| 0 <= k < deadline && AtFirst(Waiting(w, looks, k), looks(k)).jobs[pid - 1].outcome.Some?;
    hide *;
    WrittenIsReported(w, pid, looks, deadline, e, k);
  }

  /** The world once the process is started and its group id stored, where that works. */
  function Begun(w: World, recorded: bool, ms: nat -> seq<Move>): (r: World)
    ensures |r.jobs| == |w.jobs| + 1
  {
    var cleared := Meanwhile(w.(file := None), ms(1));
    var started := Meanwhile(cleared.(jobs := cleared.jobs + [STARTED]), ms(2));
    Meanwhile(if recorded then started.(pgid := |started.jobs|) else started, ms(3))
  }

  class Supervisor {
    var w: World

    method Pass(moves: seq<Move>)
      requires Valid(w)
      modifies this
      ensures w == Meanwhile(old(w), moves) && Valid(w) && Later(old(w), w) && FileOf(old(w), w)
    {
      JobsMoveOn(w, moves);
      w := Meanwhile(w, moves);
    }

    /**
     One round of `await`: nothing yet exactly when it finds no result and then the job
     alive. A job that is gone gets a last look.
     */
    method Look(pid: nat, looks: Looks) returns (e: Option<Ending>)
      requires Valid(w)
      modifies this
      ensures Valid(w) && Later(old(w), w) && FileOf(old(w), w)
      ensures e.None? <==> Silent(old(w), pid, looks)
      ensures e.Some? ==> e.value == EndOf(old(w), looks)
      ensures w == if e.Some? && AtFirst(old(w), looks).file.Some? then AtFirst(old(w), looks) else AtThird(old(w), looks)
      ensures e.Some? ==> e.value.NoResult? || (e.value.Reported? && w.file == Some(e.value.report))
      ensures e == Some(NoResult) ==> w.file.None? && !Alive(w, pid)
      ensures old(w).file.Some? || !Alive(old(w), pid) ==> e.Some?
    {
      hide Meanwhile, Valid, Later, FileOf;
      ghost var w0 := w;
      Pass(looks.first);
      LooksAgain(w0, w, pid);
      if w.file.Some? { return Some(Reported(w.file.value)); }
      ghost var w1 := w;
      Pass(looks.second);
      LaterChain(w0, w1, w);
      FileOfChain(w0, w1, w);
      var alive := Alive(w, pid);
      LooksAgain(w0, w, pid);
      ghost var w2 := w;
      Pass(looks.third);
      LaterChain(w0, w2, w);
      FileOfChain(w0, w2, w);
      if alive { return None; }
      GoneForGood(w2, w, pid);
      if w.file.Some? { return Some(Reported(w.file.value)); }
      return Some(NoResult);
    }

    /**
     SIGTERM, a time of grace, and SIGKILL for what is still there. Without a process group
     to signal, or when the first signal fails, nothing more is done.
     */
    method Teardown(pid: nat, signalled: bool, grace: seq<Move>)
      requires Valid(w)
      modifies this
      ensures Valid(w) && Later(old(w), w) && FileOf(old(w), w)
      ensures signalled ==> !Alive(w, pid)
      ensures !signalled ==> w == old(w)
    {
      hide Valid, Later, FileOf;
      LaterSelf(w);
      if pid == 0 || !signalled {
        NoneAlive(w);
        return;
      }
      Pass(grace);
      if Alive(w, pid) {
        ghost var w1 := w;
        Pass([Exit(pid)]);
        ExitIsGone(w1, pid);
        LaterChain(old(w), w1, w);
        FileOfChain(old(w), w1, w);
      }
    }

    /**
     `await`, up to a deadline: it ends as its first round that is not silent does, and is
     interrupted exactly when all are. It says "no result" only of a job that has exited
     without writing one, or whose result had been cleared away before the wait began.
     */
    method Await(pid: nat, looks: nat -> Looks, deadline: nat, signalled: bool, grace: seq<Move>) returns (e: Ending)
      requires Valid(w)
      modifies this
      ensures Valid(w) && Later(old(w), w) && !e.NotStarted?
      ensures Awaits(old(w), pid, looks, deadline, e)
      ensures e.Reported? ==> w.file == Some(e.report) && FileOf(old(w), w)
      ensures e.NoResult? ==> w.file.None? && !Alive(w, pid)
      ensures e.NoResult? && 1 <= pid <= |w.jobs| && w.jobs[pid - 1].outcome.Some? ==>
                old(w).file.None? && old(w).jobs[pid - 1].outcome.Some?
      ensures e.Interrupted? && signalled ==> !Alive(w, pid)
    {
      hide *;
      ghost var w0 := w;
      LaterSelf(w);
      FirstIsWaiting(w0, looks);
      for round := 0 to deadline
        invariant Valid(w) && Later(w0, w) && FileOf(w0, w) && w == Waiting(w0, looks, round)
        invariant forall k :: 0 <= k < round ==> Silent(Waiting(w0, looks, k), pid, looks(k))
      {
        ghost var before := w;
        var seen := Look(pid, looks(round));
        LaterChain(w0, before, w);
        FileOfChain(w0, before, w);
        NextIsWaiting(w0, looks, round);
        if seen.Some? {
          EndsHere(w0, pid, looks, deadline, round, seen.value);
          if seen.value.NoResult? { NoResultMeans(w0, w, pid); }
          return seen.value;
        }
      }
      AllSilent(w0, pid, looks, deadline);
      ghost var before := w;
      Teardown(pid, signalled, grace);
      LaterChain(w0, before, w);
      return Interrupted;
    }

    /** The two looks of `Adoptable`. */
    method CanAdopt(between: seq<Move>) returns (yes: bool)
      requires Valid(w)
      modifies this
      ensures Valid(w) && yes == Adoptable(old(w), between)
      ensures w == if old(w).file.Some? then old(w) else Meanwhile(old(w), between)
    {
      if w.file.Some? { return true; }
      Pass(between);
      yes := Alive(w, w.pgid);
    }

    /** A result still in place, or yet to be written, is never missed by adopting. */
    method Adopt(looks: nat -> Looks, deadline: nat, signalled: bool, grace: seq<Move>) returns (e: Ending)
      requires Valid(w)
      modifies this
      ensures Valid(w) && Later(old(w), w) && !e.NotStarted?
      ensures Awaits(old(w), old(w).pgid, looks, deadline, e)
      ensures e.Reported? ==> w.file == Some(e.report) && FileOf(old(w), w)
      ensures e.NoResult? && Adopting(old(w)) ==> GoneWithout(w)
      ensures Adopting(old(w)) && WrittenByDeadline(old(w), old(w).pgid, looks, deadline) ==> e.Reported?
    {
      ghost var w0 := w;
      ValidBounds(w);
      hide *;
      e := Await(w.pgid, looks, deadline, signalled, grace);
      SamePgid(w0, w);
      if e.NoResult? { AdoptedNone(w0, w); }
      if Adopting(w0) { AdoptingBounds(w0); }
      if Adopting(w0) && WrittenByDeadline(w0, w0.pgid, looks, deadline) {
        ReportedByDeadline(w0, w0.pgid, looks, deadline, e);
      }
    }

    /** Clears the old result, writes the script, starts the process and stores its group id. */
    method Begin(cleared: bool, scripted: bool, started: bool, recorded: bool, ms: nat -> seq<Move>) returns (ok: bool)
      requires Valid(w)
      modifies this
      ensures Valid(w) && (ok <==> cleared && scripted && started)
      ensures if ok then Fresh(old(w), w) else |w.jobs| == |old(w).jobs|
      ensures ok ==> w == Begun(old(w), recorded, ms)
    {
      hide Meanwhile, Apply, Alive;
      if !cleared { return false; }
      w := w.(file := None);
      ghost var w1 := w;
      Pass(ms(1));
      if !scripted || !started { return false; }
      ghost var w2 := w;
      FreshAtStart(old(w), w1, w2);
      w := w.(jobs := w.jobs + [STARTED]);
      ghost var w3 := w;
      hide Valid, Later, FileOf, Fresh;
      Pass(ms(2));
      FreshLater(old(w), w3, w);
      if recorded { StoringKeeps(old(w), w); w := w.(pgid := |w.jobs|); }
      ghost var w4 := w;
      Pass(ms(3));
      FreshLater(old(w), w4, w);
      ok := true;
    }

    /**
     `Execute`. The result it reports is the one of the process it started, or of an
     earlier one that was still at work when it was called; and "no result" means its own
     process exited without writing one.
     */
    method Execute(cleared: bool, scripted: bool, started: bool, recorded: bool, ms: nat -> seq<Move>,
                   looks: nat -> Looks, deadline: nat, signalled: bool, grace: seq<Move>)
      returns (e: Ending)
      requires Valid(w)
      modifies this
      ensures Valid(w)
      ensures |w.jobs| == |old(w).jobs| + (if e.NotStarted? then 0 else 1)
      ensures e.NotStarted? <==> !(cleared && scripted && started)
      ensures e.Reported? ==>
                && w.file == Some(e.report)
                && (e.report.attempt == |w.jobs|
                    || (1 <= e.report.attempt <= |old(w).jobs| && old(w).jobs[e.report.attempt - 1].stage.Working?))
      ensures e.NoResult? ==> w.jobs[|w.jobs| - 1] == Job(Gone, None)
      ensures !e.NotStarted? ==>
                var w1 := Begun(old(w), recorded, ms);
                && Awaits(w1, |w1.jobs|, looks, deadline, e)
                && (WrittenByDeadline(w1, |w1.jobs|, looks, deadline) ==> e.Reported?)
    {
      hide Valid, FileOf, Later, Awaits, WrittenByDeadline, Begun;
      var ok := Begin(cleared, scripted, started, recorded, ms);
      if !ok { return NotStarted; }
      ghost var w1 := w;
      e := Await(|w.jobs|, looks, deadline, signalled, grace);
      if WrittenByDeadline(w1, |w1.jobs|, looks, deadline) { ReportedByDeadline(w1, |w1.jobs|, looks, deadline, e); }
      SamePgid(w1, w);
      if e.Reported? { FreshLater(old(w), w1, w); }
      if e.NoResult? { FreshNone(old(w), w1, w); }
    }
  }

  /** One process more than before, and no result in place but its own or that of one that was at work. */
  ghost predicate Fresh(was: World, w: World) {
    && |w.jobs| == |was.jobs| + 1
    && (forall n :: 0 <= n < |was.jobs| && !was.jobs[n].stage.Working? ==> !w.jobs[n].stage.Working?)
    && (w.file.Some? ==>
          w.file.value.attempt == |w.jobs|
          || (1 <= w.file.value.attempt <= |was.jobs| && was.jobs[w.file.value.attempt - 1].stage.Working?))
    && (w.jobs[|was.jobs|].outcome.Some? ==> w.file.Some?)
  }

  lemma FreshAtStart(was: World, cleared: World, w: World)
    requires Valid(was) && Valid(w) && cleared == was.(file := None) && Later(cleared, w) && FileOf(cleared, w)
    ensures Valid(w.(jobs := w.jobs + [STARTED])) && Fresh(was, w.(jobs := w.jobs + [STARTED]))
  {
  }

  lemma FreshLater(was: World, w: World, w': World)
    requires Fresh(was, w) && Valid(w) && Later(w, w') && FileOf(w, w')
    ensures Fresh(was, w')
  {
  }

  lemma StoringKeeps(was: World, w: World)
    requires Fresh(was, w) && Valid(w)
    ensures Fresh(was, w.(pgid := |w.jobs|)) && Valid(w.(pgid := |w.jobs|))
  {
  }

  /** A job that is gone, with no result in place, has written none since. */
  lemma NoResultMeans(w: World, w': World, pid: nat)
    requires Later(w, w') && w'.file.None?
    ensures 1 <= pid <= |w'.jobs| && w'.jobs[pid - 1].outcome.Some? ==> w.file.None? && w.jobs[pid - 1].outcome.Some?
  {
  }

  lemma ValidBounds(w: World)
    requires Valid(w)
    ensures w.pgid <= |w.jobs|
  {
  }

  lemma SamePgid(w: World, w': World)
    requires Later(w, w')
    ensures w'.pgid == w.pgid && |w'.jobs| == |w.jobs|
  {
  }

  lemma AdoptingBounds(w: World)
    requires Adopting(w)
    ensures 1 <= w.pgid <= |w.jobs| && (w.file.Some? || w.jobs[w.pgid - 1].outcome.None?)
  {
  }

  /** Nothing was there to adopt. */
  lemma AdoptedNone(w: World, w': World)
    requires Later(w, w') && w'.file.None? && !Alive(w', w.pgid)
    ensures Adopting(w) ==> GoneWithout(w')
  {
  }

  /** The process just started has gone without a result. */
  lemma FreshNone(was: World, w: World, w': World)
    requires Fresh(was, w) && Later(w, w') && w'.file.None? && !Alive(w', |w.jobs|)
    ensures |w'.jobs| == |w.jobs| && w'.jobs[|w'.jobs| - 1] == Job(Gone, None)
  {
  }

  lemma NoneAlive(w: World)
    ensures !Alive(w, 0)
  {
  }

  lemma LaterSelf(w: World)
    ensures Later(w, w) && FileOf(w, w)
  {
  }

  /** A result stays in place, and a job that is gone stays gone. */
  lemma LooksAgain(w: World, w': World, pid: nat)
    requires Later(w, w')
    ensures w.file.Some? ==> w'.file.Some?
    ensures !Alive(w, pid) ==> !Alive(w', pid)
  {
  }

  lemma GoneForGood(w: World, w': World, pid: nat)
    requires Later(w, w') && !Alive(w, pid)
    ensures !Alive(w', pid)
  {
  }

  lemma ExitIsGone(w: World, pid: nat)
    ensures !Alive(Meanwhile(w, [Exit(pid)]), pid)
  {
    assert Meanwhile(w, [Exit(pid)]) == Meanwhile(Apply(w, Exit(pid)), [Exit(pid)][1..]);
  }
}
