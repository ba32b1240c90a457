/**
 The task store: an index in memory over one directory per task. Every file is written
 to a temporary name and renamed, and any file operation may fail or be the last one
 before a crash. `crashes` holds every state the disk has been in.
 */
module TaskStore {
  import opened Prelude

  type Id = string
  type Env = map<string, string>

  /** What task.json holds; `rest` stands for all other fields. */
  datatype Body = Body(id: Id, rest: string)

  /** Env is kept out of task.json, in a file of its own. */
  datatype Task = Task(body: Body, env: Env)

  datatype File = Partial | Record(body: Body) | Secrets(env: Env)

  type Dir = map<string, File>
  type Disk = map<Id, Dir>

  const TASK := "task.json"
  const SECRETS := "secrets.json"

  /** The two files of a task that are ever read. */
  datatype View = View(task: Option<File>, secrets: Option<File>)

  function Named(dir: Dir, name: string): Option<File> {
    if name in dir then Some(dir[name]) else None
  }

  function Look(disk: Disk, id: Id): View {
    if id in disk then View(Named(disk[id], TASK), Named(disk[id], SECRETS)) else View(None, None)
  }

  /** No secrets file, or one that cannot be parsed, means no Env. */
  function EnvOf(v: View): Env {
    if v.secrets.Some? && v.secrets.value.Secrets? then v.secrets.value.env else map[]
  }

  function ReadBack(v: View): Option<Task> {
    if v.task.Some? && v.task.value.Record? then Some(Task(v.task.value.body, EnvOf(v))) else None
  }

  /** What a fresh index over this disk holds. */
  function Reloaded(disk: Disk): map<Id, Task> {
    map id | id in disk && ReadBack(Look(disk, id)).Some? :: ReadBack(Look(disk, id)).value
  }

  /** A record lies in the directory named after it. */
  predicate Keyed(disk: Disk) {
    forall id :: id in Reloaded(disk) ==> Reloaded(disk)[id].body.id == id
  }

  /** Nothing readable differs but the files of `id`, which are as in `v`. */
  ghost predicate Shows(disk: Disk, was: Disk, id: Id, v: View) {
    (forall other :: other != id ==> Look(disk, other) == Look(was, other)) && Look(disk, id) == v
  }

  lemma NothingThere(disk: Disk, id: Id)
    ensures id !in disk ==> ReadBack(Look(disk, id)).None?
  {
  }

  lemma IsReloaded(disk: Disk, id: Id)
    ensures id in Reloaded(disk) <==> ReadBack(Look(disk, id)).Some?
    ensures id in Reloaded(disk) ==> Reloaded(disk)[id] == ReadBack(Look(disk, id)).value
  {
    NothingThere(disk, id);
    hide ReadBack, Look;
  }

  lemma ReloadedShows(disk: Disk, was: Disk, id: Id, v: View)
    requires Shows(disk, was, id, v)
    ensures Reloaded(disk) == if ReadBack(v).Some? then Reloaded(was)[id := ReadBack(v).value] else Reloaded(was) - {id}
    ensures Keyed(was) && (ReadBack(v).Some? ==> ReadBack(v).value.body.id == id) ==> Keyed(disk)
  {
    hide ReadBack, Look, Reloaded;
    var r := Reloaded(disk);
    forall other | other != id
      ensures other in r <==> other in Reloaded(was)
      ensures other in r ==> r[other] == Reloaded(was)[other]
    {
      assert Look(disk, other) == Look(was, other);
      IsReloaded(disk, other);
      IsReloaded(was, other);
    }
    IsReloaded(disk, id);
    assert Look(disk, id) == v;
  }

  function Seen(dir: Dir): View {
    View(Named(dir, TASK), Named(dir, SECRETS))
  }

  lemma LookSees(disk: Disk, id: Id)
    requires id in disk
    ensures Look(disk, id) == Seen(disk[id])
  {
  }

  lemma PutShows(disk: Disk, was: Disk, id: Id, dir: Dir)
    requires disk == was[id := dir]
    ensures Shows(disk, was, id, Seen(dir))
  {
  }

  lemma SeenUnder(dir: Dir, temp: string, file: File)
    requires temp != TASK && temp != SECRETS
    ensures Seen(dir[temp := file]) == Seen(dir)
  {
  }

  lemma SeenAt(dir: Dir, name: string, file: File)
    requires name == TASK || name == SECRETS
    ensures Seen(dir[name := file])
            == if name == TASK then Seen(dir).(task := Some(file)) else Seen(dir).(secrets := Some(file))
  {
    assert TASK[0] != SECRETS[0];
  }

  lemma ShowsChain(d: Disk, mid: Disk, was: Disk, id: Id, v: View, u: View)
    requires Shows(mid, was, id, v) && Shows(d, mid, id, u)
    ensures Shows(d, was, id, u)
  {
    hide Look;
  }

  lemma ShowsLook(d: Disk, was: Disk, id: Id, v: View)
    requires Shows(d, was, id, v)
    ensures Look(d, id) == v
  {
  }

  lemma ShowsSelf(d: Disk, id: Id)
    ensures Shows(d, d, id, Look(d, id))
  {
  }

  /** The files of a task while it is being written: Env first, when there is any, then the record. */
  function WithEnv(v: View, t: Task): View {
    if t.env != map[] then v.(secrets := Some(Secrets(t.env))) else v
  }

  function Written(v: View, t: Task): View {
    WithEnv(v, t).(task := Some(Record(t.body)))
  }

  lemma ReadsWritten(v: View, t: Task)
    ensures ReadBack(Written(v, t)) == Some(Task(t.body, if t.env != map[] then t.env else EnvOf(v)))
    ensures ReadBack(v).Some? ==>
              ReadBack(WithEnv(v, t)) == Some(Task(ReadBack(v).value.body, if t.env != map[] then t.env else EnvOf(v)))
    ensures ReadBack(v).None? ==> ReadBack(WithEnv(v, t)).None?
  {
  }

  /**
   A crash between any two file operations of an update leaves the old task or the new
   one exactly when the update leaves Env alone or leaves the record alone.
   */
  lemma NeverAMixtureExactly(v: View, was: Task, t: Task)
    requires ReadBack(v) == Some(was)
    ensures (forall u :: u in [v, WithEnv(v, t), Written(v, t)] ==> ReadBack(u) == Some(was) || ReadBack(u) == Some(t))
            <==> t.env == was.env || t.body == was.body
  {
    ReadsWritten(v, t);
    assert EnvOf(v) == was.env;
    var all := [v, WithEnv(v, t), Written(v, t)];
    assert all[0] in all && all[1] in all && all[2] in all;
  }

  /** Reading back from disk `d` gives what `was` gave, or that with the new task. */
  ghost predicate OldOrNew(d: Disk, was: Disk, t: Task) {
    Keyed(d) && (Reloaded(d) == Reloaded(was) || Reloaded(d) == Reloaded(was)[t.body.id := t])
  }

  /** The disk and the index agree. */
  ghost predicate Agrees(index: map<Id, Task>, disk: Disk) {
    Keyed(disk) && index == Reloaded(disk)
  }

  /** What a disk that shows one of the stages of a write reads back as. */
  lemma StageReads(d: Disk, was: Disk, v: View, t: Task)
    requires Keyed(was) && v == Look(was, t.body.id)
    requires Shows(d, was, t.body.id, v) || Shows(d, was, t.body.id, WithEnv(v, t)) || Shows(d, was, t.body.id, Written(v, t))
    requires ReadBack(v).None? || ReadBack(v).value.env == t.env
    requires ReadBack(v).None? ==> t.env != map[] || EnvOf(v) == map[]
    ensures OldOrNew(d, was, t)
  {
    hide Shows, Reloaded, Keyed, Look;
    ReadsWritten(v, t);
    UnchangedReload(was, t.body.id);
    if Shows(d, was, t.body.id, v) { ReloadedShows(d, was, t.body.id, v); }
    else if Shows(d, was, t.body.id, WithEnv(v, t)) { ReloadedShows(d, was, t.body.id, WithEnv(v, t)); }
    else { ReloadedShows(d, was, t.body.id, Written(v, t)); }
  }

  lemma UnchangedReload(disk: Disk, id: Id)
    ensures var r := ReadBack(Look(disk, id));
            Reloaded(disk) == if r.Some? then Reloaded(disk)[id := r.value] else Reloaded(disk) - {id}
    ensures Keyed(disk) && ReadBack(Look(disk, id)).Some? ==> ReadBack(Look(disk, id)).value.body.id == id
  {
    ReloadedShows(disk, disk, id, Look(disk, id));
    NothingThere(disk, id);
    assert ReadBack(Look(disk, id)).Some? ==> id in Reloaded(disk);
  }

  /** After a write the index agrees with the disk exactly when the disk has no Env the task lost. */
  lemma AgreesAfterWriteExactly(index: map<Id, Task>, was: Disk, d: Disk, t: Task)
    requires Agrees(index, was)
    requires Shows(d, was, t.body.id, Written(Look(was, t.body.id), t))
    ensures Agrees(index[t.body.id := t], d) <==> t.env != map[] || EnvOf(Look(was, t.body.id)) == map[]
  {
    hide Shows, Reloaded, Keyed, Look;
    var v := Look(was, t.body.id);
    ReadsWritten(v, t);
    ReloadedShows(d, was, t.body.id, Written(v, t));
    var back := ReadBack(Written(v, t)).value;
    assert index[t.body.id := t] == index[t.body.id := back] <==> t == back by {
      assert index[t.body.id := t][t.body.id] == t && index[t.body.id := back][t.body.id] == back;
    }
  }

  lemma WithEnvIs(v: View, t: Task)
    ensures WithEnv(v, t) == if t.env != map[] then v.(secrets := Some(Secrets(t.env))) else v
  {
  }

  /** A directory with nothing in it reads as no directory. */
  lemma EmptyDirShows(disk: Disk, id: Id)
    requires id !in disk
    ensures Shows(disk[id := map[]], disk, id, Look(disk, id))
  {
  }

  /** What holds of states against a later disk holds of them against the first. */
  lemma StagesChain(states: seq<Disk>, from: nat, mid: Disk, was: Disk, id: Id, v: View, a: View, b: View)
    requires Shows(mid, was, id, v) && from <= |states|
    requires forall k :: from <= k < |states| ==> Shows(states[k], mid, id, a) || Shows(states[k], mid, id, b)
    ensures forall k :: from <= k < |states| ==> Shows(states[k], was, id, a) || Shows(states[k], was, id, b)
  {
    hide Shows;
    forall k | from <= k < |states| ensures Shows(states[k], was, id, a) || Shows(states[k], was, id, b) {
      if Shows(states[k], mid, id, a) {
        ShowsChain(states[k], mid, was, id, v, a);
      } else {
        ShowsChain(states[k], mid, was, id, v, b);
      }
    }
  }

  lemma KeysReloaded(disk: Disk)
    ensures Reloaded(disk).Keys <= disk.Keys && Reloaded(disk) - disk.Keys == map[]
  {
    hide ReadBack, Look;
  }

  class Store {
    var index: map<Id, Task>
    var disk: Disk
    ghost var crashes: seq<Disk>
    /** No file operation fails. */
    const healthy: bool

    constructor (disk: Disk, healthy: bool)
      ensures this.disk == disk && crashes == [disk] && this.healthy == healthy
      ensures Keyed(disk) ==> index == Reloaded(disk)
    {
      this.disk := disk;
      this.healthy := healthy;
      crashes := [disk];
      index := map[];
      new;
      Reload();
    }

    /** Whether one file operation works. */
    method Works() returns (ok: bool)
      ensures healthy ==> ok
    {
      ok := *;
      ok := healthy || ok;
    }

    /** A name that nothing in the directory has, nor either of the files that are read. */
    method TempName(dir: Dir) returns (temp: string)
      ensures temp !in dir && temp != TASK && temp != SECRETS
    {
      temp := SECRETS + ".";
      var todo := dir.Keys;
      while todo != {}
        invariant todo <= dir.Keys && |temp| > |SECRETS| && forall n :: n in dir.Keys - todo ==> |n| < |temp|
        decreases |todo|
      {
        var n :| n in todo;
        todo := todo - {n};
        if |n| >= |temp| { temp := temp + n; }
      }
      assert dir.Keys - {} == dir.Keys;
    }

    method Become(d: Disk)
      modifies this`disk, this`crashes
      ensures disk == d && crashes == old(crashes) + [d]
    {
      disk := d;
      crashes := crashes + [d];
    }

    method ReadFromDisk(id: Id) returns (r: Option<Task>)
      ensures r == ReadBack(Look(disk, id))
    {
      if id !in disk || TASK !in disk[id] || !disk[id][TASK].Record? { return None; }
      var env: Env := map[];
      if SECRETS in disk[id] && disk[id][SECRETS].Secrets? { env := disk[id][SECRETS].env; }
      r := Some(Task(disk[id][TASK].body, env));
    }

    /** Every directory is read, in no particular order; an unreadable one is passed over. */
    method Reload()
      requires index == map[]
      modifies this`index
      ensures Keyed(disk) ==> index == Reloaded(disk)
    {
      hide ReadBack, Look, Reloaded;
      KeysReloaded(disk);
      var todo := disk.Keys;
      while todo != {}
        invariant todo <= disk.Keys
        invariant Keyed(disk) ==> index == Reloaded(disk) - todo
        decreases |todo|
      {
        var id :| id in todo;
        var t := ReadFromDisk(id);
        IsReloaded(disk, id);
        if t.Some? { index := index[t.value.body.id := t.value]; }
        todo := todo - {id};
      }
      assert Reloaded(disk) - {} == Reloaded(disk);
    }

    /** All states since the crash list had `n` entries show one of two views of `id`. */
    ghost predicate Only(n: nat, was: Disk, id: Id, a: View, b: View)
      reads this`crashes
    {
      forall k :: n <= k < |crashes| ==> Shows(crashes[k], was, id, a) || Shows(crashes[k], was, id, b)
    }

    /** The next state of a directory. */
    method Put(id: Id, dir: Dir, ghost was: Disk)
      requires id in disk && disk == was[id := disk[id]]
      modifies this`disk, this`crashes
      ensures disk == was[id := dir] && crashes == old(crashes) + [disk]
      ensures Shows(disk, was, id, Seen(dir))
    {
      hide Shows, Seen;
      Become(disk[id := dir]);
      PutShows(disk, was, id, dir);
    }

    /** Renamed into place when complete; removed when anything fails. */
    method WriteAtomic(id: Id, name: string, file: File) returns (ok: bool)
      requires id in disk && (name == TASK || name == SECRETS)
      modifies this`disk, this`crashes
      ensures var v := Look(old(disk), id);
              var v' := if name == TASK then v.(task := Some(file)) else v.(secrets := Some(file));
              && Shows(disk, old(disk), id, if ok then v' else v)
              && Only(|old(crashes)|, old(disk), id, v, v')
      ensures |old(crashes)| <= |crashes| && crashes[..|old(crashes)|] == old(crashes) && id in disk
      ensures healthy ==> ok
    {
      hide Shows, Named, Seen, Look, TASK, SECRETS;
      LookSees(disk, id);
      ghost var was := disk;
      var dir := disk[id];
      PutShows(was, was, id, dir);
      ok := Works();
      if !ok { return; }
      var temp := TempName(dir);
      SeenUnder(dir, temp, Partial);
      Put(id, dir[temp := Partial], was);
      ok := Works();
      if ok {
        SeenUnder(dir, temp, file);
        Put(id, dir[temp := file], was);
        ok := Works();
      }
      SeenAt(dir, name, file);
      Put(id, if ok then dir[name := file] else dir, was);
    }

    /** `write`: Env, when there is any, then the record, then the index. */
    method Write(t: Task) returns (ok: bool)
      modifies this
      ensures var v := Look(old(disk), t.body.id);
              && (ok ==> Shows(disk, old(disk), t.body.id, Written(v, t)))
              && (!ok ==> Shows(disk, old(disk), t.body.id, v) || Shows(disk, old(disk), t.body.id, WithEnv(v, t)))
              && (forall k :: |old(crashes)| <= k < |crashes| ==>
                    || Shows(crashes[k], old(disk), t.body.id, v)
                    || Shows(crashes[k], old(disk), t.body.id, WithEnv(v, t))
                    || Shows(crashes[k], old(disk), t.body.id, Written(v, t)))
      ensures |old(crashes)| <= |crashes| && crashes[..|old(crashes)|] == old(crashes)
      ensures index == if ok then old(index)[t.body.id := t] else old(index)
      ensures healthy ==> ok
    {
      hide Shows, Look, WithEnv;
      ghost var was := disk;
      var id := t.body.id;
      ghost var v := Look(was, id);
      ghost var start := |crashes|;
      ShowsSelf(was, id);
      var made := Works();
      if id !in disk {
        if !made { return false; }
        EmptyDirShows(was, id);
        Become(disk[id := map[]]);
      }
      ghost var mid, seen := disk, |crashes|;
      ShowsLook(mid, was, id, v);
      if t.env != map[] {
        ok := WriteAtomic(id, SECRETS, Secrets(t.env));
        ghost var withEnv := v.(secrets := Some(Secrets(t.env)));
        WithEnvIs(v, t);
        StagesChain(crashes, seen, mid, was, id, v, v, withEnv);
        ShowsChain(disk, mid, was, id, v, if ok then withEnv else v);
        if !ok { return; }
      } else {
        WithEnvIs(v, t);
      }
      ghost var mid2, seen2, u := disk, |crashes|, WithEnv(v, t);
      ShowsLook(mid2, was, id, u);
      ok := WriteAtomic(id, TASK, Record(t.body));
      StagesChain(crashes, seen2, mid2, was, id, u, u, u.(task := Some(Record(t.body))));
      ShowsChain(disk, mid2, was, id, u, if ok then u.(task := Some(Record(t.body))) else u);
      if ok { index := index[id := t]; }
    }

    /** Refused when the id is taken. The directory of a new id holds no Env of another task. */
    method Create(t: Task) returns (r: Result<(), string>)
      requires Agrees(index, disk)
      modifies this
      ensures t.body.id in old(index) ==> r.Err? && index == old(index) && disk == old(disk) && crashes == old(crashes)
      ensures index == if r.Ok? then old(index)[t.body.id := t] else old(index)
      ensures healthy && t.body.id !in old(index) ==> r.Ok?
      ensures r.Err? ==> Agrees(index, disk)
      ensures r.Ok? ==> (Agrees(index, disk) <==> t.env != map[] || EnvOf(Look(old(disk), t.body.id)) == map[])
      ensures |old(crashes)| <= |crashes| && crashes[..|old(crashes)|] == old(crashes)
      ensures t.env != map[] || EnvOf(Look(old(disk), t.body.id)) == map[] ==>
                forall k :: |old(crashes)| <= k < |crashes| ==> OldOrNew(crashes[k], old(disk), t)
    {
      hide Shows, Reloaded, Keyed, Look, ReadBack, WithEnv, EnvOf;
      if t.body.id in index { return Err("the task already exists"); }
      ghost var was, v := disk, Look(disk, t.body.id);
      ghost var seen := |crashes|;
      InIndex(index, disk, t.body.id);
      var ok := Write(t);
      if ok { AgreesAfterWriteExactly(old(index), was, disk, t); } else { FailedWrite(old(index), was, disk, v, t); }
      if t.env != map[] || EnvOf(v) == map[] {
        forall k | seen <= k < |crashes| ensures OldOrNew(crashes[k], was, t) {
          StageReads(crashes[k], was, v, t);
        }
      }
      r := if ok then Ok(()) else Err("the task could not be written");
    }

    /**
     Afterwards the index agrees with the disk, unless a change took all Env away from a
     task that had some. A change that leaves the id and Env alone, as every caller's does,
     keeps them in agreement whatever fails, and every crash leaves the old task or the new.
     */
    method Update(id: Id, f: Task -> Task) returns (r: Result<Task, string>)
      requires Agrees(index, disk)
      modifies this
      ensures id !in old(index) ==> r.Err? && index == old(index) && disk == old(disk) && crashes == old(crashes)
      ensures r.Ok? ==> r.value == f(old(index)[id]) && index == old(index)[r.value.body.id := r.value]
      ensures r.Ok? ==> (Agrees(index, disk) <==> r.value.env != map[] || EnvOf(Look(old(disk), r.value.body.id)) == map[])
      ensures healthy && id in old(index) ==> r.Ok?
      ensures r.Err? ==> index == old(index)
      ensures |old(crashes)| <= |crashes| && crashes[..|old(crashes)|] == old(crashes)
      ensures id in old(index) && Leaves(old(index)[id], f(old(index)[id])) ==>
                && Agrees(index, disk)
                && forall k :: |old(crashes)| <= k < |crashes| ==> OldOrNew(crashes[k], old(disk), f(old(index)[id]))
    {
      hide Shows, Reloaded, Keyed, Look, ReadBack, WithEnv, EnvOf;
      if id !in index { return Err("no such task"); }
      var t := f(index[id]);
      ghost var was, v := disk, Look(disk, t.body.id);
      ghost var seen := |crashes|;
      InIndex(index, disk, id);
      var ok := Write(t);
      if ok { AgreesAfterWriteExactly(old(index), was, disk, t); }
      if Leaves(old(index)[id], t) {
        if !ok { FailedWrite(old(index), was, disk, v, t); }
        forall k | seen <= k < |crashes| ensures OldOrNew(crashes[k], was, t) {
          StageReads(crashes[k], was, v, t);
        }
      }
      r := if ok then Ok(t) else Err("the task could not be written");
    }
  }

  /** A change of neither id nor Env. */
  predicate Leaves(was: Task, t: Task) {
    t.body.id == was.body.id && t.env == was.env
  }

  lemma InIndex(index: map<Id, Task>, disk: Disk, id: Id)
    requires Agrees(index, disk)
    ensures id in index <==> ReadBack(Look(disk, id)).Some?
    ensures id in index ==> index[id] == ReadBack(Look(disk, id)).value && index[id].body.id == id
                            && index[id].env == EnvOf(Look(disk, id))
  {
    NothingThere(disk, id);
  }

  /** A write that fails part-way, of a task that is new or keeps its Env, changes nothing that is read. */
  lemma FailedWrite(index: map<Id, Task>, was: Disk, d: Disk, v: View, t: Task)
    requires Agrees(index, was) && v == Look(was, t.body.id)
    requires Shows(d, was, t.body.id, v) || Shows(d, was, t.body.id, WithEnv(v, t))
    requires ReadBack(v).None? || ReadBack(v).value.env == t.env
    ensures Agrees(index, d)
  {
    hide Shows, Reloaded, Keyed, Look;
    ReadsWritten(v, t);
    UnchangedReload(was, t.body.id);
    if Shows(d, was, t.body.id, v) { ReloadedShows(d, was, t.body.id, v); }
    else { ReloadedShows(d, was, t.body.id, WithEnv(v, t)); }
  }

  /** Opening the disk of any such crash gives an index that agrees with it, with the old task or the new. */
  method OpenAfterCrash(d: Disk, was: Disk, t: Task, healthy: bool) returns (s: Store)
    requires OldOrNew(d, was, t)
    ensures fresh(s) && Agrees(s.index, s.disk) && s.disk == d
    ensures s.index == Reloaded(was) || s.index == Reloaded(was)[t.body.id := t]
  {
    s := new Store(d, healthy);
  }
}
