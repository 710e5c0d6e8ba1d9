/**
The keychain store as its code runs (cache/keychain.go): methods that change a keyring one
call at a time, each proved to be the program of KeychainOps from its first call to its
result, and so to keep at every crash point what the step theorem says.
*/
module KeychainStore {
  import opened Wrappers
  import opened Text
  import opened Markers
  import opened KeychainOps
  import opened KeychainStep
  import Contents = KeychainContents

  /**
  The keyring of one service. Every call may fail. The ghost fields record the program that
  runs: the items it found, what it started as, and its calls so far.
  */
  class Keyring {
    var items: Items
    ghost var began: Items
    ghost var from: Op
    ghost var log: seq<Entry>

    /** The recorded calls are a legal run that has brought the program to op. */
    ghost predicate At(d: Digest, op: Op)
      reads this
    {
      Legal(d, began, from, log) && After(d, from, log) == op && ItemsAfter(began, log) == items
    }

    ghost method Begin(d: Digest, op: Op)
      modifies this
      ensures items == old(items) && At(d, op) && began == items && from == op && log == []
    {
      began, from, log := items, op, [];
    }

    method Get(name: string, ghost d: Digest, ghost op: Op) returns (reply: Reply)
      requires At(d, op) && Request(d, op) == Some(Call.Get(name))
      modifies this
      ensures Answers(old(items), Call.Get(name), reply, items)
      ensures At(d, Resume(d, op, reply)) && began == old(began) && from == old(from)
    {
      hide Request, Resume, Legal, After;
      if * {
        reply := Failed;
      } else {
        reply := if name in items then Found(items[name]) else NotFound;
      }
      Record(Call.Get(name), reply, d, op);
    }

    method Set(name: string, value: string, ghost d: Digest, ghost op: Op) returns (reply: Reply)
      requires At(d, op) && Request(d, op) == Some(Call.Set(name, value))
      modifies this
      ensures Answers(old(items), Call.Set(name, value), reply, items)
      ensures At(d, Resume(d, op, reply)) && began == old(began) && from == old(from)
    {
      hide Request, Resume, Legal, After;
      if * {
        reply := Failed;
      } else {
        items, reply := items[name := value], Ok;
      }
      Record(Call.Set(name, value), reply, d, op);
    }

    method Delete(name: string, ghost d: Digest, ghost op: Op) returns (reply: Reply)
      requires At(d, op) && Request(d, op) == Some(Call.Delete(name))
      modifies this
      ensures Answers(old(items), Call.Delete(name), reply, items)
      ensures At(d, Resume(d, op, reply)) && began == old(began) && from == old(from)
    {
      hide Request, Resume, Legal, After;
      if * {
        reply := Failed;
      } else if name in items {
        items, reply := items - {name}, Ok;
      } else {
        reply := NotFound;
        assert items == items - {name};
      }
      Record(Call.Delete(name), reply, d, op);
    }

    ghost method Record(call: Call, reply: Reply, d: Digest, op: Op)
      requires Legal(d, began, from, log) && After(d, from, log) == op && Request(d, op) == Some(call)
      requires Answers(ItemsAfter(began, log), call, reply, items)
      modifies this`log
      ensures At(d, Resume(d, op, reply))
    {
      hide Request, Resume, Answers;
      var e := Entry(call, reply, items);
      assert (log + [e])[..|log|] == log;
      log := log + [e];
    }
  }

  // The two loops that several operations share, and where they stand in each

  /** Who reads a generation. */
  datatype Reader =
    | Current(key: string)
    | Backup(key: string)
    | Probing(job: Job, previous: Option<Marker>)
    | Verifying(job: Job, plan: Plan)

  function Reading(who: Reader, c: Cursor): Op {
    match who
    case Current(key) => Load(key, ReadCurrent(c))
    case Backup(key) => Load(key, ReadBackup(c))
    case Probing(job, previous) => Save(job, Probe(previous, c))
    case Verifying(job, plan) => Save(job, Verify(plan, c))
  }

  function Concluded(who: Reader, m: Marker, r: Option<string>): Op {
    match who
    case Current(key) => Load(key, if r.Some? then LoadDone(Loaded(r.value)) else LookBackup)
    case Backup(key) => Load(key, LoadDone(if r.Some? then Loaded(r.value) else Unreadable))
    case Probing(job, previous) => Save(job, Write0(if r.Some? then Some(m) else None, previous))
    case Verifying(job, plan) =>
      Save(job, if r.None? then SaveDone(false) else if plan.usable.Some? then MarkBackup(plan) else Publish(plan))
  }

  lemma ReadingResumes(d: Digest, who: Reader, c: Cursor, reply: Reply)
    ensures Resume(d, Reading(who, c), reply)
            == match Advance(d, c, reply)
               case More(c') => Reading(who, c')
               case Finished(r) => Concluded(who, c.m, r)
  {
  }

  /** Who removes a generation's chunks. */
  datatype Remover = Collecting(job: Job, plan: Plan) | Purging(key: string, found: seq<Marker>)

  function Removing(who: Remover, i: nat): Op {
    match who
    case Collecting(job, plan) => Save(job, Collect(plan, i))
    case Purging(key, found) => Remove(key, Purge(found, i))
  }

  function Removed(who: Remover): Op
    requires who.Purging? ==> who.found != []
  {
    match who
    case Collecting(job, plan) => Save(job, SaveDone(true))
    case Purging(key, found) => Remove(key, PurgeAll(found[1..]))
  }

  /** The three outcomes of reading a marker item. */
  datatype Looked = Absent | Marked(m: Marker) | Bad

  function LookedIn(reply: Reply): (l: Looked)
    ensures l.Marked? ==> WellFormed(l.m)
  {
    if reply.NotFound? then Absent
    else if MarkerIn(reply).Some? then Marked(MarkerIn(reply).value)
    else Bad
  }

  function Marks(l: Looked): seq<Marker> { if l.Marked? then [l.m] else [] }

  function LookedAt(at: nat, found: seq<Marker>, l: Looked): DeleteState {
    if l.Bad? then DeleteDone(false) else if at < 2 then LookAt(at + 1, found + Marks(l))
        else Retire(0, found + Marks(l))
  }

  lemma LookAtResumes(d: Digest, key: string, at: nat, found: seq<Marker>, reply: Reply)
    requires at <= 2
    ensures Resume(d, Remove(key, LookAt(at, found)), reply) == Remove(key, LookedAt(at, found, LookedIn(reply)))
  {
    assert found + [] == found;
  }

  class Store {
    const keyring: Keyring
    const digest: Digest

    constructor (keyring: Keyring, digest: Digest)
      ensures this.keyring == keyring && this.digest == digest
    {
      this.keyring, this.digest := keyring, digest;
    }

    /** Concatenates the chunks a marker names; None is the error. */
    method Read(key: string, m: Marker, ghost who: Reader) returns (r: Option<string>)
      requires WellFormed(m) && key == KeyOf(Reading(who, Start(m))) && keyring.At(digest, Reading(who, Start(m)))
      modifies keyring
      ensures keyring.At(digest, Concluded(who, m, r))
      ensures keyring.items == old(keyring.items) && keyring.began == old(keyring.began)
      ensures keyring.from == old(keyring.from)
    {
      var buf, i := "", 0;
      while i < m.count
        invariant i <= m.count
        invariant keyring.At(digest, if i < m.count then Reading(who, Cursor(m, buf, i))
                    else Concluded(who, m, Check(digest, m, buf)))
        invariant keyring.items == old(keyring.items) && keyring.began == old(keyring.began)
        invariant keyring.from == old(keyring.from)
      {
        ghost var c := Cursor(m, buf, i);
        var reply := keyring.Get(ChunkName(key, m, i), digest, Reading(who, c));
        ReadingResumes(digest, who, c, reply);
        if !reply.Found? {
          return None;
        }
        buf, i := buf + reply.value, i + 1;
      }
      r := if m.generation != "" && digest(buf) != m.digest then None else Some(buf);
    }

    /** Deletes a generation's chunks, whatever becomes of each call. */
    method RemoveChunks(key: string, m: Marker, ghost who: Remover)
      requires WellFormed(m) && key == KeyOf(Removing(who, 0)) && keyring.At(digest, Removing(who, 0))
      requires match who
               case Collecting(job, plan) => m == plan.Stale()
               case Purging(_, found) => found != [] && m == found[0]
      modifies keyring
      ensures keyring.At(digest, Removed(who)) && keyring.began == old(keyring.began) &&
                keyring.from == old(keyring.from)
    {
      for i := 0 to m.count
        invariant keyring.At(digest, if i < m.count then Removing(who, i) else Removed(who))
        invariant keyring.began == old(keyring.began) && keyring.from == old(keyring.from)
      {
        var _ := keyring.Delete(ChunkName(key, m, i), digest, Removing(who, i));
      }
    }

    /** Reads and parses a marker item: absent, a marker, or an error. */
    method Look(name: string, ghost op: Op) returns (l: Looked, ghost reply: Reply)
      requires keyring.At(digest, op) && Request(digest, op) == Some(Call.Get(name))
      modifies keyring
      ensures l == LookedIn(reply)
      ensures Answers(keyring.items, Call.Get(name), reply, keyring.items)
      ensures keyring.At(digest, Resume(digest, op, reply))
      ensures keyring.items == old(keyring.items) && keyring.began == old(keyring.began)
      ensures keyring.from == old(keyring.from)
    {
      var answer := keyring.Get(name, digest, op);
      reply := answer;
      l := LookedIn(answer);
    }

    /** Load falls back to the backup generation when the current one is damaged. */
    method Load(key: string) returns (outcome: Outcome)
      requires KeyOk(key)
      modifies keyring
      ensures keyring.At(digest, Op.Load(key, LoadDone(outcome))) && keyring.from == Op.Load(key, LookCurrent)
      ensures keyring.items == old(keyring.items)
      ensures outcome in {View(digest, keyring.items, key), BackupView(digest, keyring.items, key), Unreadable}
      ensures Faultless(keyring.log) ==> outcome == View(digest, keyring.items, key)
      ensures outcome.Loaded? ==>
                || (key !in keyring.items && outcome.blob == "")
                || Contents.Spells(digest, keyring.items, key, key, outcome.blob)
                || Contents.Spells(digest, keyring.items, key, key + "#previous", outcome.blob)
      ensures Faultless(keyring.log) ==>
                (outcome == Unreadable <==>
                   && key in keyring.items && !Contents.Readable(digest, keyring.items, key, key)
                   && !Contents.Readable(digest, keyring.items, key, key + "#previous"))
    {
      hide Contents.Spells, Contents.Readable;
      keyring.Begin(digest, Op.Load(key, LookCurrent));
      outcome := LoadCalls(key);
      LoadResult(digest, keyring.began, key, keyring.log, outcome);
      if outcome.Loaded? {
        Contents.LoadAnswers(digest, keyring.began, key, keyring.log, outcome.blob);
      }
      if Faultless(keyring.log) {
        Contents.LoadExactly(digest, keyring.began, key, keyring.log, outcome);
      }
    }

    method LoadCalls(key: string) returns (outcome: Outcome)
      requires keyring.At(digest, Op.Load(key, LookCurrent))
      modifies keyring
      ensures keyring.At(digest, Op.Load(key, LoadDone(outcome)))
      ensures keyring.items == old(keyring.items) && keyring.began == old(keyring.began)
      ensures keyring.from == old(keyring.from)
    {
      var l, _ := Look(key, Op.Load(key, LookCurrent));
      if l.Absent? {
        return Loaded("");
      }
      if l.Marked? {
        var r := Read(key, l.m, Current(key));
        if r.Some? {
          return Loaded(r.value);
        }
      }
      var p, _ := Look(PreviousName(key), Op.Load(key, LookBackup));
      if p.Marked? {
        var r := Read(key, p.m, Backup(key));
        if r.Some? {
          return Loaded(r.value);
        }
      }
      return Unreadable;
    }

    /**
    Save stores and verifies a new generation before it publishes its marker. A true result
    means the blob is what Load yields; a false one, or a crash after any call, means Load
    yields what it did before, except that a crash may come after the publishing call.
    */
    method Save(key: string, blob: string, generation: string) returns (ok: bool)
      requires Fresh(keyring.items, Job(key, blob, generation))
      modifies keyring
      ensures keyring.At(digest, Op.Save(Job(key, blob, generation), SaveDone(ok)))
      ensures keyring.began == old(keyring.items) && keyring.from == Op.Save(Job(key, blob, generation), LookMarker)
      ensures View(digest, keyring.items, key) == if ok then Loaded(blob) else View(digest, old(keyring.items), key)
      ensures forall i :: 0 <= i <= |keyring.log| ==>
                CrashSafe(digest, key, old(keyring.items), ItemsAfter(old(keyring.items), keyring.log[..i]),
                    Loaded(blob))
    {
      ghost var job := Job(key, blob, generation);
      keyring.Begin(digest, Op.Save(job, LookMarker));
      ok := SaveCalls(key, blob, generation);
      SaveResult(digest, keyring.began, job, keyring.log, ok);
      forall i | 0 <= i <= |keyring.log|
        ensures CrashSafe(digest, key, keyring.began, ItemsAfter(keyring.began, keyring.log[..i]), Loaded(blob))
      {
        SaveCrashSafe(digest, keyring.began, job, keyring.log, i);
      }
    }

    /** The calls of Save, in the order the code makes them. */
    method SaveCalls(key: string, blob: string, generation: string) returns (ok: bool)
      requires JobOk(Job(key, blob, generation)) && keyring.At(digest, Op.Save(Job(key, blob, generation), LookMarker))
      modifies keyring
      ensures keyring.At(digest, Op.Save(Job(key, blob, generation), SaveDone(ok)))
      ensures keyring.began == old(keyring.began) && keyring.from == old(keyring.from)
    {
      hide Keyring.At, Legal, After, Parse, Encode;
      ghost var job := Job(key, blob, generation);
      var l, _ := Look(key, Op.Save(job, LookMarker));
      // A marker that does not parse, or could not be read, counts as not found.
      var current := if l.Marked? then Some(l.m) else None;
      var p, _ := Look(PreviousName(key), Op.Save(job, LookPrevious(current)));
      if p.Bad? {
        return false;
      }
      var previous := if p.Marked? then Some(p.m) else None;
      var usable: Option<Marker> := None;
      if current.Some? {
        var r := Read(key, current.value, Probing(job, previous));
        usable := if r.Some? then current else None;
      }
      var plan := Plan(usable, previous);
      var next := Next(digest, Job(key, blob, generation));
      var stored := StoreChunks(Job(key, blob, generation), next, plan);
      if !stored {
        return false;
      }
      NextWellFormed(digest, job);
      var verified := Read(key, next, Verifying(job, plan));
      if verified.None? {
        return false;
      }
      ok := MoveMarkers(job, key, next, plan);
    }

    method StoreChunks(job: Job, next: Marker, ghost plan: Plan) returns (ok: bool)
      requires next == Next(digest, job) && keyring.At(digest, Op.Save(job, Store(plan, 0)))
      modifies keyring
      ensures keyring.At(digest, Op.Save(job, if ok then Verify(plan, Start(next)) else SaveDone(false)))
      ensures keyring.began == old(keyring.began) && keyring.from == old(keyring.from)
    {
      var i := 0;
      while i < next.count
        invariant i <= next.count
        invariant keyring.At(digest, Op.Save(job, if i < next.count then Store(plan, i) else Verify(plan, Start(next))))
        invariant keyring.began == old(keyring.began) && keyring.from == old(keyring.from)
      {
        var reply := keyring.Set(ChunkName(job.key, next, i), Slice(job.blob, i), digest, Op.Save(job, Store(plan, i)));
        if !reply.Ok? {
          return false;
        }
        i := i + 1;
      }
      return true;
    }

    /** The backup marker, the legacy count, the new marker, and last the superseded generation. */
    method MoveMarkers(ghost job: Job, key: string, next: Marker, plan: Plan) returns (ok: bool)
      requires key == job.key && next == Next(digest, job)
      requires plan.previous.Some? ==> WellFormed(plan.previous.value)
      requires keyring.At(digest, Op.Save(job, if plan.usable.Some? then MarkBackup(plan) else Publish(plan)))
      modifies keyring
      ensures keyring.At(digest, Op.Save(job, SaveDone(ok)))
      ensures keyring.began == old(keyring.began) && keyring.from == old(keyring.from)
    {
      hide Keyring.At, Legal, After, Parse;
      if plan.usable.Some? {
        var kept := plan.usable.value;
        var marked := keyring.Set(PreviousName(key), Encode(kept), digest, Op.Save(job, MarkBackup(plan)));
        if !marked.Ok? {
          return false;
        }
        if kept.generation == "" {
          marked := keyring.Set(LegacyCountName(key), Itoa(kept.count), digest, Op.Save(job, MarkLegacy(plan)));
          if !marked.Ok? {
            return false;
          }
        }
      }
      var published := keyring.Set(key, Encode(next), digest, Op.Save(job, Publish(plan)));
      if !published.Ok? {
        return false;
      }
      // Legacy chunks are never removed here, only a superseded versioned generation.
      if plan.Supersedes() {
        RemoveChunks(key, plan.Stale(), Collecting(job, plan));
      }
      return true;
    }

    /** Delete reads all three markers, retires them and then removes what they named. */
    method Delete(key: string) returns (ok: bool)
      requires KeyOk(key)
      modifies keyring
      ensures keyring.At(digest, Remove(key, DeleteDone(ok)))
      ensures keyring.began == old(keyring.items) && keyring.from == Remove(key, LookAt(0, []))
      ensures ok ==> View(digest, keyring.items, key) == Loaded("") && Retired(keyring.items, key, 3)
      ensures Faultless(keyring.log) ==>
                forall name :: name in old(keyring.items) ==>
                  (name !in keyring.items <==> ok && Contents.Doomed(old(keyring.items), key, name))
      ensures forall i :: 0 <= i <= |keyring.log| ==>
                CrashSafe(digest, key, old(keyring.items), ItemsAfter(old(keyring.items), keyring.log[..i]), Loaded(""))
    {
      keyring.Begin(digest, Remove(key, LookAt(0, [])));
      ok := DeleteCalls(key);
      LogKeeps(digest, keyring.began, keyring.from, keyring.log);
      if Faultless(keyring.log) {
        Contents.DeleteExactly(digest, keyring.began, key, keyring.log, ok);
      }
      forall i | 0 <= i <= |keyring.log|
        ensures CrashSafe(digest, key, keyring.began, ItemsAfter(keyring.began, keyring.log[..i]), Loaded(""))
      {
        DeleteCrashSafe(digest, keyring.began, key, keyring.log, i);
      }
    }

    method DeleteCalls(key: string) returns (ok: bool)
      requires keyring.At(digest, Remove(key, LookAt(0, [])))
      modifies keyring
      ensures keyring.At(digest, Remove(key, DeleteDone(ok)))
      ensures keyring.began == old(keyring.began) && keyring.from == old(keyring.from)
    {
      hide Keyring.At, Legal, After, Parse;
      var found, current, previous, legacy := FindMarkers(key);
      if !found {
        return false;
      }
      var rest := Marks(previous) + Marks(legacy);
      var retired := RetireMarkers(key, Marks(current) + rest);
      if !retired {
        return false;
      }
      PurgeIfFound(key, current, rest);
      PurgeIfFound(key, previous, Marks(legacy));
      assert Marks(legacy) == Marks(legacy) + [];
      PurgeIfFound(key, legacy, []);
      return true;
    }

    /** One of the three looks of Delete. */
    method LookForDelete(key: string, name: string, ghost at: nat, ghost found: seq<Marker>) returns (l: Looked)
      requires at <= 2 && name == MarkerItem(key, at) && keyring.At(digest, Remove(key, LookAt(at, found)))
      modifies keyring
      ensures l.Marked? ==> WellFormed(l.m)
      ensures keyring.At(digest, Remove(key, LookedAt(at, found, l)))
      ensures keyring.items == old(keyring.items) && keyring.began == old(keyring.began)
      ensures keyring.from == old(keyring.from)
    {
      hide Keyring.At;
      ghost var reply;
      l, reply := Look(name, Remove(key, LookAt(at, found)));
      LookAtResumes(digest, key, at, found, reply);
    }

    /** All three markers, or an error before anything is removed. */
    method FindMarkers(key: string) returns (ok: bool, current: Looked, previous: Looked, legacy: Looked)
      requires keyring.At(digest, Remove(key, LookAt(0, [])))
      modifies keyring
      ensures ok ==> forall l :: l in {current, previous, legacy} && l.Marked? ==> WellFormed(l.m)
      ensures keyring.At(digest, Remove(key,
                if ok then Retire(0, Marks(current) + (Marks(previous) + Marks(legacy))) else DeleteDone(false)))
      ensures keyring.items == old(keyring.items) && keyring.began == old(keyring.began)
      ensures keyring.from == old(keyring.from)
    {
      hide Keyring.At, WellFormed, Marks;
      ok, current, previous, legacy := false, Bad, Bad, Bad;
      current := LookForDelete(key, key, 0, []);
      if current.Bad? {
        return;
      }
      ghost var found := [] + Marks(current);
      previous := LookForDelete(key, PreviousName(key), 1, found);
      if previous.Bad? {
        return;
      }
      legacy := LookForDelete(key, LegacyCountName(key), 2, found + Marks(previous));
      if legacy.Bad? {
        return;
      }
      assert found + Marks(previous) + Marks(legacy) == Marks(current) + (Marks(previous) + Marks(legacy));
      ok := true;
    }

    /** The marker items go first, so that no marker ever names removed chunks. */
    method RetireMarkers(key: string, ghost found: seq<Marker>) returns (ok: bool)
      requires keyring.At(digest, Remove(key, Retire(0, found)))
      modifies keyring
      ensures keyring.At(digest, Remove(key, if ok then PurgeAll(found) else DeleteDone(false)))
      ensures keyring.began == old(keyring.began) && keyring.from == old(keyring.from)
    {
      var reply := keyring.Delete(key, digest, Remove(key, Retire(0, found)));
      if reply.Failed? {
        return false;
      }
      reply := keyring.Delete(PreviousName(key), digest, Remove(key, Retire(1, found)));
      if reply.Failed? {
        return false;
      }
      reply := keyring.Delete(LegacyCountName(key), digest, Remove(key, Retire(2, found)));
      return !reply.Failed?;
    }

    method PurgeIfFound(key: string, l: Looked, ghost rest: seq<Marker>)
      requires (l.Marked? ==> WellFormed(l.m)) && keyring.At(digest, Remove(key, PurgeAll(Marks(l) + rest)))
      modifies keyring
      ensures keyring.At(digest, Remove(key, PurgeAll(rest)))
      ensures keyring.began == old(keyring.began) && keyring.from == old(keyring.from)
    {
      ghost var found := Marks(l) + rest;
      if l.Marked? {
        assert found[1..] == rest;
        RemoveChunks(key, l.m, Purging(key, found));
      } else {
        assert found == rest;
      }
    }
  }
}
