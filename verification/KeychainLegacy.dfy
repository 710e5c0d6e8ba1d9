/**
Legacy layouts: the count of the unversioned chunks is never lost while their Gets are
answered, so a later Delete can still remove them; and one unanswered Get does lose it.
*/
module KeychainLegacy {
  import opened Wrappers
  import opened Text
  import opened Markers
  import opened KeychainOps
  import opened KeychainStep
  import opened KeychainSystem
  import opened KeychainRecovery
  import opened KeychainLayout

  /** All n legacy chunks are in place, and the current or the legacy count marker names them. */
  predicate Reclaimable(d: Digest, items: Items, key: string, n: nat) {
    && 1 <= n <= MAX_INT && Read(d, items, key, Legacy(n)).Some?
    && (MarkerAt(items, key).Some? && MarkerAt(items, key).value.generation == "" ==> Names(items, key, Legacy(n)))
    && (LegacyCountName(key) in items ==> Names(items, LegacyCountName(key), Legacy(n)))
    && (Names(items, key, Legacy(n)) || Names(items, LegacyCountName(key), Legacy(n)))
  }

  /** A Save that finds the legacy generation current is going to record its count before publishing. */
  predicate Recording(items: Items, job: Job, st: SaveState, n: nat) {
    && (Names(items, job.key, Legacy(n)) ==> PlanOf(st, Some(Legacy(n))))
    && (st.Publish? ==> Names(items, LegacyCountName(job.key), Legacy(n)))
    && (st.MarkLegacy? ==> st.plan.Kept() == Legacy(n))
  }

  lemma LegacyCountParses(n: nat)
    requires 1 <= n <= MAX_INT
    ensures Parse(Itoa(n)) == Some(Legacy(n))
  {
    ParseEncode(Legacy(n));
  }

  lemma ReclaimableSaveStep(d: Digest, items: Items, job: Job, st: SaveState, reply: Reply, items': Items, n: nat)
    requires KeyOk(job.key) && SaveFacts(d, items, job, st) && SaveRequest(d, job, st).Some?
    requires Answers(items, SaveRequest(d, job, st).value, reply, items')
    requires SaveRequest(d, job, st).value.Get? ==> !reply.Failed?
    requires Reclaimable(d, items, job.key, n) && Recording(items, job, st, n)
    ensures Reclaimable(d, items', job.key, n)
  {
    SaveSlots(d, items, job, st, reply, items');
    SaveReadsPast(d, items, job, st, reply, items', Legacy(n));
    CallChangesOnly(items, SaveRequest(d, job, st).value, reply, items');
    match st
    case MarkLegacy(_) => LegacyCountParses(n);
    case Publish(_) => NextWellFormed(d, job);
    case _ =>
  }

  lemma RecordingStep(d: Digest, items: Items, job: Job, st: SaveState, reply: Reply, items': Items, n: nat)
    requires KeyOk(job.key) && SaveFacts(d, items, job, st) && SaveRequest(d, job, st).Some?
    requires Answers(items, SaveRequest(d, job, st).value, reply, items')
    requires SaveRequest(d, job, st).value.Get? ==> !reply.Failed?
    requires Reclaimable(d, items, job.key, n) && Recording(items, job, st, n)
    ensures Recording(items', job, SaveResume(d, job, st, reply), n)
  {
    hide Parse, Encode, ChunkName, Slice, ReadFrom, OnlyChanges, Unnamed, Owner;
    SaveSlots(d, items, job, st, reply, items');
    CallChangesOnly(items, SaveRequest(d, job, st).value, reply, items');
    match st
    case Probe(_, c) => ReadStep(d, items, job.key, c, reply);
    case MarkLegacy(_) => LegacyCountParses(n);
    case Publish(_) => NextWellFormed(d, job);
    case _ =>
  }

  // Runs of Saves, each possibly cut short at any call

  /** The program is a Save of the key, and its next call is a Get. */
  predicate LooksFor(d: Digest, op: Op, key: string) {
    op.Save? && KeyOf(op) == key && Request(d, op).Some? && Request(d, op).value.Get?
  }

  /** Nobody deletes the key, and the Gets of its Saves are answered. */
  predicate SavesServed(d: Digest, s: System, e: Event, key: string) {
    && (e.Begin? && KeyOf(e.op) == key ==> !e.op.Remove?)
    && (e.Call? && e.pid in s.threads && LooksFor(d, s.threads[e.pid].op, key) ==> !e.reply.Failed?)
  }

  ghost predicate LegacyInv(d: Digest, s: System, key: string, n: nat) {
    && Reclaimable(d, s.items, key, n)
    && forall p :: p in s.threads && KeyOf(s.threads[p].op) == key ==>
         && !s.threads[p].op.Remove?
         && (s.threads[p].Running? && s.threads[p].op.Save? ==>
              Recording(s.items, s.threads[p].op.job, s.threads[p].op.save, n))
  }

  lemma ReclaimableFrame(d: Digest, items: Items, items': Items, key: string, n: nat)
    requires KeyOk(key) && forall m :: Owner(m) == key ==> Same(items, items', m)
    ensures Reclaimable(d, items, key, n) ==> Reclaimable(d, items', key, n)
    ensures MarkerAt(items', key) == MarkerAt(items, key)
    ensures MarkerAt(items', LegacyCountName(key)) == MarkerAt(items, LegacyCountName(key))
  {
    KeyFrame(d, items, items', key);
  }

  lemma LegacyCall(d: Digest, s: System, p: Pid, reply: Reply, s': System, key: string, n: nat)
    requires Inv(d, s) && Happens(d, s, Call(p, reply), s') && KeyOk(key)
    requires SavesServed(d, s, Call(p, reply), key) && LegacyInv(d, s, key, n)
    ensures LegacyInv(d, s', key, n)
  {
    hide Recording, Reclaimable, SaveFacts, View, Sound, Parse, Encode, ChunkName;
    var op := s.threads[p].op;
    OpStep(d, s.items, op, reply, s'.items);
    if KeyOf(op) != key {
      ReclaimableFrame(d, s.items, s'.items, key, n);
      forall q | q in s.threads && KeyOf(s.threads[q].op) == key && s.threads[q].Running? && s.threads[q].op.Save?
        ensures Recording(s'.items, s.threads[q].op.job, s.threads[q].op.save, n)
      {
        RecordingFrame(s.items, s'.items, s.threads[q].op.job, s.threads[q].op.save, n);
      }
    } else if op.Save? {
      ReclaimableSaveStep(d, s.items, op.job, op.save, reply, s'.items, n);
      RecordingStep(d, s.items, op.job, op.save, reply, s'.items, n);
    }
  }

  lemma RecordingFrame(items: Items, items': Items, job: Job, st: SaveState, n: nat)
    requires MarkerAt(items', job.key) == MarkerAt(items, job.key)
    requires MarkerAt(items', LegacyCountName(job.key)) == MarkerAt(items, LegacyCountName(job.key))
    requires Recording(items, job, st, n)
    ensures Recording(items', job, st, n)
  {
  }

  lemma LegacyStep(d: Digest, s: System, e: Event, s': System, key: string, n: nat)
    requires Inv(d, s) && Happens(d, s, e, s') && KeyOk(key) && !e.Damage?
    requires SavesServed(d, s, e, key) && LegacyInv(d, s, key, n)
    ensures LegacyInv(d, s', key, n)
  {
    hide Facts, Reclaimable, Request;
    if e.Call? {
      LegacyCall(d, s, e.pid, e.reply, s', key, n);
    }
  }

  lemma {:induction false} LegacyRun(d: Digest, states: seq<System>, events: seq<Event>, key: string, n: nat, i: nat)
    requires IsRun(d, states, events) && Idle(states[0]) && Clean(events) && KeyOk(key) && i < |states|
    requires forall j :: 0 <= j < |events| ==> SavesServed(d, states[j], events[j], key)
    requires Reclaimable(d, states[0].items, key, n)
    ensures LegacyInv(d, states[i], key, n)
  {
    hide Happens, Inv, LegacyInv, SavesServed, Reclaimable, Idle;
    if i > 0 {
      LegacyRun(d, states, events, key, n, i - 1);
      InvRun(d, states, events, i - 1);
      LegacyStep(d, states[i - 1], events[i - 1], states[i], key, n);
    } else {
      IdleReclaimable(d, states[0], key, n);
    }
  }

  lemma IdleReclaimable(d: Digest, s: System, key: string, n: nat)
    requires Idle(s) && Reclaimable(d, s.items, key, n)
    ensures LegacyInv(d, s, key, n)
  {
  }

  // The later Delete

  lemma LegacyFound(items: Items, key: string, n: nat)
    requires Names(items, key, Legacy(n)) || Names(items, LegacyCountName(key), Legacy(n))
    ensures Legacy(n) in FoundBefore(items, key, 3)
  {
    assert MarkerItem(key, 0) == key && MarkerItem(key, 2) == LegacyCountName(key);
    assert FoundBefore(items, key, 1) == Collected(FoundBefore(items, key, 0), MarkerAt(items, key));
    assert FoundBefore(items, key, 2) == Collected(FoundBefore(items, key, 1), MarkerAt(items, PreviousName(key)));
    if Names(items, key, Legacy(n)) {
      assert FoundBefore(items, key, 1)[0] == Legacy(n);
      assert FoundBefore(items, key, 2)[0] == Legacy(n);
      assert FoundBefore(items, key, 3)[0] == Legacy(n);
    }
  }

  lemma {:induction false} ChunksOfMember(key: string, ms: seq<Marker>, m: Marker)
    requires m in ms
    ensures Chunks(key, m, m.count) <= ChunksOf(key, ms)
  {
    if m != ms[|ms| - 1] {
      ChunksOfMember(key, ms[..|ms| - 1], m);
    }
  }

  lemma DeleteReclaims(d: Digest, items: Items, key: string, n: nat, log: seq<Entry>, ok: bool)
    requires KeyOk(key) && Reclaimable(d, items, key, n) && Readable(items, key, 2)
    requires Legal(d, items, Remove(key, LookAt(0, [])), log) && Faultless(log)
    requires After(d, Remove(key, LookAt(0, [])), log) == Remove(key, DeleteDone(ok))
    ensures ok && forall i :: 0 <= i < n ==> ChunkName(key, Legacy(n), i) !in ItemsAfter(items, log)
  {
    assert Readable(items, key, 3) by {
      assert MarkerItem(key, 2) == LegacyCountName(key);
    }
    DeleteSucceedsExactly(d, items, key, log, ok);
    LegacyFound(items, key, n);
    ChunksOfMember(key, FoundBefore(items, key, 3), Legacy(n));
    forall i | 0 <= i < n ensures ChunkName(key, Legacy(n), i) !in ItemsAfter(items, log) {
      ChunkIn(key, Legacy(n), i, n);
      ItemsOwned(key, Legacy(n), i);
    }
  }

  lemma SoundReadable(d: Digest, items: Items, key: string)
    requires Sound(d, items, key)
    ensures Readable(items, key, 2)
  {
    assert MarkerItem(key, 0) == key && MarkerItem(key, 1) == PreviousName(key);
  }

  /**
  Legacy reclaim across crashes: from a complete legacy generation, after any run in which any
  number of processes Save and Load the key, each cut short anywhere, every legacy chunk is
  still there, a marker item still names the full count, and an uninterrupted Delete removes
  them all.
  */
  lemma LegacyReclaim(d: Digest, states: seq<System>, events: seq<Event>, key: string, n: nat, i: nat, log: seq<Entry>,
          ok: bool)
    requires IsRun(d, states, events) && Idle(states[0]) && Clean(events) && KeyOk(key) && i < |states|
    requires forall j :: 0 <= j < |events| ==> SavesServed(d, states[j], events[j], key)
    requires Names(states[0].items, key, Legacy(n)) && LegacyCountName(key) !in states[0].items
    requires Sound(d, states[0].items, key)
    requires Legal(d, states[i].items, Remove(key, LookAt(0, [])), log) && Faultless(log)
    requires After(d, Remove(key, LookAt(0, [])), log) == Remove(key, DeleteDone(ok))
    ensures Reclaimable(d, states[i].items, key, n)
    ensures ok && forall j :: 0 <= j < n ==> ChunkName(key, Legacy(n), j) !in ItemsAfter(states[i].items, log)
  {
    LegacyRun(d, states, events, key, n, i);
    MarkersStayComplete(d, states, events, key, i);
    SoundReadable(d, states[i].items, key);
    DeleteReclaims(d, states[i].items, key, n, log, ok);
  }

  // Exactly when one successful Save keeps the count

  /** Where a Save can be once one of its Gets has gone unanswered. */
  predicate Forgetting(items: Items, job: Job, st: SaveState) {
    && LegacyCountName(job.key) !in items
    && (st == LookPrevious(None) || st.SaveDone? || ((st.Store? || st.Verify? || st.Publish?) && st.plan.usable.None?))
  }

  /** Before the marker items change, or after them with the count still missing. */
  predicate Uncounted(items: Items, job: Job, st: SaveState) {
    LegacyCountName(job.key) in items ==> st.Publish? || st.Collect? || st.SaveDone?
  }

  lemma ForgettingStep(d: Digest, items: Items, job: Job, st: SaveState, reply: Reply, items': Items)
    requires KeyOk(job.key) && SaveFacts(d, items, job, st) && SaveRequest(d, job, st).Some?
    requires Answers(items, SaveRequest(d, job, st).value, reply, items') && Uncounted(items, job, st)
    ensures Uncounted(items', job, SaveResume(d, job, st, reply))
    ensures Forgetting(items, job, st) || (SaveRequest(d, job, st).value.Get? && reply.Failed?) ==>
              Forgetting(items', job, SaveResume(d, job, st, reply))
  {
    hide SaveFacts, Parse, Encode, ChunkName, Slice;
    SaveSlots(d, items, job, st, reply, items');
  }

  lemma {:induction false} ForgettingLog(d: Digest, items: Items, job: Job, log: seq<Entry>)
    requires Fresh(items, job) && Legal(d, items, Save(job, LookMarker), log)
    requires LegacyCountName(job.key) !in items
    ensures var op, items' := After(d, Save(job, LookMarker), log), ItemsAfter(items, log);
            && op.Save? && op.job == job && Uncounted(items', job, op.save)
            && (Missed(log) ==> Forgetting(items', job, op.save))
  {
    SaveWritesOnce(d, job, log);
    if log != [] {
      var before, e := log[..|log| - 1], log[|log| - 1];
      LogKeeps(d, items, Save(job, LookMarker), before);
      ForgettingLog(d, items, job, before);
      ForgettingStep(d, ItemsAfter(items, before), job, After(d, Save(job, LookMarker), before).save, e.reply, e.after);
    }
  }

  /**
  A successful Save over a complete legacy generation records its count if and only if every
  Get it made was answered: one failed Get makes the generation look unusable, and publishing
  then replaces the only marker that knew the count.
  */
  lemma LegacyCountKeptExactly(d: Digest, items: Items, job: Job, log: seq<Entry>, n: nat)
    requires Fresh(items, job) && Legal(d, items, Save(job, LookMarker), log)
    requires Usable(d, items, job.key, Legacy(n)) && LegacyCountName(job.key) !in items
    requires After(d, Save(job, LookMarker), log) == Save(job, SaveDone(true))
    ensures Names(ItemsAfter(items, log), LegacyCountName(job.key), Legacy(n)) <==> !Missed(log)
    ensures !Names(ItemsAfter(items, log), job.key, Legacy(n))
  {
    hide Parse, Encode, View, Sound, ReadFrom, Legal, After;
    LogKeeps(d, items, Save(job, LookMarker), log);
    NextWellFormed(d, job);
    if Missed(log) {
      ForgettingLog(d, items, job, log);
    } else {
      RecordedLog(d, items, job, log, n);
    }
  }

  lemma {:induction false} RecordedLog(d: Digest, items: Items, job: Job, log: seq<Entry>, n: nat)
    requires Fresh(items, job) && Legal(d, items, Save(job, LookMarker), log) && !Missed(log)
    requires Usable(d, items, job.key, Legacy(n)) && LegacyCountName(job.key) !in items
    ensures var op, items' := After(d, Save(job, LookMarker), log), ItemsAfter(items, log);
            op.Save? && op.job == job && Reclaimable(d, items', job.key, n) && Recording(items', job, op.save, n)
  {
    SaveWritesOnce(d, job, log);
    if log != [] {
      var before, e := log[..|log| - 1], log[|log| - 1];
      LogKeeps(d, items, Save(job, LookMarker), before);
      RecordedLog(d, items, job, before, n);
      var st := After(d, Save(job, LookMarker), before).save;
      ReclaimableSaveStep(d, ItemsAfter(items, before), job, st, e.reply, e.after, n);
      RecordingStep(d, ItemsAfter(items, before), job, st, e.reply, e.after, n);
    }
  }

  // One failed Get is enough, for every legacy layout

  /** The answer of a keyring that serves the call. */
  function Served(items: Items, call: Call): Entry {
    match call
    case Get(n) => Entry(call, if n in items then Found(items[n]) else NotFound, items)
    case Set(n, v) => Entry(call, Ok, items[n := v])
    case Delete(n) => Entry(call, if n in items then Ok else NotFound, items - {n})
  }

  /** How far a Save is from its end: the stage, and the chunks left in it. */
  function Stage(st: SaveState): nat {
    match st
    case LookMarker => 9
    case LookPrevious(_) => 8
    case Probe(_, _) => 7
    case Store(_, _) => 6
    case Verify(_, _) => 5
    case MarkBackup(_) => 4
    case MarkLegacy(_) => 3
    case Publish(_) => 2
    case Collect(_, _) => 1
    case SaveDone(_) => 0
  }

  function ChunksLeft(job: Job, st: SaveState): int {
    match st
    case Probe(_, c) => c.m.count - c.i
    case Store(_, i) => ChunkCount(|job.blob|) - i
    case Verify(_, c) => c.m.count - c.i
    case Collect(plan, i) => plan.Stale().count - i
    case _ => 0
  }

  lemma SaveMovesOn(d: Digest, items: Items, job: Job, st: SaveState, reply: Reply)
    requires SaveFacts(d, items, job, st) && SaveRequest(d, job, st).Some?
    ensures var st' := SaveResume(d, job, st, reply);
            && ChunksLeft(job, st) >= 0
            && (Stage(st') < Stage(st) || (Stage(st') == Stage(st) && ChunksLeft(job, st') < ChunksLeft(job, st)))
  {
    hide Parse, Encode, Written, View, Sound, ReadFrom;
  }

  /** A Save that has got past its look at the backup marker, or still will, succeeds once the keyring serves it. */
  lemma {:induction false} RunsOn(d: Digest, items: Items, job: Job, log: seq<Entry>) returns (full: seq<Entry>)
    requires Fresh(items, job) && Legal(d, items, Save(job, LookMarker), log)
    requires PreviousName(job.key) in items ==> MarkerAt(items, PreviousName(job.key)).Some?
    requires After(d, Save(job, LookMarker), log).Save?
    requires PastLook(items, ItemsAfter(items, log), job, After(d, Save(job, LookMarker), log).save)
    ensures Legal(d, items, Save(job, LookMarker), full) && (Missed(log) ==> Missed(full))
    ensures After(d, Save(job, LookMarker), full) == Save(job, SaveDone(true))
    decreases Stage(After(d, Save(job, LookMarker), log).save),
                ChunksLeft(job, After(d, Save(job, LookMarker), log).save)
  {
    hide PastLook, SaveFacts, Parse, Encode, View, Sound, Fresh, Stage, ChunksLeft;
    var op, now := After(d, Save(job, LookMarker), log), ItemsAfter(items, log);
    FreshFacts(d, items, job);
    LogKeeps(d, items, Save(job, LookMarker), log);
    SaveWritesOnce(d, job, log);
    if op.save.SaveDone? {
      full := log;
      LookedDone(items, now, job, op.save);
    } else {
      var e := Served(now, SaveRequest(d, job, op.save).value);
      var more := log + [e];
      assert more[..|more| - 1] == log;
      FreshKeyOk(items, job);
      PastLookStep(d, items, now, job, op.save, e.reply, e.after);
      SaveMovesOn(d, now, job, op.save, e.reply);
      full := RunsOn(d, items, job, more);
    }
  }

  lemma FreshKeyOk(items: Items, job: Job)
    requires Fresh(items, job)
    ensures KeyOk(job.key)
  {
  }

  lemma LookedDone(items0: Items, items: Items, job: Job, st: SaveState)
    requires PastLook(items0, items, job, st) && st.SaveDone?
    requires PreviousName(job.key) in items0 ==> MarkerAt(items0, PreviousName(job.key)).Some?
    ensures st == SaveDone(true)
  {
  }

  lemma StartsPastLook(d: Digest, items: Items, job: Job)
    requires Fresh(items, job)
    ensures var log := [Entry(Get(job.key), Failed, items)];
            && Legal(d, items, Save(job, LookMarker), log) && Missed(log)
            && After(d, Save(job, LookMarker), log) == Save(job, LookPrevious(None))
            && PastLook(items, ItemsAfter(items, log), job, LookPrevious(None))
  {
    hide Parse, Encode, View, Sound, Fresh;
    var op, e := Save(job, LookMarker), Entry(Get(job.key), Failed, items);
    var log := [e];
    assert log[..|log| - 1] == [] && log[|log| - 1] == e;
    assert After(d, op, []) == op && Legal(d, items, op, []);
    assert After(d, op, log) == Resume(d, op, Failed);
  }

  /**
  Every legacy layout can lose its count: whatever the blob, a Save whose first Get fails and
  whose other calls are served reports success, and no marker names the legacy chunks any more.
  */
  lemma OneMissLosesTheCount(d: Digest, items: Items, job: Job, n: nat) returns (log: seq<Entry>)
    requires Fresh(items, job) && Usable(d, items, job.key, Legacy(n)) && LegacyCountName(job.key) !in items
    requires PreviousName(job.key) !in items
    ensures Legal(d, items, Save(job, LookMarker), log) && Missed(log)
    ensures After(d, Save(job, LookMarker), log) == Save(job, SaveDone(true))
    ensures var items' := ItemsAfter(items, log);
            && Read(d, items', job.key, Legacy(n)).Some?
            && forall at :: 0 <= at < 3 ==> !Names(items', MarkerItem(job.key, at), Legacy(n))
  {
    hide View, Sound, Parse, Encode, ReadFrom, Legal, PastLook;
    StartsPastLook(d, items, job);
    var first := Entry(Get(job.key), Failed, items);
    log := RunsOn(d, items, job, [first]);
    LegacyCountKeptExactly(d, items, job, log, n);
    SaveWritesOnce(d, job, log);
    OldGenerationInReach(d, items, job, log, Legacy(n), Read(d, items, job.key, Legacy(n)).value);
  }

  /** One such keyring and Save: the smallest legacy layout, overwritten by an empty blob. */
  lemma ACountIsLost(d: Digest) returns (items: Items, job: Job, log: seq<Entry>)
    ensures Fresh(items, job) && Usable(d, items, job.key, Legacy(1)) && Legal(d, items, Save(job, LookMarker), log)
    ensures After(d, Save(job, LookMarker), log) == Save(job, SaveDone(true)) && Missed(log)
    ensures forall at :: 0 <= at < 3 ==> !Names(ItemsAfter(items, log), MarkerItem(job.key, at), Legacy(1))
  {
    var key, chunk := "k", ChunkName("k", Legacy(1), 0);
    items := map[key := Itoa(1), chunk := "token"];
    job := Job(key, "", seq(32, _ => '0'));
    LegacyCountParses(1);
    MarkerItemsApart(key, Legacy(1), 0);
    assert Read(d, items, key, Legacy(1)).Some?;
    log := OneMissLosesTheCount(d, items, job, 1);
  }
}
