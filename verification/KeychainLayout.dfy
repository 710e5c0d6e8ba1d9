/**
The items a key owns: exactly its two generations and their markers, plus what a legacy
layout left, after any run of Saves without failures; none after a Delete.
*/
module KeychainLayout {
  import opened Wrappers
  import opened Markers
  import opened KeychainOps
  import opened KeychainStep
  import opened KeychainRecovery

  // Sets of names

  function Owned(items: Items, key: string): set<string> { set n | n in items && Owner(n) == key }

  /** The names of m's first i chunks. */
  function Chunks(key: string, m: Marker, i: nat): set<string> {
    if i == 0 then {} else Chunks(key, m, i - 1) + {ChunkName(key, m, i - 1)}
  }

  function AllChunks(key: string, m: Option<Marker>): set<string> {
    if m.Some? then Chunks(key, m.value, m.value.count) else {}
  }

  lemma {:induction false} ChunksApart(key: string, m: Marker, i: nat, n: Marker, j: nat)
    requires WellFormed(m) && WellFormed(n) && m.generation != n.generation
    ensures Chunks(key, m, i) !! Chunks(key, n, j)
  {
    if i > 0 {
      ChunksApart(key, m, i - 1, n, j);
      ChunkNotIn(key, m, i - 1, n, j);
    }
  }

  lemma {:induction false} ChunkNotIn(key: string, m: Marker, k: nat, n: Marker, j: nat)
    requires WellFormed(m) && WellFormed(n) && m.generation != n.generation
    ensures ChunkName(key, m, k) !in Chunks(key, n, j)
  {
    if j > 0 {
      ChunkNotIn(key, m, k, n, j - 1);
      ChunkNamesApart(key, m, k, n, j - 1);
    }
  }

  lemma {:induction false} MarkersNotChunks(key: string, m: Marker, i: nat)
    requires WellFormed(m)
    ensures Chunks(key, m, i) !! {key, PreviousName(key), LegacyCountName(key)}
  {
    if i > 0 {
      MarkersNotChunks(key, m, i - 1);
      MarkerItemsApart(key, m, i - 1);
    }
  }

  lemma {:induction false} ChunkIn(key: string, m: Marker, k: nat, i: nat)
    requires k < i
    ensures ChunkName(key, m, k) in Chunks(key, m, i)
  {
    if k < i - 1 {
      ChunkIn(key, m, k, i - 1);
    }
  }

  lemma OwnedAfterCall(items: Items, call: Call, reply: Reply, items': Items, key: string)
    requires Answers(items, call, reply, items') && Owner(call.name) == key && !reply.Failed?
    ensures call.Get? ==> Owned(items', key) == Owned(items, key)
    ensures call.Set? ==> Owned(items', key) == Owned(items, key) + {call.name}
    ensures call.Delete? ==> Owned(items', key) == Owned(items, key) - {call.name}
  {
  }

  // A Save without failures, state by state

  /** The marker items a plan rewrites before publishing. */
  function Backups(key: string, plan: Plan): set<string> {
    (if plan.usable.Some? then {PreviousName(key)} else {})
    + (if plan.usable.Some? && plan.usable.value.generation == "" then {LegacyCountName(key)} else {})
  }

  /** The names a key owns when a Save that started from names o is in a state. */
  function OwnedBySave(d: Digest, o: set<string>, job: Job, plan: Plan, st: SaveState): set<string> {
    var next := Next(d, job);
    var stored := o + Chunks(job.key, next, next.count);
    var published := stored + Backups(job.key, plan) + {job.key};
    match st
    case Store(_, i) => o + Chunks(job.key, next, i)
    case Verify(_, _) => stored
    case MarkBackup(_) => stored
    case MarkLegacy(_) => stored + {PreviousName(job.key)}
    case Publish(_) => stored + Backups(job.key, plan)
    case Collect(_, i) => published - Chunks(job.key, plan.Stale(), i)
    case SaveDone(true) => if plan.Supersedes() then published - Chunks(job.key, plan.Stale(), plan.Stale().count)
        else published
    case _ => o
  }

  /** The plan is the one the markers call for, and without failures the Save sticks to it. */
  predicate OnPlan(d: Digest, items: Items, job: Job, plan: Plan, st: SaveState) {
    match st
    case LookMarker => Foreseen(d, items, job, plan)
    case LookPrevious(current) => Foreseen(d, items, job, plan) && current == plan.usable
    case Probe(previous, c) => Foreseen(d, items, job, plan) && Some(c.m) == plan.usable && previous == plan.previous
    case Store(p, _) => p == plan
    case Verify(p, _) => p == plan
    case MarkBackup(p) => p == plan
    case MarkLegacy(p) => p == plan && plan.usable.Some? && plan.usable.value.generation == ""
    case Publish(p) => p == plan
    case Collect(p, _) => p == plan
    case SaveDone(ok) => ok
  }

  predicate Foreseen(d: Digest, items: Items, job: Job, plan: Plan) {
    && Holds(items, job.key, plan.usable) && Holds(items, PreviousName(job.key), plan.previous)
    && (plan.usable.Some? ==> Read(d, items, job.key, plan.usable.value).Some?)
  }

  lemma OnPlanStep(d: Digest, items: Items, job: Job, plan: Plan, st: SaveState, reply: Reply, items': Items)
    requires KeyOk(job.key) && SaveFacts(d, items, job, st) && SaveRequest(d, job, st).Some?
    requires Answers(items, SaveRequest(d, job, st).value, reply, items') && !reply.Failed?
    requires OnPlan(d, items, job, plan, st)
    ensures OnPlan(d, items', job, plan, SaveResume(d, job, st, reply))
  {
    match st
    case Probe(_, c) => ReadStep(d, items, job.key, c, reply);
    case Verify(_, c) => ReadStep(d, items, job.key, c, reply);
    case _ =>
  }

  /** A state's names are the previous state's with the called item added or taken away. */
  predicate OwnedMoves(d: Digest, o: set<string>, job: Job, plan: Plan, st: SaveState, reply: Reply, name: string) {
    OwnedBySave(d, o, job, plan, SaveResume(d, job, st, reply))
    == if st.Collect? then OwnedBySave(d, o, job, plan, st) - {name} else OwnedBySave(d, o, job, plan, st) + {name}
  }

  lemma NextChunk(key: string, m: Marker, i: nat)
    ensures Chunks(key, m, i + 1) == Chunks(key, m, i) + {ChunkName(key, m, i)} && Chunks(key, m, 0) == {}
  {
  }

  lemma OwnedWhileStoring(d: Digest, o: set<string>, job: Job, plan: Plan, i: nat)
    requires i < ChunkCount(|job.blob|)
    ensures OwnedMoves(d, o, job, plan, Store(plan, i), Ok, ChunkName(job.key, Next(d, job), i))
  {
    hide ChunkName, Chunks;
    NextChunk(job.key, Next(d, job), i);
  }

  lemma OwnedWhileMoving(d: Digest, o: set<string>, job: Job, plan: Plan, st: SaveState)
    requires st in {MarkBackup(plan), MarkLegacy(plan), Publish(plan)} &&
               (st.MarkBackup? || st.MarkLegacy? ==> plan.usable.Some?)
    requires st.MarkLegacy? ==> plan.usable.value.generation == ""
    requires plan.previous.Some? ==> WellFormed(plan.previous.value)
    ensures OwnedMoves(d, o, job, plan, st, Ok, SaveRequest(d, job, st).value.name)
  {
    hide ChunkName, Chunks, PreviousName, LegacyCountName, Encode;
    NextChunk(job.key, plan.Stale(), 0);
  }

  lemma OwnedWhileCollecting(d: Digest, o: set<string>, job: Job, plan: Plan, i: nat, reply: Reply)
    requires plan.Supersedes() && i < plan.Stale().count
    ensures OwnedMoves(d, o, job, plan, Collect(plan, i), reply, ChunkName(job.key, plan.Stale(), i))
  {
    hide ChunkName, Chunks, PreviousName, LegacyCountName, Next, Backups;
    NextChunk(job.key, plan.Stale(), i);
  }

  lemma OwnedNext(d: Digest, o: set<string>, items: Items, job: Job, plan: Plan, st: SaveState, reply: Reply)
    requires KeyOk(job.key) && SaveFacts(d, items, job, st) && SaveRequest(d, job, st).Some?
    requires SaveRequest(d, job, st).value.Set? || SaveRequest(d, job, st).value.Delete?
    requires OnPlan(d, items, job, plan, st) && if st.Collect? then !reply.Failed? else reply.Ok?
    ensures OwnedMoves(d, o, job, plan, st, reply, SaveRequest(d, job, st).value.name)
  {
    hide OwnedMoves, Parse, Encode, ChunkName, View, Sound, Read, Slice;
    match st
    case Store(_, i) => OwnedWhileStoring(d, o, job, plan, i);
    case Collect(_, i) => OwnedWhileCollecting(d, o, job, plan, i, reply);
    case _ => OwnedWhileMoving(d, o, job, plan, st);
  }

  lemma OwnedStep(d: Digest, o: set<string>, items: Items, job: Job, plan: Plan, st: SaveState, reply: Reply,
          items': Items)
    requires KeyOk(job.key) && SaveFacts(d, items, job, st) && SaveRequest(d, job, st).Some?
    requires Answers(items, SaveRequest(d, job, st).value, reply, items') && !reply.Failed?
    requires OnPlan(d, items, job, plan, st) && Owned(items, job.key) == OwnedBySave(d, o, job, plan, st)
    ensures Owned(items', job.key) == OwnedBySave(d, o, job, plan, SaveResume(d, job, st, reply))
  {
    CallsStayHome(d, Save(job, st));
    OwnedAfterCall(items, SaveRequest(d, job, st).value, reply, items', job.key);
    OnPlanStep(d, items, job, plan, st, reply, items');
    if !SaveRequest(d, job, st).value.Get? {
      OwnedNext(d, o, items, job, plan, st, reply);
    }
  }

  /** The legacy count marker changes only when a legacy generation is superseded. */
  function LegacyAfter(plan: Plan, legacy: Option<Marker>): Option<Marker> {
    if plan.usable.Some? && plan.usable.value.generation == "" then plan.usable else legacy
  }

  predicate LegacySlot(items: Items, key: string, plan: Plan, st: SaveState, legacy: Option<Marker>) {
    Holds(items, LegacyCountName(key),
          if st.Publish? || st.Collect? || st.SaveDone? then LegacyAfter(plan, legacy) else legacy)
  }

  lemma LegacySlotStep(d: Digest, items: Items, job: Job, plan: Plan, st: SaveState, reply: Reply, items': Items,
          legacy: Option<Marker>)
    requires KeyOk(job.key) && SaveFacts(d, items, job, st) && SaveRequest(d, job, st).Some?
    requires Answers(items, SaveRequest(d, job, st).value, reply, items') && !reply.Failed?
    requires OnPlan(d, items, job, plan, st) && LegacySlot(items, job.key, plan, st, legacy)
    ensures LegacySlot(items', job.key, plan, SaveResume(d, job, st, reply), legacy)
  {
    SaveSlots(d, items, job, st, reply, items');
    OnPlanStep(d, items, job, plan, st, reply, items');
    if st.MarkLegacy? {
      CallChangesOnly(items, SaveRequest(d, job, st).value, reply, items');
      ParseEncode(plan.Kept());
      assert Names(items', LegacyCountName(job.key), plan.Kept());
    }
  }

  ghost predicate SaveOnCourse(d: Digest, o: set<string>, items: Items, job: Job, plan: Plan, legacy: Option<Marker>,
          op: Op) {
    && op.Save? && op.job == job && SaveFacts(d, items, job, op.save)
    && OnPlan(d, items, job, plan, op.save)
    && Owned(items, job.key) == OwnedBySave(d, o, job, plan, op.save)
    && LegacySlot(items, job.key, plan, op.save, legacy)
  }

  lemma {:induction false} SaveLog(d: Digest, items: Items, job: Job, plan: Plan, legacy: Option<Marker>,
          log: seq<Entry>)
    requires Fresh(items, job) && Legal(d, items, Save(job, LookMarker), log) && Faultless(log)
    requires Foreseen(d, items, job, plan) && Holds(items, LegacyCountName(job.key), legacy)
    ensures SaveOnCourse(d, Owned(items, job.key), ItemsAfter(items, log), job, plan, legacy,
              After(d, Save(job, LookMarker), log))
  {
    if log != [] {
      var before, e := log[..|log| - 1], log[|log| - 1];
      SaveLog(d, items, job, plan, legacy, before);
      var st, was := After(d, Save(job, LookMarker), before).save, ItemsAfter(items, before);
      SaveStep(d, was, job, st, e.reply, e.after);
      OnPlanStep(d, was, job, plan, st, e.reply, e.after);
      OwnedStep(d, Owned(items, job.key), was, job, plan, st, e.reply, e.after);
      LegacySlotStep(d, was, job, plan, st, e.reply, e.after, legacy);
    }
  }

  // The footprint of a key

  /** The current generation, the backup generation and the legacy leftovers, each with its marker. */
  function Footprint(key: string, current: Option<Marker>, backup: Option<Marker>,
          legacy: Option<Marker>): set<string> {
    (if current.Some? then {key} + AllChunks(key, current) else {})
    + (if backup.Some? then {PreviousName(key)} + AllChunks(key, backup) else {})
    + (if legacy.Some? then {LegacyCountName(key)} + AllChunks(key, legacy) else {})
  }

  /** The markers of a key that has seen no failure: a legacy generation is current only at first. */
  predicate Orderly(current: Option<Marker>, backup: Option<Marker>, legacy: Option<Marker>) {
    && (backup.Some? || legacy.Some? ==> current.Some? && current.value.generation != "")
    && (legacy.Some? ==> legacy.value.generation == "")
    && (backup.Some? ==> if backup.value.generation == "" then backup == legacy
                         else backup.value.generation != current.value.generation)
  }

  /** The key owns exactly its footprint, and its markers name it. */
  ghost predicate Layout(d: Digest, items: Items, key: string, current: Option<Marker>, backup: Option<Marker>,
          legacy: Option<Marker>) {
    && Orderly(current, backup, legacy)
    && Holds(items, key, current) && Holds(items, PreviousName(key), backup) &&
         Holds(items, LegacyCountName(key), legacy)
    && (current.Some? ==> WellFormed(current.value) && Read(d, items, key, current.value).Some?)
    && Owned(items, key) == Footprint(key, current, backup, legacy)
  }

  function LegacyOf(current: Option<Marker>, legacy: Option<Marker>): Option<Marker> {
    LegacyAfter(Plan(current, None), legacy)
  }

  /** Collecting the superseded generation from the names a Save has published leaves the new footprint. */
  lemma FootprintMoves(key: string, next: Marker, current: Option<Marker>, backup: Option<Marker>,
          legacy: Option<Marker>)
    requires WellFormed(next) && Orderly(current, backup, legacy)
    requires current.Some? ==> WellFormed(current.value) && current.value.generation != next.generation
    requires backup.Some? ==> WellFormed(backup.value) && backup.value.generation != next.generation
    requires legacy.Some? ==> WellFormed(legacy.value)
    requires next.generation != ""
    ensures var plan := Plan(current, backup);
            var published := Footprint(key, current, backup, legacy) + Chunks(key, next, next.count) +
                Backups(key, plan) + {key};
            Footprint(key, Some(next), current, LegacyOf(current, legacy))
            == if plan.Supersedes() then published - AllChunks(key, backup) else published
  {
    var plan := Plan(current, backup);
    if plan.Supersedes() {
      var stale := backup.value;
      MarkersNotChunks(key, stale, stale.count);
      ChunksApart(key, stale, stale.count, next, next.count);
      ChunksApart(key, stale, stale.count, current.value, current.value.count);
      if legacy.Some? {
        ChunksApart(key, stale, stale.count, legacy.value, legacy.value.count);
      }
    }
  }

  /**
  A Save without failures succeeds, and moves the footprint on by one generation: the new one
  becomes current, the old current one the backup, and the old backup's items are gone.
  */
  lemma SaveMovesFootprint(d: Digest, items: Items, job: Job, log: seq<Entry>, current: Option<Marker>,
          backup: Option<Marker>, legacy: Option<Marker>)
    requires Fresh(items, job) && Legal(d, items, Save(job, LookMarker), log) && Faultless(log)
    requires Layout(d, items, job.key, current, backup, legacy)
    requires Request(d, After(d, Save(job, LookMarker), log)).None?
    ensures After(d, Save(job, LookMarker), log) == Save(job, SaveDone(true))
    ensures Layout(d, ItemsAfter(items, log), job.key, Some(Next(d, job)), current, LegacyOf(current, legacy))
  {
    var plan, items' := Plan(current, backup), ItemsAfter(items, log);
    SaveLog(d, items, job, plan, legacy, log);
    NextWellFormed(d, job);
    FootprintMoves(job.key, Next(d, job), current, backup, legacy);
    if current.Some? {
      FaultlessMissesNothing(log);
      KeepingLog(d, items, job, log, current.value, Read(d, items, job.key, current.value).value);
    } else {
      BackupStaysAbsent(d, items, job, log);
    }
  }

  lemma {:induction false} FaultlessMissesNothing(log: seq<Entry>)
    requires Faultless(log)
    ensures !Missed(log)
  {
    if log != [] {
      FaultlessMissesNothing(log[..|log| - 1]);
    }
  }

  /** With no current marker there is nothing to back up. */
  lemma BackupStaysAbsent(d: Digest, items: Items, job: Job, log: seq<Entry>)
    requires Fresh(items, job) && Legal(d, items, Save(job, LookMarker), log)
    requires MarkerAt(items, job.key).None? && PreviousName(job.key) !in items
    ensures Holds(ItemsAfter(items, log), PreviousName(job.key), None)
  {
    SparingLog(d, items, job, log);
  }

  /** Without failures the backup marker alone decides whether a Save gets past its look at it. */
  predicate PastLook(items0: Items, items: Items, job: Job, st: SaveState) {
    var readable := PreviousName(job.key) in items0 ==> MarkerAt(items0, PreviousName(job.key)).Some?;
    match st
    case LookMarker => items == items0
    case LookPrevious(_) => items == items0
    case SaveDone(ok) => ok == readable && (!ok ==> items == items0)
    case _ => readable
  }

  lemma {:induction false} PastLookLog(d: Digest, items: Items, job: Job, log: seq<Entry>)
    requires Fresh(items, job) && Legal(d, items, Save(job, LookMarker), log) && Faultless(log)
    ensures var op := After(d, Save(job, LookMarker), log);
            op.Save? && op.job == job && PastLook(items, ItemsAfter(items, log), job, op.save)
  {
    SaveWritesOnce(d, job, log);
    if log != [] {
      hide PastLook, SaveFacts, Parse, View, Sound;
      var before, e := log[..|log| - 1], log[|log| - 1];
      LogKeeps(d, items, Save(job, LookMarker), before);
      PastLookLog(d, items, job, before);
      PastLookStep(d, items, ItemsAfter(items, before), job, After(d, Save(job, LookMarker), before).save, e.reply,
          e.after);
    }
  }

  lemma PastLookStep(d: Digest, items0: Items, items: Items, job: Job, st: SaveState, reply: Reply, items': Items)
    requires KeyOk(job.key) && SaveFacts(d, items, job, st) && SaveRequest(d, job, st).Some?
    requires Answers(items, SaveRequest(d, job, st).value, reply, items') && !reply.Failed?
    requires PastLook(items0, items, job, st)
    ensures PastLook(items0, items', job, SaveResume(d, job, st, reply))
  {
    hide Encode, ChunkName, Slice;
    match st
    case Verify(_, c) => ReadStep(d, items, job.key, c, reply);
    case _ =>
  }

  /**
  Without failures a Save succeeds exactly when the backup marker is absent or parses, whatever
  state the current one is in; otherwise it has written nothing. An unparsable backup marker
  blocks every later Save.
  */
  lemma SaveSucceedsExactly(d: Digest, items: Items, job: Job, log: seq<Entry>, ok: bool)
    requires Fresh(items, job) && Legal(d, items, Save(job, LookMarker), log) && Faultless(log)
    requires After(d, Save(job, LookMarker), log) == Save(job, SaveDone(ok))
    ensures ok <==> (PreviousName(job.key) in items ==> MarkerAt(items, PreviousName(job.key)).Some?)
    ensures !ok ==> ItemsAfter(items, log) == items
  {
    PastLookLog(d, items, job, log);
  }

  // Runs of Saves

  /** Uninterrupted Saves of one key, one after the other, each without failures. */
  ghost predicate SaveRun(d: Digest, key: string, items: seq<Items>, jobs: seq<Job>, logs: seq<seq<Entry>>) {
    && |items| == |jobs| + 1 && |logs| == |jobs|
    && forall i :: 0 <= i < |jobs| ==> SaveRunStep(d, key, items[i], jobs[i], logs[i], items[i + 1])
  }

  ghost predicate SaveRunStep(d: Digest, key: string, items: Items, job: Job, log: seq<Entry>, items': Items) {
    && job.key == key && Fresh(items, job) && Legal(d, items, Save(job, LookMarker), log) && Faultless(log)
    && Request(d, After(d, Save(job, LookMarker), log)).None?
    && items' == ItemsAfter(items, log)
  }

  function CurrentAfter(d: Digest, first: Option<Marker>, jobs: seq<Job>): Option<Marker> {
    if jobs == [] then first else Some(Next(d, jobs[|jobs| - 1]))
  }

  function BackupAfter(d: Digest, first: Option<Marker>, jobs: seq<Job>): Option<Marker> {
    if jobs == [] then None else CurrentAfter(d, first, jobs[..|jobs| - 1])
  }

  lemma SaveRunInit(d: Digest, key: string, items: seq<Items>, jobs: seq<Job>, logs: seq<seq<Entry>>)
    requires SaveRun(d, key, items, jobs, logs) && jobs != []
    ensures SaveRun(d, key, items[..|jobs|], jobs[..|jobs| - 1], logs[..|jobs| - 1])
  {
    hide SaveRunStep;
    var n := |jobs| - 1;
    forall i | 0 <= i < n
      ensures SaveRunStep(d, key, items[..n + 1][i], jobs[..n][i], logs[..n][i], items[..n + 1][i + 1])
    {
      assert SaveRunStep(d, key, items[i], jobs[i], logs[i], items[i + 1]);
    }
  }

  /** Only the first Save of a run meets a legacy generation. */
  lemma LegacySettles(d: Digest, first: Option<Marker>, jobs: seq<Job>)
    requires first.Some? ==> first.value.generation == ""
    requires jobs != [] ==> jobs[|jobs| - 1].generation != ""
    ensures LegacyOf(CurrentAfter(d, first, jobs), if jobs == [] then None else first) == first
  {
  }

  lemma RunStepMoves(d: Digest, key: string, items: Items, job: Job, log: seq<Entry>, items': Items,
                     current: Option<Marker>, backup: Option<Marker>, legacy: Option<Marker>)
    requires SaveRunStep(d, key, items, job, log, items') && Layout(d, items, key, current, backup, legacy)
    ensures Layout(d, items', key, Some(Next(d, job)), current, LegacyOf(current, legacy))
    ensures job.generation != ""
  {
    SaveMovesFootprint(d, items, job, log, current, backup, legacy);
  }

  /**
  Exact footprint: after any number of Saves without failures, from nothing or from a complete
  legacy generation, the key owns the last two generations with their markers and, from a
  legacy start, the legacy chunks with their count marker. Nothing else accumulates.
  */
  lemma {:induction false} FootprintAfterSaves(d: Digest, key: string, first: Option<Marker>,
                                               items: seq<Items>, jobs: seq<Job>, logs: seq<seq<Entry>>)
    requires SaveRun(d, key, items, jobs, logs) && KeyOk(key)
    requires first.Some? ==> first.value.generation == ""
    requires Layout(d, items[0], key, first, None, None)
    ensures Layout(d, items[|jobs|], key, CurrentAfter(d, first, jobs), BackupAfter(d, first, jobs),
                   if jobs == [] then None else first)
    ensures jobs != [] ==> jobs[|jobs| - 1].generation != ""
    decreases |jobs|
  {
    hide Layout, SaveRunStep, Next, LegacyOf;
    if jobs != [] {
      var n := |jobs| - 1;
      SaveRunInit(d, key, items, jobs, logs);
      FootprintAfterSaves(d, key, first, items[..n + 1], jobs[..n], logs[..n]);
      LegacySettles(d, first, jobs[..n]);
      RunStepMoves(d, key, items[n], jobs[n], logs[n], items[n + 1],
                   CurrentAfter(d, first, jobs[..n]), BackupAfter(d, first, jobs[..n]), if n == 0 then None else first);
    }
  }

  // A Delete without failures

  predicate Readable(items: Items, key: string, n: nat) {
    forall at :: 0 <= at < n ==> MarkerItem(key, at) in items ==> MarkerAt(items, MarkerItem(key, at)).Some?
  }

  /** The markers Delete has found in the first n marker items. */
  function FoundBefore(items: Items, key: string, n: nat): seq<Marker> {
    if n == 0 then [] else Collected(FoundBefore(items, key, n - 1), MarkerAt(items, MarkerItem(key, n - 1)))
  }

  function Slots(key: string, n: nat): set<string> {
    if n == 0 then {} else Slots(key, n - 1) + {MarkerItem(key, n - 1)}
  }

  function ChunksOf(key: string, ms: seq<Marker>): set<string> {
    if ms == [] then {} else ChunksOf(key, ms[..|ms| - 1]) + Chunks(key, ms[|ms| - 1], ms[|ms| - 1].count)
  }

  ghost predicate DeleteOnCourse(o: set<string>, items0: Items, items: Items, key: string, st: DeleteState) {
    var all := FoundBefore(items0, key, 3);
    match st
    case LookAt(at, found) =>
      at <= 2 && items == items0 && Owned(items0, key) == o && Readable(items0, key, at) &&
          found == FoundBefore(items0, key, at)
    case Retire(at, found) =>
      at <= 2 && Readable(items0, key, 3) && found == all && Owned(items, key) == o - Slots(key, at)
    case Purge(found, i) =>
      && Readable(items0, key, 3) && 0 < |found| <= |all| && found == all[|all| - |found|..]
      && Owned(items, key) == o - Slots(key, 3) - ChunksOf(key, all[..|all| - |found|]) - Chunks(key, found[0], i)
    case DeleteDone(ok) =>
      && ok == Readable(items0, key, 3)
      && if ok then Owned(items, key) == o - Slots(key, 3) - ChunksOf(key, all) else items == items0
  }

  /** Finishing one generation of the list moves its chunks to those that are gone. */
  lemma GoneGrows(key: string, all: seq<Marker>, found: seq<Marker>)
    requires 0 < |found| <= |all| && found == all[|all| - |found|..]
    ensures var k := |all| - |found|;
            && found[1..] == all[k + 1..]
            && ChunksOf(key, all[..k + 1]) == ChunksOf(key, all[..k]) + Chunks(key, found[0], found[0].count)
            && (|found| == 1 ==> all[..k + 1] == all)
  {
    var k := |all| - |found|;
    assert all[..k + 1][..k] == all[..k] && all[..k + 1][k] == found[0];
  }

  lemma ChunkGone(o: set<string>, key: string, m: Marker, i: nat)
    ensures o - Chunks(key, m, i) - {ChunkName(key, m, i)} == o - Chunks(key, m, i + 1)
    ensures o - Chunks(key, m, 0) == o
  {
  }

  lemma PurgeStep(o: set<string>, items0: Items, items: Items, key: string, found: seq<Marker>, i: nat, reply: Reply,
          items': Items)
    requires DeleteFacts(items, key, Purge(found, i)) && DeleteOnCourse(o, items0, items, key, Purge(found, i))
    requires KeyOk(key)
    requires Answers(items, Delete(ChunkName(key, found[0], i)), reply, items') && !reply.Failed?
    ensures var all := FoundBefore(items0, key, 3);
            Owned(items', key) == o - Slots(key, 3) - ChunksOf(key, all[..|all| - |found|]) -
                Chunks(key, found[0], i + 1)
  {
    hide ChunkName, Parse, Answers, Owned, Slots, FoundBefore, Readable, Owner, Chunks, ChunksOf, Retired, WellFormed;
    var all := FoundBefore(items0, key, 3);
    ItemsOwned(key, found[0], i);
    OwnedAfterCall(items, Delete(ChunkName(key, found[0], i)), reply, items', key);
    ChunkGone(o - Slots(key, 3) - ChunksOf(key, all[..|all| - |found|]), key, found[0], i);
  }

  lemma Taken(o: set<string>, gone: set<string>, more: set<string>, all: set<string>)
    requires all == gone + more
    ensures o - gone - more == o - all
  {
  }

  /** The last chunk of a generation: the next one's turn, or the end. */
  lemma PurgeMovesOn(o: set<string>, items0: Items, items': Items, key: string, found: seq<Marker>)
    requires var all := FoundBefore(items0, key, 3);
             && Readable(items0, key, 3) && 0 < |found| <= |all| && found == all[|all| - |found|..]
             && Owned(items', key) == o - Slots(key, 3) - ChunksOf(key, all[..|all| - |found|]) -
                  Chunks(key, found[0], found[0].count)
    ensures DeleteOnCourse(o, items0, items', key, PurgeAll(found[1..]))
  {
    hide Owned, Slots, FoundBefore, Readable, Chunks, ChunksOf;
    var all := FoundBefore(items0, key, 3);
    var k := |all| - |found|;
    GoneGrows(key, all, found);
    Taken(o - Slots(key, 3), ChunksOf(key, all[..k]), Chunks(key, found[0], found[0].count),
        ChunksOf(key, all[..k + 1]));
    if |found| > 1 {
      ChunkGone(Owned(items', key), key, found[1], 0);
      assert found[1..][0] == found[1] && |all| - |found[1..]| == k + 1;
    }
  }

  lemma PurgeOnCourse(o: set<string>, items0: Items, items: Items, key: string, found: seq<Marker>, i: nat,
          reply: Reply, items': Items)
    requires DeleteFacts(items, key, Purge(found, i)) && DeleteOnCourse(o, items0, items, key, Purge(found, i))
    requires KeyOk(key)
    requires Answers(items, Delete(ChunkName(key, found[0], i)), reply, items') && !reply.Failed?
    ensures DeleteOnCourse(o, items0, items', key, DeleteResume(Purge(found, i), reply))
  {
    hide ChunkName, Answers, Owned, Slots, FoundBefore, Readable, Chunks, ChunksOf, Retired, WellFormed;
    PurgeStep(o, items0, items, key, found, i, reply, items');
    if i + 1 == found[0].count {
      PurgeMovesOn(o, items0, items', key, found);
    }
  }

  lemma LookOnCourse(o: set<string>, items: Items, key: string, at: nat, found: seq<Marker>, reply: Reply)
    requires DeleteOnCourse(o, items, items, key, LookAt(at, found))
    requires Answers(items, Get(MarkerItem(key, at)), reply, items) && !reply.Failed?
    ensures DeleteOnCourse(o, items, items, key, DeleteResume(LookAt(at, found), reply))
  {
    var name := MarkerItem(key, at);
    assert MarkerIn(reply) == MarkerAt(items, name);
    assert Readable(items, key, 3) ==> name in items ==> MarkerAt(items, name).Some?;
    assert Slots(key, 0) == {};
  }

  lemma MarkerItemOwned(key: string, at: nat)
    requires KeyOk(key)
    ensures Owner(MarkerItem(key, at)) == key
  {
    ItemsOwned(key, Legacy(1), 0);
  }

  lemma NextSlot(key: string, at: nat)
    ensures Slots(key, at + 1) == Slots(key, at) + {MarkerItem(key, at)}
  {
  }

  lemma RetireOnCourse(o: set<string>, items0: Items, items: Items, key: string, at: nat, found: seq<Marker>,
          reply: Reply, items': Items)
    requires KeyOk(key) && DeleteOnCourse(o, items0, items, key, Retire(at, found))
    requires Answers(items, Delete(MarkerItem(key, at)), reply, items') && !reply.Failed?
    ensures DeleteOnCourse(o, items0, items', key, DeleteResume(Retire(at, found), reply))
  {
    hide Answers, Owned, FoundBefore, Readable, Owner, MarkerItem, Slots, Chunks;
    MarkerItemOwned(key, at);
    OwnedAfterCall(items, Delete(MarkerItem(key, at)), reply, items', key);
    NextSlot(key, at);
    if at == 2 {
      var all := FoundBefore(items0, key, 3);
      assert all[..0] == [] && all[0..] == all;
      NoChunks(key);
      if all != [] {
        NextChunk(key, all[0], 0);
      }
    }
  }

  lemma DeleteOnCourseStep(o: set<string>, items0: Items, items: Items, key: string, st: DeleteState, reply: Reply,
          items': Items)
    requires KeyOk(key) && DeleteFacts(items, key, st) && DeleteOnCourse(o, items0, items, key, st)
    requires DeleteRequest(key, st).Some?
    requires Answers(items, DeleteRequest(key, st).value, reply, items') && !reply.Failed?
    ensures DeleteOnCourse(o, items0, items', key, DeleteResume(st, reply))
  {
    match st
    case LookAt(at, found) => LookOnCourse(o, items0, key, at, found, reply);
    case Retire(at, found) => RetireOnCourse(o, items0, items, key, at, found, reply, items');
    case Purge(found, i) => PurgeOnCourse(o, items0, items, key, found, i, reply, items');
  }

  lemma {:induction false} DeleteLog(d: Digest, items: Items, key: string, log: seq<Entry>)
    requires KeyOk(key) && Legal(d, items, Remove(key, LookAt(0, [])), log) && Faultless(log)
    ensures var op := After(d, Remove(key, LookAt(0, [])), log);
            && op.Remove? && op.key == key && DeleteFacts(ItemsAfter(items, log), key, op.remove)
            && DeleteOnCourse(Owned(items, key), items, ItemsAfter(items, log), key, op.remove)
  {
    if log != [] {
      var before, e := log[..|log| - 1], log[|log| - 1];
      DeleteLog(d, items, key, before);
      var st := After(d, Remove(key, LookAt(0, [])), before).remove;
      DeleteStep(d, ItemsAfter(items, before), key, st, e.reply, e.after);
      DeleteOnCourseStep(Owned(items, key), items, ItemsAfter(items, before), key, st, e.reply, e.after);
    }
  }

  /**
  Without failures Delete succeeds exactly when each of the key's marker items is absent or
  parses; otherwise it reports an error and has removed nothing, so one unparsable marker
  keeps every credential of the key in place.
  */
  lemma DeleteSucceedsExactly(d: Digest, items: Items, key: string, log: seq<Entry>, ok: bool)
    requires KeyOk(key) && Legal(d, items, Remove(key, LookAt(0, [])), log) && Faultless(log)
    requires After(d, Remove(key, LookAt(0, [])), log) == Remove(key, DeleteDone(ok))
    ensures ok <==> Readable(items, key, 3)
    ensures !ok ==> ItemsAfter(items, log) == items
    ensures ok ==> Owned(ItemsAfter(items, log), key)
                   == Owned(items, key) - Slots(key, 3) - ChunksOf(key, FoundBefore(items, key, 3))
  {
    DeleteLog(d, items, key, log);
  }

  /** From any footprint, a Delete without failures leaves the key no item at all. */
  lemma DeleteLeavesNothing(d: Digest, items: Items, key: string, log: seq<Entry>, current: Option<Marker>,
          backup: Option<Marker>, legacy: Option<Marker>)
    requires KeyOk(key) && Legal(d, items, Remove(key, LookAt(0, [])), log) && Faultless(log)
    requires Layout(d, items, key, current, backup, legacy)
    requires Request(d, After(d, Remove(key, LookAt(0, [])), log)).None?
    ensures After(d, Remove(key, LookAt(0, [])), log) == Remove(key, DeleteDone(true))
    ensures Owned(ItemsAfter(items, log), key) == {}
  {
    hide Parse, Chunks, ChunksOf, Slots, FoundBefore, Readable, Read, Orderly, After, Legal, Owned;
    DeleteLog(d, items, key, log);
    FoundInLayout(items, key, current, backup, legacy);
    assert After(d, Remove(key, LookAt(0, [])), log).remove == DeleteDone(true);
  }

  lemma FoundOne(items: Items, key: string, n: nat, m: Option<Marker>)
    requires Holds(items, MarkerItem(key, n), m) && Readable(items, key, n)
    ensures Readable(items, key, n + 1) && Slots(key, n + 1) == Slots(key, n) + {MarkerItem(key, n)}
    ensures ChunksOf(key, FoundBefore(items, key, n + 1)) ==
              ChunksOf(key, FoundBefore(items, key, n)) + AllChunks(key, m)
  {
    hide Parse, Chunks, ChunksOf;
    FoundChunks(key, FoundBefore(items, key, n), m);
  }

  lemma FoundInLayout(items: Items, key: string, current: Option<Marker>, backup: Option<Marker>,
          legacy: Option<Marker>)
    requires Holds(items, key, current) && Holds(items, PreviousName(key), backup)
    requires Holds(items, LegacyCountName(key), legacy)
    ensures Readable(items, key, 3) && Slots(key, 3) == {key, PreviousName(key), LegacyCountName(key)}
    ensures ChunksOf(key, FoundBefore(items, key, 3)) ==
              AllChunks(key, current) + AllChunks(key, backup) + AllChunks(key, legacy)
  {
    hide Readable, FoundBefore, Slots, ChunksOf, AllChunks, Holds, PreviousName, LegacyCountName;
    NothingFound(items, key);
    FoundOne(items, key, 0, current);
    FoundOne(items, key, 1, backup);
    FoundOne(items, key, 2, legacy);
  }

  lemma NothingFound(items: Items, key: string)
    ensures Readable(items, key, 0) && Slots(key, 0) == {} && ChunksOf(key, FoundBefore(items, key, 0)) == {}
  {
  }

  lemma NoChunks(key: string)
    ensures ChunksOf(key, []) == {}
  {
  }

  lemma FoundChunks(key: string, found: seq<Marker>, m: Option<Marker>)
    ensures ChunksOf(key, Collected(found, m)) == ChunksOf(key, found) + AllChunks(key, m)
  {
    if m.Some? {
      assert (found + [m.value])[..|found|] == found;
    }
  }
}
