/**
What one keyring call of one program does to one key: it keeps the facts the program has
gathered, moves the loaded value only at the publishing call, keeps every marker naming a
complete generation, and touches no other key's items.
*/
module KeychainStep {
  import opened Wrappers
  import opened Markers
  import opened KeychainOps

  // Frames

  predicate Same(items: Items, items': Items, name: string) {
    (name in items <==> name in items') && (name in items ==> items'[name] == items[name])
  }

  lemma {:induction false} ReadFrame(d: Digest, items: Items, items': Items, key: string, m: Marker, buf: string,
          i: nat)
    requires forall j :: i <= j < m.count ==> Same(items, items', ChunkName(key, m, j))
    ensures ReadFrom(d, items', key, m, buf, i) == ReadFrom(d, items, key, m, buf, i)
    decreases m.count - i
  {
    if i < m.count {
      assert Same(items, items', ChunkName(key, m, i));
      if ChunkName(key, m, i) in items {
        ReadFrame(d, items, items', key, m, buf + items[ChunkName(key, m, i)], i + 1);
      }
    }
  }

  ghost predicate OnlyChanges(items: Items, items': Items, name: string) {
    forall n :: n != name ==> Same(items, items', n)
  }

  /** Changing one chunk of one generation leaves every other generation's reads alone. */
  lemma ReadPastChunk(d: Digest, items: Items, items': Items, key: string, w: Marker, k: nat, m: Marker, buf: string,
          i: nat)
    requires OnlyChanges(items, items', ChunkName(key, w, k))
    requires WellFormed(m) && WellFormed(w) && m.generation != w.generation
    ensures ReadFrom(d, items', key, m, buf, i) == ReadFrom(d, items, key, m, buf, i)
  {
    forall j | i <= j < m.count ensures Same(items, items', ChunkName(key, m, j)) {
      ChunkNamesApart(key, m, j, w, k);
    }
    ReadFrame(d, items, items', key, m, buf, i);
  }

  /** Changing a marker item leaves every read of chunks alone. */
  lemma ReadPastMarker(d: Digest, items: Items, items': Items, key: string, name: string, m: Marker, buf: string,
          i: nat)
    requires name in {key, PreviousName(key), LegacyCountName(key)}
    requires OnlyChanges(items, items', name)
    requires WellFormed(m)
    ensures ReadFrom(d, items', key, m, buf, i) == ReadFrom(d, items, key, m, buf, i)
  {
    forall j | i <= j < m.count ensures Same(items, items', ChunkName(key, m, j)) {
      MarkerItemsApart(key, m, j);
    }
    ReadFrame(d, items, items', key, m, buf, i);
  }

  /** The marker in a slot and what it reads are the same before and after. */
  ghost predicate SlotStays(d: Digest, items: Items, items': Items, key: string, name: string) {
    && Same(items, items', name)
    && (MarkerAt(items, name).Some? ==>
          Read(d, items', key, MarkerAt(items, name).value) == Read(d, items, key, MarkerAt(items, name).value))
  }

  lemma SlotsStay(d: Digest, items: Items, items': Items, key: string)
    requires SlotStays(d, items, items', key, key) && SlotStays(d, items, items', key, PreviousName(key))
    ensures View(d, items', key) == View(d, items, key)
    ensures Sound(d, items, key) == Sound(d, items', key)
  {
    assert MarkerAt(items', key) == MarkerAt(items, key);
    assert MarkerAt(items', PreviousName(key)) == MarkerAt(items, PreviousName(key));
  }

  /** Writing or removing a chunk of a generation that neither marker names is invisible. */
  lemma ChunkStepInvisible(d: Digest, items: Items, items': Items, key: string, w: Marker, k: nat)
    requires OnlyChanges(items, items', ChunkName(key, w, k))
    requires WellFormed(w) && Unnamed(items, key, w.generation)
    ensures SlotStays(d, items, items', key, key) && SlotStays(d, items, items', key, PreviousName(key))
  {
    MarkerItemsApart(key, w, k);
    var current, previous := MarkerAt(items, key), MarkerAt(items, PreviousName(key));
    if current.Some? {
      ReadPastChunk(d, items, items', key, w, k, current.value, "", 0);
    }
    if previous.Some? {
      ReadPastChunk(d, items, items', key, w, k, previous.value, "", 0);
    }
  }

  // Chunks of one blob

  function Prefix(blob: string, i: nat): string { blob[..Min(i * CHUNK_SIZE, |blob|)] }

  lemma SlicesJoin(blob: string, i: nat)
    ensures Prefix(blob, i) + Slice(blob, i) == Prefix(blob, i + 1)
  {
  }

  lemma SlicesCover(blob: string)
    ensures Prefix(blob, ChunkCount(|blob|)) == blob
  {
    assert ChunkCount(|blob|) * CHUNK_SIZE >= |blob|;
  }

  /**
  The chunks of a blob: in bounds, no longer than an item allows, full but for the last,
  and never empty unless the blob is.
  */
  lemma ChunkShape(blob: string, i: nat)
    requires i < ChunkCount(|blob|)
    ensures i * CHUNK_SIZE <= |blob| && |Slice(blob, i)| <= CHUNK_SIZE
    ensures i + 1 < ChunkCount(|blob|) ==> |Slice(blob, i)| == CHUNK_SIZE
    ensures |Slice(blob, i)| == 0 <==> blob == ""
    ensures var end := if i + 1 < ChunkCount(|blob|) then i * CHUNK_SIZE + CHUNK_SIZE else |blob|;
            Slice(blob, i) == blob[i * CHUNK_SIZE..end]
  {
  }

  /** The first i chunks of the job are stored. */
  predicate Written(d: Digest, items: Items, job: Job, i: nat) {
    forall j {:trigger ChunkName(job.key, Next(d, job), j)} :: 0 <= j < i ==>
      ChunkName(job.key, Next(d, job), j) in items
      && items[ChunkName(job.key, Next(d, job), j)] == Slice(job.blob, j)
  }

  lemma {:induction false} WrittenReads(d: Digest, items: Items, job: Job, i: nat)
    requires Written(d, items, job, ChunkCount(|job.blob|)) && i <= ChunkCount(|job.blob|)
    ensures ReadFrom(d, items, job.key, Next(d, job), Prefix(job.blob, i), i) == Some(job.blob)
    decreases ChunkCount(|job.blob|) - i
  {
    if i == ChunkCount(|job.blob|) {
      SlicesCover(job.blob);
    } else {
      SlicesJoin(job.blob, i);
      WrittenReads(d, items, job, i + 1);
    }
  }

  /** Once all its chunks are stored, a new generation reads back as the blob, whatever its length. */
  lemma WrittenRoundTrip(d: Digest, items: Items, job: Job)
    requires Written(d, items, job, ChunkCount(|job.blob|))
    ensures Read(d, items, job.key, Next(d, job)) == Some(job.blob)
  {
    WrittenReads(d, items, job, 0);
    assert Prefix(job.blob, 0) == "";
  }

  // What a program knows

  predicate KeyOk(key: string) { '#' !in key }

  predicate JobOk(job: Job) { KeyOk(job.key) && IsGeneration(job.generation) && Fits(job.blob) }

  /** The generation is not the one of the current or of the backup marker. */
  predicate Unnamed(items: Items, key: string, generation: string) {
    && (MarkerAt(items, key).Some? ==> MarkerAt(items, key).value.generation != generation)
    && (MarkerAt(items, PreviousName(key)).Some? ==> MarkerAt(items, PreviousName(key)).value.generation != generation)
  }

  predicate Fresh(items: Items, job: Job) { JobOk(job) && Unnamed(items, job.key, job.generation) }

  predicate Names(items: Items, name: string, m: Marker) { MarkerAt(items, name) == Some(m) }

  /** The slot is empty, or holds a text that parses to the marker. */
  predicate Holds(items: Items, name: string, m: Option<Marker>) {
    MarkerAt(items, name) == m && (m.None? ==> name !in items)
  }

  predicate Usable(d: Digest, items: Items, key: string, m: Marker) {
    Names(items, key, m) && Read(d, items, key, m).Some?
  }

  predicate PlanOk(d: Digest, items: Items, job: Job, plan: Plan) {
    && Fresh(items, job)
    && (plan.usable.Some? ==> Usable(d, items, job.key, plan.usable.value))
    && (plan.previous.Some? ==> WellFormed(plan.previous.value) && plan.previous.value.generation != job.generation)
  }

  predicate Planned(d: Digest, items: Items, job: Job, plan: Plan) {
    PlanOk(d, items, job, plan) && Holds(items, PreviousName(job.key), plan.previous)
  }

  predicate AllWritten(d: Digest, items: Items, job: Job) { Written(d, items, job, ChunkCount(|job.blob|)) }

  predicate CursorOk(c: Cursor) { WellFormed(c.m) && c.i < c.m.count }

  /** The backup marker names what the plan wants kept. */
  predicate BackedUp(d: Digest, items: Items, job: Job, plan: Plan) {
    && PlanOk(d, items, job, plan) && AllWritten(d, items, job)
    && if plan.usable.Some? then Names(items, PreviousName(job.key), plan.Kept())
       else Holds(items, PreviousName(job.key), plan.previous)
  }

  predicate Published(d: Digest, items: Items, job: Job) {
    Names(items, job.key, Next(d, job)) && Read(d, items, job.key, Next(d, job)) == Some(job.blob)
  }

  predicate Collecting(d: Digest, items: Items, job: Job, plan: Plan) {
    && JobOk(job) && Published(d, items, job)
    && plan.Supersedes() && WellFormed(plan.Stale()) && plan.Stale().generation != job.generation
    && Names(items, PreviousName(job.key), plan.Kept())
  }

  /** A read in progress, seen through what it will find if nothing changes under it. */
  function Pending(d: Digest, items: Items, key: string, c: Cursor): Option<string> {
    ReadFrom(d, items, key, c.m, c.buf, c.i)
  }

  predicate SaveFacts(d: Digest, items: Items, job: Job, st: SaveState) {
    match st
    case LookMarker => Fresh(items, job)
    case LookPrevious(current) => Fresh(items, job) && (current.Some? ==> Names(items, job.key, current.value))
    case Probe(previous, c) =>
      && Fresh(items, job) && CursorOk(c) && Names(items, job.key, c.m)
      && Holds(items, PreviousName(job.key), previous)
      && Pending(d, items, job.key, c) == Read(d, items, job.key, c.m)
    case Store(plan, i) => Planned(d, items, job, plan) && i < ChunkCount(|job.blob|) && Written(d, items, job, i)
    case Verify(plan, c) =>
      && Planned(d, items, job, plan) && AllWritten(d, items, job)
      && CursorOk(c) && c.m == Next(d, job) && Pending(d, items, job.key, c) == Some(job.blob)
    case MarkBackup(plan) => Planned(d, items, job, plan) && AllWritten(d, items, job) && plan.usable.Some?
    case MarkLegacy(plan) => BackedUp(d, items, job, plan) && plan.usable.Some?
    case Publish(plan) => BackedUp(d, items, job, plan)
    case Collect(plan, i) => Collecting(d, items, job, plan) && i < plan.Stale().count
    case SaveDone(ok) => JobOk(job) && (ok ==> Published(d, items, job))
  }

  predicate Retired(items: Items, key: string, n: nat) {
    && (n > 0 ==> key !in items)
    && (n > 1 ==> PreviousName(key) !in items)
    && (n > 2 ==> LegacyCountName(key) !in items)
  }

  predicate AllWellFormed(ms: seq<Marker>) { forall i :: 0 <= i < |ms| ==> WellFormed(ms[i]) }

  predicate DeleteFacts(items: Items, key: string, st: DeleteState) {
    match st
    case LookAt(at, found) => at <= 2 && AllWellFormed(found)
    case Retire(at, found) => at <= 2 && AllWellFormed(found) && Retired(items, key, at)
    case Purge(found, i) => found != [] && AllWellFormed(found) && i < found[0].count && Retired(items, key, 3)
    case DeleteDone(ok) => ok ==> Retired(items, key, 3)
  }

  predicate LoadFacts(st: LoadState) {
    match st
    case ReadCurrent(c) => CursorOk(c)
    case ReadBackup(c) => CursorOk(c)
    case _ => true
  }

  predicate Facts(d: Digest, items: Items, op: Op) {
    && KeyOk(KeyOf(op))
    && match op
       case Load(_, st) => LoadFacts(st)
       case Save(job, st) => SaveFacts(d, items, job, st)
       case Remove(key, st) => DeleteFacts(items, key, st)
  }

  // One step

  /** A call changes at most the item it names. */
  lemma CallChangesOnly(items: Items, call: Call, reply: Reply, items': Items)
    requires Answers(items, call, reply, items')
    ensures OnlyChanges(items, items', call.name)
    ensures call.Get? ==> items' == items
    ensures call.Set? && reply.Ok? ==> call.name in items' && items'[call.name] == call.value
    ensures call.Delete? && !reply.Failed? ==> call.name !in items'
  {
  }

  /** A program only ever names items of its own key. */
  lemma CallsStayHome(d: Digest, op: Op)
    requires KeyOk(KeyOf(op)) && Request(d, op).Some?
    ensures Owner(Request(d, op).value.name) == KeyOf(op)
  {
    hide ChunkName, Owner, Encode, Slice;
    var key := KeyOf(op);
    ItemsOwned(key, Legacy(1), 0);
    match op
    case Load(_, ReadCurrent(c)) => ItemsOwned(key, c.m, c.i);
    case Load(_, ReadBackup(c)) => ItemsOwned(key, c.m, c.i);
    case Load(_, _) =>
    case Save(_, Probe(_, c)) => ItemsOwned(key, c.m, c.i);
    case Save(job, Store(_, i)) => ItemsOwned(key, Next(d, job), i);
    case Save(_, Verify(_, c)) => ItemsOwned(key, c.m, c.i);
    case Save(_, Collect(plan, i)) => ItemsOwned(key, plan.Stale(), i);
    case Save(_, _) =>
    case Remove(_, Purge(found, i)) => ItemsOwned(key, found[0], i);
    case Remove(_, _) =>
  }

  lemma OthersUntouched(items: Items, items': Items, name: string)
    requires OnlyChanges(items, items', name)
    ensures forall n :: Owner(n) != Owner(name) ==> Same(items, items', n)
  {
  }

  lemma NextWellFormed(d: Digest, job: Job)
    requires JobOk(job)
    ensures WellFormed(Next(d, job)) && Parse(Encode(Next(d, job))) == Some(Next(d, job))
  {
    ParseEncode(Next(d, job));
  }

  ghost predicate Keeps(d: Digest, key: string, items: Items, items': Items) {
    && View(d, items', key) == View(d, items, key)
    && (Sound(d, items, key) ==> Sound(d, items', key))
  }

  lemma WrittenGrows(d: Digest, items: Items, items': Items, job: Job, i: nat)
    requires JobOk(job) && Written(d, items, job, i)
    requires OnlyChanges(items, items', ChunkName(job.key, Next(d, job), i))
    ensures Written(d, items', job, i)
    ensures ChunkName(job.key, Next(d, job), i) in items' &&
              items'[ChunkName(job.key, Next(d, job), i)] == Slice(job.blob, i) ==>
              Written(d, items', job, i + 1)
  {
    var next := Next(d, job);
    NextWellFormed(d, job);
    forall j | 0 <= j < i ensures Same(items, items', ChunkName(job.key, next, j)) {
      ChunkNamesApart(job.key, next, j, next, i);
    }
  }

  lemma PlannedStays(d: Digest, items: Items, items': Items, job: Job, plan: Plan)
    requires SlotStays(d, items, items', job.key, job.key) &&
               SlotStays(d, items, items', job.key, PreviousName(job.key))
    requires Planned(d, items, job, plan)
    ensures Planned(d, items', job, plan)
  {
    assert MarkerAt(items', job.key) == MarkerAt(items, job.key);
    assert MarkerAt(items', PreviousName(job.key)) == MarkerAt(items, PreviousName(job.key));
  }

  lemma StoreStep(d: Digest, items: Items, job: Job, plan: Plan, i: nat, reply: Reply, items': Items)
    requires SaveFacts(d, items, job, Store(plan, i))
    requires Answers(items, SaveRequest(d, job, Store(plan, i)).value, reply, items')
    ensures SaveFacts(d, items', job, SaveResume(d, job, Store(plan, i), reply))
    ensures Keeps(d, job.key, items, items')
  {
    var next := Next(d, job);
    NextWellFormed(d, job);
    CallChangesOnly(items, SaveRequest(d, job, Store(plan, i)).value, reply, items');
    ChunkStepInvisible(d, items, items', job.key, next, i);
    SlotsStay(d, items, items', job.key);
    WrittenGrows(d, items, items', job, i);
    PlannedStays(d, items, items', job, plan);
    if reply.Ok? && i + 1 == next.count {
      WrittenRoundTrip(d, items', job);
    }
  }

  /** Each chunk moves the read along; it ends in Some only with what the items hold. */
  lemma ReadStep(d: Digest, items: Items, key: string, c: Cursor, reply: Reply)
    requires CursorOk(c) && Answers(items, Get(ChunkName(key, c.m, c.i)), reply, items)
    ensures match Advance(d, c, reply)
            case More(c') => CursorOk(c') && c'.m == c.m && Pending(d, items, key, c') == Pending(d, items, key, c)
            case Finished(r) => (r.Some? || !reply.Failed? ==> r == Pending(d, items, key, c))
  {
    if reply.Found? && c.i + 1 == c.m.count {
      var buf := c.buf + reply.value;
      assert ReadFrom(d, items, key, c.m, buf, c.i + 1) == Check(d, c.m, buf);
    }
  }

  /** What a Load in progress will return if its remaining Gets succeed. */
  function LoadPending(d: Digest, items: Items, key: string, st: LoadState): Outcome {
    match st
    case LookCurrent => View(d, items, key)
    case ReadCurrent(c) =>
      (match Pending(d, items, key, c)
       case Some(blob) => Loaded(blob)
       case None => BackupView(d, items, key))
    case LookBackup => BackupView(d, items, key)
    case ReadBackup(c) =>
      (match Pending(d, items, key, c)
       case Some(blob) => Loaded(blob)
       case None => Unreadable)
    case LoadDone(outcome) => outcome
  }

  lemma LoadStep(d: Digest, items: Items, key: string, st: LoadState, reply: Reply)
    requires LoadFacts(st) && LoadRequest(key, st).Some?
    requires Answers(items, LoadRequest(key, st).value, reply, items)
    ensures LoadFacts(LoadResume(d, st, reply))
    ensures !reply.Failed? ==> LoadPending(d, items, key, LoadResume(d, st, reply)) == LoadPending(d, items, key, st)
  {
    match st
    case ReadCurrent(c) => ReadStep(d, items, key, c, reply);
    case ReadBackup(c) => ReadStep(d, items, key, c, reply);
    case _ =>
  }

  /** The calls that only look: the items stay, so only the program's own knowledge grows. */
  lemma LookStep(d: Digest, items: Items, job: Job, st: SaveState, reply: Reply)
    requires st.LookMarker? || st.LookPrevious? || st.Probe? || st.Verify?
    requires KeyOk(job.key) && SaveFacts(d, items, job, st)
    requires Answers(items, SaveRequest(d, job, st).value, reply, items)
    ensures SaveFacts(d, items, job, SaveResume(d, job, st, reply))
  {
    match st
    case LookMarker =>
    case LookPrevious(current) =>
    case Probe(previous, c) => ReadStep(d, items, job.key, c, reply);
    case Verify(plan, c) => ReadStep(d, items, job.key, c, reply);
  }

  lemma WrittenPastMarker(d: Digest, items: Items, items': Items, job: Job, name: string)
    requires name in {job.key, PreviousName(job.key), LegacyCountName(job.key)}
    requires OnlyChanges(items, items', name) && JobOk(job) && AllWritten(d, items, job)
    ensures AllWritten(d, items', job)
  {
    NextWellFormed(d, job);
    forall j | 0 <= j < ChunkCount(|job.blob|) ensures Same(items, items', ChunkName(job.key, Next(d, job), j)) {
      MarkerItemsApart(job.key, Next(d, job), j);
    }
  }

  /** The backup marker is rewritten only with a marker whose generation is readable. */
  lemma MarkBackupStep(d: Digest, items: Items, job: Job, plan: Plan, reply: Reply, items': Items)
    requires SaveFacts(d, items, job, MarkBackup(plan))
    requires Answers(items, SaveRequest(d, job, MarkBackup(plan)).value, reply, items')
    ensures SaveFacts(d, items', job, SaveResume(d, job, MarkBackup(plan), reply))
    ensures Keeps(d, job.key, items, items')
  {
    hide Parse, Encode, ChunkName, Slice, Fits;
    var kept, name := plan.Kept(), PreviousName(job.key);
    CallChangesOnly(items, SaveRequest(d, job, MarkBackup(plan)).value, reply, items');
    MarkerItemsApart(job.key, kept, 0);
    WrittenPastMarker(d, items, items', job, name);
    ReadPastMarker(d, items, items', job.key, name, kept, "", 0);
    ParseEncode(kept);
    assert Same(items, items', job.key);
  }

  lemma MarkLegacyStep(d: Digest, items: Items, job: Job, plan: Plan, reply: Reply, items': Items)
    requires SaveFacts(d, items, job, MarkLegacy(plan))
    requires Answers(items, SaveRequest(d, job, MarkLegacy(plan)).value, reply, items')
    ensures SaveFacts(d, items', job, SaveResume(d, job, MarkLegacy(plan), reply))
    ensures Keeps(d, job.key, items, items')
  {
    var kept, name := plan.Kept(), LegacyCountName(job.key);
    CallChangesOnly(items, SaveRequest(d, job, MarkLegacy(plan)).value, reply, items');
    MarkerItemsApart(job.key, kept, 0);
    WrittenPastMarker(d, items, items', job, name);
    ReadPastMarker(d, items, items', job.key, name, kept, "", 0);
    assert Same(items, items', job.key) && Same(items, items', PreviousName(job.key));
    SlotsStay(d, items, items', job.key);
  }

  /** Publishing makes the new blob the value, whatever the items held before. */
  lemma PublishStep(d: Digest, items: Items, job: Job, plan: Plan, reply: Reply, items': Items)
    requires SaveFacts(d, items, job, Publish(plan))
    requires Answers(items, SaveRequest(d, job, Publish(plan)).value, reply, items')
    ensures SaveFacts(d, items', job, SaveResume(d, job, Publish(plan), reply))
    ensures reply.Ok? ==> View(d, items', job.key) == Loaded(job.blob)
    ensures !reply.Ok? ==> items' == items
    ensures Sound(d, items, job.key) ==> Sound(d, items', job.key)
  {
    var next := Next(d, job);
    CallChangesOnly(items, SaveRequest(d, job, Publish(plan)).value, reply, items');
    NextWellFormed(d, job);
    MarkerItemsApart(job.key, next, 0);
    WrittenRoundTrip(d, items, job);
    ReadPastMarker(d, items, items', job.key, job.key, next, "", 0);
    assert Same(items, items', PreviousName(job.key));
    var backup := MarkerAt(items, PreviousName(job.key));
    if backup.Some? {
      ReadPastMarker(d, items, items', job.key, job.key, backup.value, "", 0);
    }
  }

  /** The superseded generation is named by neither marker, so its chunks can go. */
  lemma CollectStep(d: Digest, items: Items, job: Job, plan: Plan, i: nat, reply: Reply, items': Items)
    requires SaveFacts(d, items, job, Collect(plan, i))
    requires Answers(items, SaveRequest(d, job, Collect(plan, i)).value, reply, items')
    ensures SaveFacts(d, items', job, SaveResume(d, job, Collect(plan, i), reply))
    ensures Keeps(d, job.key, items, items')
  {
    var stale := plan.Stale();
    CallChangesOnly(items, SaveRequest(d, job, Collect(plan, i)).value, reply, items');
    assert Unnamed(items, job.key, stale.generation);
    ChunkStepInvisible(d, items, items', job.key, stale, i);
    SlotsStay(d, items, items', job.key);
    assert Published(d, items', job);
    assert Collecting(d, items', job, plan);
  }

  lemma SaveStep(d: Digest, items: Items, job: Job, st: SaveState, reply: Reply, items': Items)
    requires KeyOk(job.key) && SaveFacts(d, items, job, st) && SaveRequest(d, job, st).Some?
    requires Answers(items, SaveRequest(d, job, st).value, reply, items')
    ensures SaveFacts(d, items', job, SaveResume(d, job, st, reply))
    ensures View(d, items', job.key) == Register(View(d, items, job.key), EffectOf(Save(job, st), reply))
    ensures Sound(d, items, job.key) ==> Sound(d, items', job.key)
  {
    hide View, Sound, Parse, Encode, ChunkName, Slice;
    match st
    case Store(plan, i) => StoreStep(d, items, job, plan, i, reply, items');
    case MarkBackup(plan) => MarkBackupStep(d, items, job, plan, reply, items');
    case MarkLegacy(plan) => MarkLegacyStep(d, items, job, plan, reply, items');
    case Publish(plan) => PublishStep(d, items, job, plan, reply, items');
    case Collect(plan, i) => CollectStep(d, items, job, plan, i, reply, items');
    case LookMarker => LookStep(d, items, job, st, reply);
    case LookPrevious(_) => LookStep(d, items, job, st, reply);
    case Probe(_, _) => LookStep(d, items, job, st, reply);
    case Verify(_, _) => LookStep(d, items, job, st, reply);
  }

  /** Retiring a marker: the first removal empties the value, the others leave it empty. */
  lemma RetireStep(d: Digest, items: Items, key: string, at: nat, found: seq<Marker>, reply: Reply, items': Items)
    requires DeleteFacts(items, key, Retire(at, found))
    requires Answers(items, Delete(MarkerItem(key, at)), reply, items')
    ensures DeleteFacts(items', key, DeleteResume(Retire(at, found), reply))
    ensures View(d, items', key) == Register(View(d, items, key), EffectOf(Remove(key, Retire(at, found)), reply))
    ensures Sound(d, items, key) ==> Sound(d, items', key)
  {
    var name := MarkerItem(key, at);
    CallChangesOnly(items, Delete(name), reply, items');
    MarkerItemsApart(key, Legacy(1), 0);
    assert at != 0 ==> Same(items, items', key);
    assert at != 1 ==> Same(items, items', PreviousName(key));
    assert at != 2 ==> Same(items, items', LegacyCountName(key));
    var backup := MarkerAt(items, PreviousName(key));
    if backup.Some? {
      ReadPastMarker(d, items, items', key, name, backup.value, "", 0);
    }
  }

  lemma PurgeStep(d: Digest, items: Items, key: string, found: seq<Marker>, i: nat, reply: Reply, items': Items)
    requires DeleteFacts(items, key, Purge(found, i))
    requires Answers(items, Delete(ChunkName(key, found[0], i)), reply, items')
    ensures DeleteFacts(items', key, DeleteResume(Purge(found, i), reply))
    ensures View(d, items', key) == View(d, items, key) == Loaded("")
    ensures Sound(d, items', key)
  {
    var name := ChunkName(key, found[0], i);
    CallChangesOnly(items, Delete(name), reply, items');
    MarkerItemsApart(key, found[0], i);
    assert Same(items, items', key) && Same(items, items', PreviousName(key)) &&
        Same(items, items', LegacyCountName(key));
  }

  lemma DeleteStep(d: Digest, items: Items, key: string, st: DeleteState, reply: Reply, items': Items)
    requires DeleteFacts(items, key, st) && DeleteRequest(key, st).Some?
    requires Answers(items, DeleteRequest(key, st).value, reply, items')
    ensures DeleteFacts(items', key, DeleteResume(st, reply))
    ensures View(d, items', key) == Register(View(d, items, key), EffectOf(Remove(key, st), reply))
    ensures Sound(d, items, key) ==> Sound(d, items', key)
  {
    match st
    case LookAt(at, found) =>
    case Retire(at, found) => RetireStep(d, items, key, at, found, reply, items');
    case Purge(found, i) => PurgeStep(d, items, key, found, i, reply, items');
  }

  /**
  The step theorem, for every program, every reply and any damage already in the keyring:
  the value Load yields follows the register, complete markers stay complete, and the other
  keys' items are untouched.
  */
  lemma OpStep(d: Digest, items: Items, op: Op, reply: Reply, items': Items)
    requires Facts(d, items, op) && Request(d, op).Some?
    requires Answers(items, Request(d, op).value, reply, items')
    ensures KeyOf(Resume(d, op, reply)) == KeyOf(op) && Facts(d, items', Resume(d, op, reply))
    ensures View(d, items', KeyOf(op)) == Register(View(d, items, KeyOf(op)), EffectOf(op, reply))
    ensures Sound(d, items, KeyOf(op)) ==> Sound(d, items', KeyOf(op))
    ensures forall n :: Owner(n) != KeyOf(op) ==> Same(items, items', n)
  {
    CallsStayHome(d, op);
    CallChangesOnly(items, Request(d, op).value, reply, items');
    OthersUntouched(items, items', Request(d, op).value.name);
    match op
    case Load(key, st) => LoadStep(d, items, key, st, reply);
    case Save(job, st) => SaveStep(d, items, job, st, reply, items');
    case Remove(key, st) => DeleteStep(d, items, key, st, reply, items');
  }

  // Whole programs

  function Fold(value: Outcome, effects: seq<Effect>): Outcome {
    if effects == [] then value
    else Register(Fold(value, effects[..|effects| - 1]), effects[|effects| - 1])
  }

  lemma FoldCounted(value: Outcome, effects: seq<Effect>, e: Effect)
    ensures Fold(value, effects + Counted(e)) == Register(Fold(value, effects), e)
  {
    if e != NoEffect {
      assert (effects + [e])[..|effects|] == effects;
    } else {
      assert effects + [] == effects;
    }
  }

  /** The step theorem along a whole log of one program. */
  lemma {:induction false} LogKeeps(d: Digest, items: Items, op: Op, log: seq<Entry>)
    requires Facts(d, items, op) && Legal(d, items, op, log)
    ensures var items' := ItemsAfter(items, log);
            && KeyOf(After(d, op, log)) == KeyOf(op) && Facts(d, items', After(d, op, log))
            && View(d, items', KeyOf(op)) == Fold(View(d, items, KeyOf(op)), Effects(d, op, log))
            && (Sound(d, items, KeyOf(op)) ==> Sound(d, items', KeyOf(op)))
            && (forall n :: Owner(n) != KeyOf(op) ==> Same(items, items', n))
  {
    if log != [] {
      var before, e := log[..|log| - 1], log[|log| - 1];
      LogKeeps(d, items, op, before);
      OpStep(d, ItemsAfter(items, before), After(d, op, before), e.reply, e.after);
      FoldCounted(View(d, items, KeyOf(op)), Effects(d, op, before), EffectOf(After(d, op, before), e.reply));
    }
  }

  lemma {:induction false} LegalPrefix(d: Digest, items: Items, op: Op, log: seq<Entry>, i: nat)
    requires Legal(d, items, op, log) && i <= |log|
    ensures Legal(d, items, op, log[..i])
  {
    if i < |log| {
      LegalPrefix(d, items, op, log[..|log| - 1], i);
      assert log[..|log| - 1][..i] == log[..i];
    } else {
      assert log[..i] == log;
    }
  }

  /**
  A program cut short after any of its calls: Load yields the value from before or the new
  value, complete markers are complete, and other keys' items are as they were.
  */
  ghost predicate CrashSafe(d: Digest, key: string, items: Items, items': Items, value: Outcome) {
    && (View(d, items', key) == View(d, items, key) || View(d, items', key) == value)
    && (Sound(d, items, key) ==> Sound(d, items', key))
    && (forall n :: Owner(n) != key ==> Same(items, items', n))
  }

  lemma SaveCrashSafe(d: Digest, items: Items, job: Job, log: seq<Entry>, i: nat)
    requires Fresh(items, job) && Legal(d, items, Save(job, LookMarker), log) && i <= |log|
    ensures CrashSafe(d, job.key, items, ItemsAfter(items, log[..i]), Loaded(job.blob))
  {
    var op := Save(job, LookMarker);
    LegalPrefix(d, items, op, log, i);
    LogKeeps(d, items, op, log[..i]);
    SaveWritesOnce(d, job, log[..i]);
    FoldCounted(View(d, items, job.key), [], Write(job.blob));
  }

  lemma DeleteCrashSafe(d: Digest, items: Items, key: string, log: seq<Entry>, i: nat)
    requires KeyOk(key) && Legal(d, items, Remove(key, LookAt(0, [])), log) && i <= |log|
    ensures CrashSafe(d, key, items, ItemsAfter(items, log[..i]), Loaded(""))
  {
    var op := Remove(key, LookAt(0, []));
    LegalPrefix(d, items, op, log, i);
    LogKeeps(d, items, op, log[..i]);
    DeleteClearsOnce(d, key, log[..i]);
    FoldCounted(View(d, items, key), [], Clear);
  }

  /** A finished Save has published if and only if it reports success. */
  lemma SaveResult(d: Digest, items: Items, job: Job, log: seq<Entry>, ok: bool)
    requires Fresh(items, job) && Legal(d, items, Save(job, LookMarker), log)
    requires After(d, Save(job, LookMarker), log) == Save(job, SaveDone(ok))
    ensures View(d, ItemsAfter(items, log), job.key) == if ok then Loaded(job.blob) else View(d, items, job.key)
  {
    LogKeeps(d, items, Save(job, LookMarker), log);
    SaveWritesOnce(d, job, log);
    FoldCounted(View(d, items, job.key), [], Write(job.blob));
  }

  /**
  Whatever Gets fail, a Load returns the value, the backup generation's blob or an error; with
  every Get answered it returns the value.
  */
  lemma LoadResult(d: Digest, items: Items, key: string, log: seq<Entry>, outcome: Outcome)
    requires KeyOk(key) && Legal(d, items, Load(key, LookCurrent), log)
    requires After(d, Load(key, LookCurrent), log) == Load(key, LoadDone(outcome))
    ensures outcome in {View(d, items, key), BackupView(d, items, key), Unreadable}
    ensures Faultless(log) ==> outcome == View(d, items, key)
  {
    LoadLog(d, items, key, log);
  }

  lemma {:induction false} LoadLog(d: Digest, items: Items, key: string, log: seq<Entry>)
    requires KeyOk(key) && Legal(d, items, Load(key, LookCurrent), log)
    ensures var op := After(d, Load(key, LookCurrent), log);
            && op.Load? && op.key == key && LoadFacts(op.load) && ItemsAfter(items, log) == items
            && LoadPending(d, items, key, op.load) in {View(d, items, key), BackupView(d, items, key), Unreadable}
            && (Faultless(log) ==> LoadPending(d, items, key, op.load) == View(d, items, key))
  {
    if log != [] {
      var before, e := log[..|log| - 1], log[|log| - 1];
      LoadLog(d, items, key, before);
      var st := After(d, Load(key, LookCurrent), before).load;
      LoadStep(d, items, key, st, e.reply);
      assert e == log[|log| - 1];
      FailedLoadStep(d, items, key, st);
    }
  }

  lemma FailedLoadStep(d: Digest, items: Items, key: string, st: LoadState)
    ensures LoadPending(d, items, key, LoadResume(d, st, Failed))
            in {LoadPending(d, items, key, st), BackupView(d, items, key), Unreadable}
  {
  }
}
