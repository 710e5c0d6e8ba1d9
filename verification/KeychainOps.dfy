/**
Load, Save and Delete of the keychain store (cache/keychain.go) as programs over a keyring.

A program is a value of type Op. Request says which keyring call it makes next and Resume
what it becomes after the reply, so every keyring call is one step and a crash is a program
that is never resumed.
*/
module KeychainOps {
  import opened Wrappers
  import opened Text
  import opened Markers

  // The keyring: items of one service

  type Items = map<string, string>

  datatype Call = Get(name: string) | Set(name: string, value: string) | Delete(name: string)

  datatype Reply = Found(value: string) | NotFound | Ok | Failed

  /** Any call may fail; a failed call changes nothing, and deleting a missing item says so. */
  ghost predicate Answers(items: Items, call: Call, reply: Reply, items': Items) {
    if reply.Failed? then items' == items
    else match call
      case Get(n) => items' == items && reply == if n in items then Found(items[n]) else NotFound
      case Set(n, v) => reply == Ok && items' == items[n := v]
      case Delete(n) => reply == (if n in items then Ok else NotFound) && items' == items - {n}
  }

  // Chunking

  function Min(a: nat, b: nat): nat { if a <= b then a else b }

  function ChunkCount(length: nat): nat {
    var n := (length + CHUNK_SIZE - 1) / CHUNK_SIZE;
    if n < 1 then 1 else n
  }

  function Slice(blob: string, i: nat): string {
    blob[Min(i * CHUNK_SIZE, |blob|)..Min(i * CHUNK_SIZE + CHUNK_SIZE, |blob|)]
  }

  /** What is left of the int range for a length that the chunk count is computed from. */
  predicate Fits(blob: string) { |blob| + CHUNK_SIZE - 1 <= MAX_INT }

  // Programs

  /** One Save: its key, its blob and the generation drawn for it. */
  datatype Job = Job(key: string, blob: string, generation: string)

  function Next(d: Digest, job: Job): Marker {
    Marker(job.generation, ChunkCount(|job.blob|), d(job.blob))
  }

  /** What Save learned before writing: the current marker if its generation is readable, and the backup marker. */
  datatype Plan = Plan(usable: Option<Marker>, previous: Option<Marker>) {
    function Kept(): Marker { if usable.Some? then usable.value else Legacy(1) }

    function Stale(): Marker { if previous.Some? then previous.value else Legacy(1) }

    /** The old backup is a versioned generation that the new backup marker does not name. */
    predicate Supersedes() {
      usable.Some? && previous.Some? && Stale().generation != "" && Stale().generation != Kept().generation
    }
  }

  /** A read of marker m's chunks that has gathered buf from the first i of them. */
  datatype Cursor = Cursor(m: Marker, buf: string, i: nat)

  datatype Progress = More(c: Cursor) | Finished(r: Option<string>)

  /** What a caller of Load sees; an absent key and an empty blob both load as the empty blob. */
  datatype Outcome = Loaded(blob: string) | Unreadable

  datatype LoadState =
    | LookCurrent
    | ReadCurrent(c: Cursor)
    | LookBackup
    | ReadBackup(c: Cursor)
    | LoadDone(outcome: Outcome)

  datatype SaveState =
    | LookMarker
    | LookPrevious(current: Option<Marker>)
    | Probe(previous: Option<Marker>, c: Cursor)
    | Store(plan: Plan, i: nat)
    | Verify(plan: Plan, c: Cursor)
    | MarkBackup(plan: Plan)
    | MarkLegacy(plan: Plan)
    | Publish(plan: Plan)
    | Collect(plan: Plan, i: nat)
    | SaveDone(ok: bool)

  datatype DeleteState =
    | LookAt(at: nat, found: seq<Marker>)
    | Retire(at: nat, found: seq<Marker>)
    | Purge(found: seq<Marker>, i: nat)
    | DeleteDone(ok: bool)

  datatype Op =
    | Load(key: string, load: LoadState)
    | Save(job: Job, save: SaveState)
    | Remove(key: string, remove: DeleteState)

  function KeyOf(op: Op): string {
    match op
    case Load(key, _) => key
    case Save(job, _) => job.key
    case Remove(key, _) => key
  }

  /** The marker items in the order Delete visits them. */
  function MarkerItem(key: string, at: nat): string {
    if at == 0 then key else if at == 1 then PreviousName(key) else LegacyCountName(key)
  }

  // The next call of a program that has not returned

  function LoadRequest(key: string, st: LoadState): Option<Call> {
    match st
    case LookCurrent => Some(Get(key))
    case ReadCurrent(c) => Some(Get(ChunkName(key, c.m, c.i)))
    case LookBackup => Some(Get(PreviousName(key)))
    case ReadBackup(c) => Some(Get(ChunkName(key, c.m, c.i)))
    case LoadDone(_) => None
  }

  function SaveRequest(d: Digest, job: Job, st: SaveState): Option<Call> {
    match st
    case LookMarker => Some(Get(job.key))
    case LookPrevious(_) => Some(Get(PreviousName(job.key)))
    case Probe(_, c) => Some(Get(ChunkName(job.key, c.m, c.i)))
    case Store(_, i) => Some(Set(ChunkName(job.key, Next(d, job), i), Slice(job.blob, i)))
    case Verify(_, c) => Some(Get(ChunkName(job.key, c.m, c.i)))
    case MarkBackup(plan) => Some(Set(PreviousName(job.key), Encode(plan.Kept())))
    case MarkLegacy(plan) => Some(Set(LegacyCountName(job.key), Itoa(plan.Kept().count)))
    case Publish(_) => Some(Set(job.key, Encode(Next(d, job))))
    case Collect(plan, i) => Some(Delete(ChunkName(job.key, plan.Stale(), i)))
    case SaveDone(_) => None
  }

  function DeleteRequest(key: string, st: DeleteState): Option<Call> {
    match st
    case LookAt(at, _) => Some(Get(MarkerItem(key, at)))
    case Retire(at, _) => Some(Delete(MarkerItem(key, at)))
    case Purge(found, i) => if found == [] then None else Some(Delete(ChunkName(key, found[0], i)))
    case DeleteDone(_) => None
  }

  function Request(d: Digest, op: Op): Option<Call> {
    match op
    case Load(key, st) => LoadRequest(key, st)
    case Save(job, st) => SaveRequest(d, job, st)
    case Remove(key, st) => DeleteRequest(key, st)
  }

  // What a program becomes after the reply

  /** The marker a Get delivered; None for a missing item, a failed call and an unparsable text alike. */
  function MarkerIn(reply: Reply): (m: Option<Marker>)
    ensures m.Some? ==> WellFormed(m.value)
  {
    if reply.Found? then Parse(reply.value) else None
  }

  /** The digest check that ends a read; legacy markers carry no digest. */
  function Check(d: Digest, m: Marker, buf: string): Option<string> {
    if m.generation == "" || d(buf) == m.digest then Some(buf) else None
  }

  function Start(m: Marker): Cursor { Cursor(m, "", 0) }

  function Advance(d: Digest, c: Cursor, reply: Reply): Progress {
    if !reply.Found? then Finished(None)
    else if c.i + 1 < c.m.count then More(Cursor(c.m, c.buf + reply.value, c.i + 1))
    else Finished(Check(d, c.m, c.buf + reply.value))
  }

  function LoadResume(d: Digest, st: LoadState, reply: Reply): LoadState {
    match st
    case LookCurrent =>
      if reply.NotFound? then LoadDone(Loaded(""))
      else if MarkerIn(reply).Some? then ReadCurrent(Start(MarkerIn(reply).value))
      else LookBackup
    case ReadCurrent(c) =>
      (match Advance(d, c, reply)
       case More(c') => ReadCurrent(c')
       case Finished(r) => if r.Some? then LoadDone(Loaded(r.value)) else LookBackup)
    case LookBackup =>
      if MarkerIn(reply).Some? then ReadBackup(Start(MarkerIn(reply).value)) else LoadDone(Unreadable)
    case ReadBackup(c) =>
      (match Advance(d, c, reply)
       case More(c') => ReadBackup(c')
       case Finished(r) => LoadDone(if r.Some? then Loaded(r.value) else Unreadable))
    case LoadDone(_) => st
  }

  /** The writes begin; a marker whose read failed is not kept as a backup. */
  function Write0(usable: Option<Marker>, previous: Option<Marker>): SaveState { Store(Plan(usable, previous), 0) }

  function SaveResume(d: Digest, job: Job, st: SaveState, reply: Reply): SaveState {
    match st
    case LookMarker => LookPrevious(MarkerIn(reply))
    case LookPrevious(current) =>
      if !reply.NotFound? && MarkerIn(reply).None? then SaveDone(false)
      else if current.Some? then Probe(MarkerIn(reply), Start(current.value))
      else Write0(None, MarkerIn(reply))
    case Probe(previous, c) =>
      (match Advance(d, c, reply)
       case More(c') => Probe(previous, c')
       case Finished(r) => Write0(if r.Some? then Some(c.m) else None, previous))
    case Store(plan, i) =>
      if !reply.Ok? then SaveDone(false)
      else if i + 1 < ChunkCount(|job.blob|) then Store(plan, i + 1)
      else Verify(plan, Start(Next(d, job)))
    case Verify(plan, c) =>
      (match Advance(d, c, reply)
       case More(c') => Verify(plan, c')
       case Finished(r) =>
         if r.None? then SaveDone(false) else if plan.usable.Some? then MarkBackup(plan) else Publish(plan))
    case MarkBackup(plan) =>
      if !reply.Ok? then SaveDone(false)
      else if plan.Kept().generation == "" then MarkLegacy(plan)
      else Publish(plan)
    case MarkLegacy(plan) => if reply.Ok? then Publish(plan) else SaveDone(false)
    case Publish(plan) =>
      if !reply.Ok? then SaveDone(false) else if plan.Supersedes() then Collect(plan, 0) else SaveDone(true)
    case Collect(plan, i) => if i + 1 < plan.Stale().count then Collect(plan, i + 1) else SaveDone(true)
    case SaveDone(_) => st
  }

  /** Removal of the listed generations begins; with none left Delete has succeeded. */
  function PurgeAll(found: seq<Marker>): DeleteState {
    if found == [] then DeleteDone(true) else Purge(found, 0)
  }

  function Collected(found: seq<Marker>, m: Option<Marker>): seq<Marker> {
    if m.Some? then found + [m.value] else found
  }

  function DeleteResume(st: DeleteState, reply: Reply): DeleteState {
    match st
    case LookAt(at, found) =>
      if !reply.NotFound? && MarkerIn(reply).None? then DeleteDone(false)
      else if at < 2 then LookAt(at + 1, Collected(found, MarkerIn(reply)))
      else Retire(0, Collected(found, MarkerIn(reply)))
    case Retire(at, found) =>
      if reply.Failed? then DeleteDone(false)
      else if at < 2 then Retire(at + 1, found)
      else PurgeAll(found)
    case Purge(found, i) =>
      if found == [] then st
      else if i + 1 < found[0].count then Purge(found, i + 1)
      else PurgeAll(found[1..])
    case DeleteDone(_) => st
  }

  function Resume(d: Digest, op: Op, reply: Reply): Op {
    match op
    case Load(key, st) => Load(key, LoadResume(d, st, reply))
    case Save(job, st) => Save(job, SaveResume(d, job, st, reply))
    case Remove(key, st) => Remove(key, DeleteResume(st, reply))
  }

  // What Load sees

  /** The blob a read finds when it continues with chunk i on items that stay as they are. */
  function ReadFrom(d: Digest, items: Items, key: string, m: Marker, buf: string, i: nat): Option<string>
    decreases m.count - i
  {
    if i >= m.count then Check(d, m, buf)
    else if ChunkName(key, m, i) !in items then None
    else ReadFrom(d, items, key, m, buf + items[ChunkName(key, m, i)], i + 1)
  }

  /** Some exactly when every chunk of m is present and, for v2, the digest of their concatenation matches. */
  function Read(d: Digest, items: Items, key: string, m: Marker): Option<string> {
    ReadFrom(d, items, key, m, "", 0)
  }

  function MarkerAt(items: Items, name: string): Option<Marker> {
    if name in items then Parse(items[name]) else None
  }

  function BackupView(d: Digest, items: Items, key: string): Outcome {
    match MarkerAt(items, PreviousName(key))
    case None => Unreadable
    case Some(p) =>
      match Read(d, items, key, p)
      case Some(blob) => Loaded(blob)
      case None => Unreadable
  }

  /** The result of a Load that runs alone and whose Gets all succeed. */
  function View(d: Digest, items: Items, key: string): Outcome {
    if key !in items then Loaded("")
    else match MarkerAt(items, key)
      case None => BackupView(d, items, key)
      case Some(m) =>
        match Read(d, items, key, m)
        case Some(blob) => Loaded(blob)
        case None => BackupView(d, items, key)
  }

  /** The structural invariant: each existing marker parses and names a complete generation. */
  predicate Complete(d: Digest, items: Items, key: string, name: string) {
    name in items ==> MarkerAt(items, name).Some? && Read(d, items, key, MarkerAt(items, name).value).Some?
  }

  predicate Sound(d: Digest, items: Items, key: string) {
    Complete(d, items, key, key) && Complete(d, items, key, PreviousName(key))
  }

  // The atomic register a key refines

  datatype Effect = NoEffect | Write(blob: string) | Clear

  /** A Save takes effect when it publishes its marker, a Delete when the current marker is gone. */
  function EffectOf(op: Op, reply: Reply): Effect {
    match op
    case Save(job, Publish(_)) => if reply.Ok? then Write(job.blob) else NoEffect
    case Remove(_, Retire(at, _)) => if at == 0 && !reply.Failed? then Clear else NoEffect
    case _ => NoEffect
  }

  function Register(value: Outcome, effect: Effect): Outcome {
    match effect
    case NoEffect => value
    case Write(blob) => Loaded(blob)
    case Clear => Loaded("")
  }

  // Whole programs

  /** One keyring call of a program: what it asked, what it heard and the items it left. */
  datatype Entry = Entry(call: Call, reply: Reply, after: Items)

  /** The program after the replies of a log. */
  function After(d: Digest, op: Op, log: seq<Entry>): Op {
    if log == [] then op
    else Resume(d, After(d, op, log[..|log| - 1]), log[|log| - 1].reply)
  }

  function ItemsAfter(items: Items, log: seq<Entry>): Items {
    if log == [] then items else log[|log| - 1].after
  }

  /** The log of a program that ran alone on its key, from these items to wherever it stopped. */
  ghost predicate Legal(d: Digest, items: Items, op: Op, log: seq<Entry>) {
    log == [] ||
    var before, e := log[..|log| - 1], log[|log| - 1];
    && Legal(d, items, op, before)
    && Request(d, After(d, op, before)) == Some(e.call)
    && Answers(ItemsAfter(items, before), e.call, e.reply, e.after)
  }

  /** No call of the log failed. */
  predicate Faultless(log: seq<Entry>) { forall i :: 0 <= i < |log| ==> !log[i].reply.Failed? }

  /** Some Get of the log went unanswered. */
  predicate Missed(log: seq<Entry>) {
    log != [] && (Missed(log[..|log| - 1]) || (log[|log| - 1].call.Get? && log[|log| - 1].reply.Failed?))
  }

  /** The register effects of a log, in order. */
  function Effects(d: Digest, op: Op, log: seq<Entry>): seq<Effect> {
    if log == [] then []
    else
      Effects(d, op, log[..|log| - 1]) + Counted(EffectOf(After(d, op, log[..|log| - 1]), log[|log| - 1].reply))
  }

  function Counted(e: Effect): seq<Effect> { if e == NoEffect then [] else [e] }

  /** The writes a Save has made by the time it is in a state. */
  function Writes(job: Job, st: SaveState): seq<Effect> {
    if st.Collect? || st == SaveDone(true) then [Write(job.blob)] else []
  }

  lemma SaveEffectStep(d: Digest, job: Job, st: SaveState, reply: Reply)
    ensures Writes(job, SaveResume(d, job, st, reply)) == Writes(job, st) + Counted(EffectOf(Save(job, st), reply))
  {
  }

  /**
  A Save writes its blob exactly once if it returns success or is cut short while collecting,
  and never if it returns an error or is cut short earlier.
  */
  lemma {:induction false} SaveWritesOnce(d: Digest, job: Job, log: seq<Entry>)
    ensures var op := After(d, Save(job, LookMarker), log);
            op.Save? && op.job == job && Effects(d, Save(job, LookMarker), log) == Writes(job, op.save)
  {
    if log != [] {
      var before := log[..|log| - 1];
      SaveWritesOnce(d, job, before);
      SaveEffectStep(d, job, After(d, Save(job, LookMarker), before).save, log[|log| - 1].reply);
    }
  }

  /** The clears a Delete may have made by the time it is in a state. */
  predicate Cleared(st: DeleteState, effects: seq<Effect>) {
    && (effects == [] || effects == [Clear])
    && (st.LookAt? || (st.Retire? && st.at == 0) ==> effects == [])
    && ((st.Retire? && st.at > 0) || st.Purge? || st == DeleteDone(true) ==> effects == [Clear])
  }

  lemma DeleteEffectStep(key: string, st: DeleteState, reply: Reply, effects: seq<Effect>)
    requires Cleared(st, effects)
    ensures Cleared(DeleteResume(st, reply), effects + Counted(EffectOf(Remove(key, st), reply)))
  {
  }

  /**
  A Delete clears exactly once if it succeeds and at most once otherwise: an error from a
  later call leaves the value already cleared.
  */
  lemma {:induction false} DeleteClearsOnce(d: Digest, key: string, log: seq<Entry>)
    ensures var op := After(d, Remove(key, LookAt(0, [])), log);
            op.Remove? && op.key == key && Cleared(op.remove, Effects(d, Remove(key, LookAt(0, [])), log))
  {
    if log != [] {
      var before := log[..|log| - 1];
      DeleteClearsOnce(d, key, before);
      DeleteEffectStep(key, After(d, Remove(key, LookAt(0, [])), before).remove, log[|log| - 1].reply,
                       Effects(d, Remove(key, LookAt(0, [])), before));
    }
  }
}
