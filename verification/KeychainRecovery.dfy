/**
What survives damage: the blob saved last or the one before it, through the next Save as
well, and never a blob that nobody saved.
*/
module KeychainRecovery {
  import opened Wrappers
  import opened Markers
  import opened KeychainOps
  import opened KeychainStep

  // What one step of a Save leaves alone

  /** Which marker item a step rewrites. */
  lemma SaveSlots(d: Digest, items: Items, job: Job, st: SaveState, reply: Reply, items': Items)
    requires KeyOk(job.key) && SaveFacts(d, items, job, st) && SaveRequest(d, job, st).Some?
    requires Answers(items, SaveRequest(d, job, st).value, reply, items')
    ensures !(st.Publish? && reply.Ok?) ==> Same(items, items', job.key)
    ensures !(st.MarkBackup? && reply.Ok?) ==> Same(items, items', PreviousName(job.key))
    ensures !(st.MarkLegacy? && reply.Ok?) ==> Same(items, items', LegacyCountName(job.key))
  {
    CallChangesOnly(items, SaveRequest(d, job, st).value, reply, items');
    MarkerItemsApart(job.key, Legacy(1), 0);
    match st
    case Store(_, i) =>
      NextWellFormed(d, job);
      MarkerItemsApart(job.key, Next(d, job), i);
    case Collect(plan, i) => MarkerItemsApart(job.key, plan.Stale(), i);
    case _ =>
  }

  /** A generation that is neither the new one nor the one being collected reads as before. */
  lemma SaveReadsPast(d: Digest, items: Items, job: Job, st: SaveState, reply: Reply, items': Items, m: Marker)
    requires KeyOk(job.key) && SaveFacts(d, items, job, st) && SaveRequest(d, job, st).Some?
    requires Answers(items, SaveRequest(d, job, st).value, reply, items')
    requires WellFormed(m) && m.generation != job.generation
    requires st.Collect? ==> m.generation != st.plan.Stale().generation
    ensures Read(d, items', job.key, m) == Read(d, items, job.key, m)
  {
    var call := SaveRequest(d, job, st).value;
    CallChangesOnly(items, call, reply, items');
    match st
    case Store(_, i) =>
      NextWellFormed(d, job);
      ReadPastChunk(d, items, items', job.key, Next(d, job), i, m, "", 0);
    case Collect(plan, i) => ReadPastChunk(d, items, items', job.key, plan.Stale(), i, m, "", 0);
    case MarkBackup(_) => ReadPastMarker(d, items, items', job.key, call.name, m, "", 0);
    case MarkLegacy(_) => ReadPastMarker(d, items, items', job.key, call.name, m, "", 0);
    case Publish(_) => ReadPastMarker(d, items, items', job.key, call.name, m, "", 0);
    case _ =>
  }

  // A Save over a usable generation leaves that generation as the backup

  predicate PlanOf(st: SaveState, usable: Option<Marker>) {
    match st
    case LookMarker => true
    case LookPrevious(current) => usable.Some? ==> current == usable
    case Probe(_, c) => usable.Some? ==> c.m == usable.value
    case Store(plan, _) => plan.usable == usable
    case Verify(plan, _) => plan.usable == usable
    case MarkBackup(plan) => plan.usable == usable
    case MarkLegacy(plan) => plan.usable == usable
    case Publish(plan) => plan.usable == usable
    case Collect(plan, _) => plan.usable == usable
    case SaveDone(_) => true
  }

  predicate Keeping(d: Digest, items: Items, job: Job, st: SaveState, kept: Marker, blob: string) {
    && WellFormed(kept) && kept.generation != job.generation
    && Read(d, items, job.key, kept) == Some(blob)
    && PlanOf(st, Some(kept))
    && (st.Publish? || st.Collect? || st == SaveDone(true) ==> Names(items, PreviousName(job.key), kept))
    && (st.Publish? || st.Collect? || st.SaveDone? || Names(items, job.key, kept))
  }

  lemma PlanOfStep(d: Digest, items: Items, job: Job, st: SaveState, reply: Reply, items': Items, kept: Marker)
    requires KeyOk(job.key) && SaveFacts(d, items, job, st) && SaveRequest(d, job, st).Some?
    requires Answers(items, SaveRequest(d, job, st).value, reply, items')
    requires SaveRequest(d, job, st).value.Get? ==> !reply.Failed?
    requires PlanOf(st, Some(kept)) && Read(d, items, job.key, kept).Some?
    requires st.Publish? || st.Collect? || st.SaveDone? || Names(items, job.key, kept)
    ensures PlanOf(SaveResume(d, job, st, reply), Some(kept))
  {
    hide View, BackupView, Parse, Encode, ChunkName, Sound, Slice, Fits, AllWritten, IsGeneration;
    match st
    case Probe(_, c) => ReadStep(d, items, job.key, c, reply);
    case _ =>
  }

  lemma KeepingStep(d: Digest, items: Items, job: Job, st: SaveState, reply: Reply, items': Items, kept: Marker,
          blob: string)
    requires KeyOk(job.key) && SaveFacts(d, items, job, st) && SaveRequest(d, job, st).Some?
    requires Answers(items, SaveRequest(d, job, st).value, reply, items')
    requires SaveRequest(d, job, st).value.Get? ==> !reply.Failed?
    requires Keeping(d, items, job, st, kept, blob)
    ensures Keeping(d, items', job, SaveResume(d, job, st, reply), kept, blob)
  {
    hide View, BackupView, Parse, Encode, ChunkName, Sound, ReadFrom;
    SaveSlots(d, items, job, st, reply, items');
    SaveReadsPast(d, items, job, st, reply, items', kept);
    PlanOfStep(d, items, job, st, reply, items', kept);
    if st.MarkBackup? {
      BackupIsKept(d, items, job, st, reply, items', kept);
    }
  }

  lemma BackupIsKept(d: Digest, items: Items, job: Job, st: SaveState, reply: Reply, items': Items, kept: Marker)
    requires st.MarkBackup? && PlanOf(st, Some(kept)) && WellFormed(kept)
    requires Answers(items, SaveRequest(d, job, st).value, reply, items')
    ensures reply.Ok? ==> Names(items', PreviousName(job.key), kept)
  {
    ParseEncode(kept);
  }

  lemma {:induction false} KeepingLog(d: Digest, items: Items, job: Job, log: seq<Entry>, kept: Marker, blob: string)
    requires Fresh(items, job) && Legal(d, items, Save(job, LookMarker), log) && !Missed(log)
    requires Names(items, job.key, kept) && Read(d, items, job.key, kept) == Some(blob)
    ensures var op := After(d, Save(job, LookMarker), log);
            && op.Save? && op.job == job && SaveFacts(d, ItemsAfter(items, log), job, op.save)
            && Keeping(d, ItemsAfter(items, log), job, op.save, kept, blob)
  {
    LogKeeps(d, items, Save(job, LookMarker), log);
    SaveWritesOnce(d, job, log);
    if log != [] {
      var before, e := log[..|log| - 1], log[|log| - 1];
      KeepingLog(d, items, job, before, kept, blob);
      assert log[|log| - 1] == e;
      KeepingStep(d, ItemsAfter(items, before), job, After(d, Save(job, LookMarker), before).save, e.reply, e.after,
          kept, blob);
    }
  }

  /** The two markers name the blob saved last and, with another generation, the one before it. */
  predicate Backed(d: Digest, items: Items, key: string, next: Marker, blob: string, kept: Marker, old': string) {
    && Names(items, key, next) && Read(d, items, key, next) == Some(blob) && next.generation != ""
    && Names(items, PreviousName(key), kept) && Read(d, items, key, kept) == Some(old')
    && next.generation != kept.generation
  }

  // A Save one of whose Gets went unanswered keeps no backup of its own

  /** Until the Save moves markers, both marker items are as it found them. */
  predicate Untouched(items0: Items, items: Items, job: Job, st: SaveState) {
    st.LookMarker? || st.LookPrevious? || st.Probe? || st.Store? || st.Verify? || st.MarkBackup? ==>
      Same(items0, items, job.key) && Same(items0, items, PreviousName(job.key))
  }

  /** Where such a Save can be: it takes the generation it could not read for unusable. */
  predicate Overlooking(d: Digest, items0: Items, items: Items, job: Job, st: SaveState, kept: Marker, blob: string) {
    && (st == LookPrevious(None) || st.SaveDone? || ((st.Store? || st.Verify? || st.Publish?) && st.plan.usable.None?))
    && Same(items0, items, PreviousName(job.key)) && Read(d, items, job.key, kept) == Some(blob)
    && (st == SaveDone(true) || Same(items0, items, job.key))
  }

  lemma UntouchedStep(d: Digest, items0: Items, items: Items, job: Job, st: SaveState, reply: Reply, items': Items)
    requires KeyOk(job.key) && SaveFacts(d, items, job, st) && SaveRequest(d, job, st).Some?
    requires Answers(items, SaveRequest(d, job, st).value, reply, items') && Untouched(items0, items, job, st)
    ensures Untouched(items0, items', job, SaveResume(d, job, st, reply))
  {
    hide SaveFacts, Parse, Encode, ChunkName, Slice;
    SaveSlots(d, items, job, st, reply, items');
  }

  lemma OverlookingStep(d: Digest, items0: Items, items: Items, job: Job, st: SaveState, reply: Reply, items': Items,
          kept: Marker, blob: string)
    requires KeyOk(job.key) && SaveFacts(d, items, job, st) && SaveRequest(d, job, st).Some?
    requires Answers(items, SaveRequest(d, job, st).value, reply, items') && Untouched(items0, items, job, st)
    requires WellFormed(kept) && kept.generation != job.generation
    requires Overlooking(d, items0, items, job, st, kept, blob)
             || (SaveRequest(d, job, st).value.Get? && reply.Failed? && Read(d, items, job.key, kept) == Some(blob))
    ensures Overlooking(d, items0, items', job, SaveResume(d, job, st, reply), kept, blob)
  {
    hide SaveFacts, Parse, Encode, ChunkName, Slice, ReadFrom;
    SaveSlots(d, items, job, st, reply, items');
    SaveReadsPast(d, items, job, st, reply, items', kept);
  }

  lemma {:induction false} OverlookingLog(d: Digest, items: Items, job: Job, log: seq<Entry>, kept: Marker,
      blob: string)
    requires Fresh(items, job) && Legal(d, items, Save(job, LookMarker), log)
    requires Names(items, job.key, kept) && Read(d, items, job.key, kept) == Some(blob)
    ensures var op, items' := After(d, Save(job, LookMarker), log), ItemsAfter(items, log);
            && op.Save? && op.job == job && Untouched(items, items', job, op.save)
            && (Missed(log) ==> Overlooking(d, items, items', job, op.save, kept, blob))
  {
    hide View, Parse, Encode, Sound, ReadFrom, Overlooking, Untouched, SaveFacts;
    SaveWritesOnce(d, job, log);
    NamesWellFormed(items, job, kept);
    if log != [] {
      var before, e := log[..|log| - 1], log[|log| - 1];
      LogKeeps(d, items, Save(job, LookMarker), before);
      OverlookingLog(d, items, job, before, kept, blob);
      var st := After(d, Save(job, LookMarker), before).save;
      UntouchedStep(d, items, ItemsAfter(items, before), job, st, e.reply, e.after);
      if Missed(log) {
        if !Missed(before) {
          KeepingLog(d, items, job, before, kept, blob);
        }
        OverlookingStep(d, items, ItemsAfter(items, before), job, st, e.reply, e.after, kept, blob);
      }
    } else {
      NothingTouched(items, job);
    }
  }

  lemma NothingTouched(items: Items, job: Job)
    ensures Untouched(items, items, job, LookMarker)
  {
  }

  lemma FreshFacts(d: Digest, items: Items, job: Job)
    requires Fresh(items, job)
    ensures Facts(d, items, Save(job, LookMarker))
  {
  }

  lemma NamesWellFormed(items: Items, job: Job, kept: Marker)
    requires Fresh(items, job) && Names(items, job.key, kept)
    ensures WellFormed(kept) && kept.generation != job.generation
  {
  }

  /**
  A successful Save over a readable generation leaves it as the backup if and only if every Get
  it made was answered or the backup marker named it already: one failed Get makes it look
  unusable, and publishing then replaces the only marker that names it.
  */
  lemma SaveKeepsBackup(d: Digest, items: Items, job: Job, log: seq<Entry>, kept: Marker, old': string)
    requires Fresh(items, job) && Legal(d, items, Save(job, LookMarker), log)
    requires Names(items, job.key, kept) && Read(d, items, job.key, kept) == Some(old')
    requires After(d, Save(job, LookMarker), log) == Save(job, SaveDone(true))
    ensures Backed(d, ItemsAfter(items, log), job.key, Next(d, job), job.blob, kept, old')
            <==> !Missed(log) || Names(items, PreviousName(job.key), kept)
  {
    hide View, Sound, ReadFrom, Parse, Encode;
    LogKeeps(d, items, Save(job, LookMarker), log);
    NextWellFormed(d, job);
    NamesWellFormed(items, job, kept);
    OverlookingLog(d, items, job, log, kept, old');
    if !Missed(log) {
      KeepingLog(d, items, job, log, kept, old');
    }
  }

  predicate InReach(items: Items, key: string, kept: Marker) {
    Names(items, key, kept) || Names(items, PreviousName(key), kept)
  }

  lemma InReachStep(d: Digest, items: Items, job: Job, st: SaveState, reply: Reply, items': Items, kept: Marker,
          blob: string)
    requires KeyOk(job.key) && SaveFacts(d, items, job, st) && SaveRequest(d, job, st).Some?
    requires Answers(items, SaveRequest(d, job, st).value, reply, items')
    requires Keeping(d, items, job, st, kept, blob) && InReach(items, job.key, kept)
    ensures InReach(items', job.key, kept)
  {
    hide View, BackupView, Parse, Encode, ChunkName, Sound, ReadFrom;
    SaveSlots(d, items, job, st, reply, items');
    if st.MarkBackup? {
      BackupIsKept(d, items, job, st, reply, items', kept);
    }
  }

  lemma {:induction false} InReachLog(d: Digest, items: Items, job: Job, log: seq<Entry>, kept: Marker, old': string)
    requires Fresh(items, job) && Legal(d, items, Save(job, LookMarker), log) && !Missed(log)
    requires Names(items, job.key, kept) && Read(d, items, job.key, kept) == Some(old')
    ensures Read(d, ItemsAfter(items, log), job.key, kept) == Some(old') &&
              InReach(ItemsAfter(items, log), job.key, kept)
  {
    hide View, Parse, Encode, Sound, InReach, ReadFrom;
    KeepingLog(d, items, job, log, kept, old');
    if log != [] {
      var before, e := log[..|log| - 1], log[|log| - 1];
      InReachLog(d, items, job, before, kept, old');
      KeepingLog(d, items, job, before, kept, old');
      var st := After(d, Save(job, LookMarker), before).save;
      InReachStep(d, ItemsAfter(items, before), job, st, e.reply, e.after, kept, old');
    } else {
      NamedInReach(items, job.key, kept);
    }
  }

  lemma NamedInReach(items: Items, key: string, kept: Marker)
    requires Names(items, key, kept) || Names(items, PreviousName(key), kept)
    ensures InReach(items, key, kept)
  {
  }

  lemma OverlookedReach(d: Digest, items0: Items, items: Items, job: Job, st: SaveState, kept: Marker, old': string)
    requires Overlooking(d, items0, items, job, st, kept, old') && SaveFacts(d, items, job, st)
    requires Names(items0, job.key, kept) && kept.generation != job.generation
    ensures InReach(items, job.key, kept) <==> st != SaveDone(true) || Names(items0, PreviousName(job.key), kept)
  {
    hide View, Sound, ReadFrom, Parse, Encode;
  }

  /**
  At every crash point of a Save over a readable generation that generation is whole, and one
  of the two markers names it if and only if every Get was answered, the Save has not published
  yet, or the backup marker named it already.
  */
  lemma OldGenerationInReach(d: Digest, items: Items, job: Job, log: seq<Entry>, kept: Marker, old': string)
    requires Fresh(items, job) && Legal(d, items, Save(job, LookMarker), log)
    requires Names(items, job.key, kept) && Read(d, items, job.key, kept) == Some(old')
    ensures Read(d, ItemsAfter(items, log), job.key, kept) == Some(old')
    ensures InReach(ItemsAfter(items, log), job.key, kept)
            <==>
            || !Missed(log) || Effects(d, Save(job, LookMarker), log) == []
            || Names(items, PreviousName(job.key), kept)
  {
    hide View, Sound, Read, Parse, Encode, SaveFacts, Legal, After, Effects, InReach, Untouched, Names, Fresh;
    FreshFacts(d, items, job);
    LogKeeps(d, items, Save(job, LookMarker), log);
    SaveWritesOnce(d, job, log);
    NamesWellFormed(items, job, kept);
    OverlookingLog(d, items, job, log, kept, old');
    if Missed(log) {
      OverlookedReach(d, items, ItemsAfter(items, log), job, After(d, Save(job, LookMarker), log).save, kept, old');
    } else {
      InReachLog(d, items, job, log, kept, old');
    }
  }

  // Damage

  /**
  Any loss or rewriting of one generation's chunks, and of the current marker: rewritten into a
  text that does not parse, or lost.
  */
  ghost predicate Damaged(items: Items, items': Items, key: string, next: Marker) {
    && (forall n :: n != key && (forall i: nat :: n != ChunkName(key, next, i)) ==> Same(items, items', n))
    && (Same(items, items', key) || MarkerAt(items', key).None?)
  }

  /**
  Recovery: after such damage, if the marker item is still there, Load yields what the chunks
  spell if that has the digest of the blob saved last, and exactly the blob before it otherwise.
  */
  lemma DamagedLoad(d: Digest, items: Items, items': Items, key: string, next: Marker, blob: string, kept: Marker,
          old': string)
    requires next.digest == d(blob)
    requires Backed(d, items, key, next, blob, kept, old') && Damaged(items, items', key, next)
    ensures View(d, items', key)
            == if key !in items' then Loaded("")
               else if MarkerAt(items', key).Some? && Read(d, items', key, next).Some?
               then Loaded(Read(d, items', key, next).value) else Loaded(old')
    ensures Read(d, items', key, next).Some? ==> d(Read(d, items', key, next).value) == d(blob)
    ensures BackupView(d, items', key) == Loaded(old')
  {
    forall i: nat ensures PreviousName(key) != ChunkName(key, next, i) {
      MarkerItemsApart(key, next, i);
    }
    MarkerItemsApart(key, next, 0);
    assert Same(items, items', PreviousName(key));
    forall j | 0 <= j < kept.count ensures Same(items, items', ChunkName(key, kept, j)) {
      MarkerItemsApart(key, kept, j);
      forall i: nat ensures ChunkName(key, kept, j) != ChunkName(key, next, i) {
        ChunkNamesApart(key, kept, j, next, i);
      }
    }
    ReadFrame(d, items, items', key, kept, "", 0);
    if Read(d, items', key, next).Some? {
      ReadMatches(d, items', key, next, "", 0);
    }
  }

  /**
  Exactly when recovery works: unless the damaged chunks spell a text that clashes with the blob,
  Load yields the blob saved last or the one before it if and only if the current marker item is
  still in the keyring, or one of the two is empty, as a lost item looks.
  */
  lemma RecoveredExactly(d: Digest, items: Items, items': Items, key: string, next: Marker, blob: string, kept: Marker,
          old': string)
    requires next.digest == d(blob)
    requires Backed(d, items, key, next, blob, kept, old') && Damaged(items, items', key, next)
    requires Read(d, items', key, next).Some? ==> !Clashes(d, Read(d, items', key, next).value, blob)
    ensures View(d, items', key) in {Loaded(blob), Loaded(old')} <==> key in items' || "" in {blob, old'}
    ensures key !in items' ==> View(d, items', key) == Loaded("")
  {
    hide View, Read, Parse;
    DamagedLoad(d, items, items', key, next, blob, kept, old');
  }

  /** Whatever a versioned read returns has the digest its marker names. */
  lemma {:induction false} ReadMatches(d: Digest, items: Items, key: string, m: Marker, buf: string, i: nat)
    requires m.generation != "" && ReadFrom(d, items, key, m, buf, i).Some?
    ensures d(ReadFrom(d, items, key, m, buf, i).value) == m.digest
    decreases m.count - i
  {
    if i < m.count {
      ReadMatches(d, items, key, m, buf + items[ChunkName(key, m, i)], i + 1);
    }
  }

  // The next Save after damage

  predicate Unusable(d: Digest, items: Items, key: string) {
    MarkerAt(items, key).Some? ==> Read(d, items, key, MarkerAt(items, key).value).None?
  }

  /** A Save that found no usable generation: the backup marker is still the one it found. */
  predicate Sparing(d: Digest, items0: Items, items: Items, job: Job, st: SaveState) {
    && Same(items0, items, PreviousName(job.key)) && PlanOf(st, None) && !st.MarkBackup? && !st.MarkLegacy? &&
         !st.Collect?
    && (st.SaveDone? || Unusable(d, items, job.key))
  }

  lemma SparingStep(d: Digest, items0: Items, items: Items, job: Job, st: SaveState, reply: Reply, items': Items)
    requires KeyOk(job.key) && SaveFacts(d, items, job, st) && SaveRequest(d, job, st).Some?
    requires Answers(items, SaveRequest(d, job, st).value, reply, items')
    requires Sparing(d, items0, items, job, st)
    ensures Sparing(d, items0, items', job, SaveResume(d, job, st, reply))
  {
    SaveSlots(d, items, job, st, reply, items');
    match st
    case Probe(_, c) => ReadStep(d, items, job.key, c, reply);
    case Store(_, _) =>
      if MarkerAt(items, job.key).Some? {
        SaveReadsPast(d, items, job, st, reply, items', MarkerAt(items, job.key).value);
      }
    case _ =>
  }

  lemma {:induction false} SparingLog(d: Digest, items: Items, job: Job, log: seq<Entry>)
    requires Fresh(items, job) && Legal(d, items, Save(job, LookMarker), log) && Unusable(d, items, job.key)
    ensures var op := After(d, Save(job, LookMarker), log);
            op.Save? && op.job == job && Sparing(d, items, ItemsAfter(items, log), job, op.save)
  {
    SaveWritesOnce(d, job, log);
    if log != [] {
      var before, e := log[..|log| - 1], log[|log| - 1];
      LogKeeps(d, items, Save(job, LookMarker), before);
      SparingLog(d, items, job, before);
      SparingStep(d, items, ItemsAfter(items, before), job, After(d, Save(job, LookMarker), before).save, e.reply,
          e.after);
    }
  }

  /**
  Damage recovery through a second Save: first a Save of one blob over another succeeds and
  keeps its backup, then its generation or the current marker is damaged, then a second Save
  runs and stops anywhere. Load yields one of the two blobs, or a text with the digest of the
  first, until the second Save has published its own, and the backup marker is not touched if
  the damaged generation cannot be read.
  */
  lemma DamageRecovery(d: Digest, items: Items, job: Job, log: seq<Entry>, kept: Marker, old': string,
                       damaged: Items, again: Job, log': seq<Entry>)
    requires Fresh(items, job) && Legal(d, items, Save(job, LookMarker), log)
    requires Names(items, job.key, kept) && Read(d, items, job.key, kept) == Some(old')
    requires !Missed(log) || Names(items, PreviousName(job.key), kept)
    requires After(d, Save(job, LookMarker), log) == Save(job, SaveDone(true))
    requires Damaged(ItemsAfter(items, log), damaged, job.key, Next(d, job)) && job.key in damaged
    requires again.key == job.key && Fresh(damaged, again) && Legal(d, damaged, Save(again, LookMarker), log')
    ensures var v := View(d, damaged, job.key);
            v.Loaded? && (v.blob in {job.blob, old'} || Clashes(d, v.blob, job.blob))
    ensures View(d, ItemsAfter(damaged, log'), job.key) in {View(d, damaged, job.key), Loaded(again.blob)}
    ensures Unusable(d, damaged, job.key) ==> Same(damaged, ItemsAfter(damaged, log'), PreviousName(job.key))
  {
    SaveKeepsBackup(d, items, job, log, kept, old');
    DamagedLoad(d, ItemsAfter(items, log), damaged, job.key, Next(d, job), job.blob, kept, old');
    assert log'[..|log'|] == log';
    SaveCrashSafe(d, damaged, again, log', |log'|);
    if Unusable(d, damaged, job.key) {
      SparingLog(d, damaged, again, log');
    }
  }
}
