/**
What the keychain store's items are, name by name and byte by byte (cache/keychain.go): what
Load returns from them, what a Save leaves and what a Delete takes away.
*/
module KeychainContents {
  import opened Wrappers
  import opened Text
  import opened Markers
  import opened KeychainOps
  import opened KeychainStep
  import opened KeychainRecovery
  import opened KeychainLayout

  // What items spell

  /** The texts of prefix0, prefix1 and so on, n of them, one after the other; None if one is missing. */
  function Joined(items: Items, prefix: string, n: nat): Option<string> {
    if n == 0 then Some("")
    else
      var before := Joined(items, prefix, n - 1);
      if before.Some? && prefix + Itoa(n - 1) in items then Some(before.value + items[prefix + Itoa(n - 1)]) else None
  }

  lemma {:induction false} JoinedWhenAllThere(items: Items, prefix: string, n: nat)
    ensures Joined(items, prefix, n).Some? <==> forall i :: 0 <= i < n ==> prefix + Itoa(i) in items
  {
    hide Itoa;
    if n > 0 {
      JoinedWhenAllThere(items, prefix, n - 1);
      if Joined(items, prefix, n).Some? {
        forall i | 0 <= i < n ensures prefix + Itoa(i) in items {
          assert i < n - 1 || i == n - 1;
        }
      } else {
        assert Joined(items, prefix, n - 1).Some? ==> prefix + Itoa(n - 1) !in items;
      }
    }
  }

  /** The marker item names a generation whose chunks spell the blob, and if it has a digest it is theirs. */
  ghost predicate Spells(d: Digest, items: Items, key: string, marker: string, blob: string) {
    && marker in items
    && (|| (exists n: nat :: IsLegacy(items[marker], n) && Joined(items, key + "#", n) == Some(blob))
        || (exists g, n: nat, h ::
              IsV2(items[marker], g, n, h) && Joined(items, key + "#" + g + "#", n) == Some(blob) && d(blob) == h))
  }

  /** The first part of a generation's chunk names. */
  function ChunkPrefix(key: string, generation: string): string {
    if generation == "" then key + "#" else key + "#" + generation + "#"
  }

  lemma NamedByPrefix(key: string, m: Marker, i: nat)
    ensures ChunkName(key, m, i) == ChunkPrefix(key, m.generation) + Itoa(i)
  {
  }

  lemma {:induction false} ReadFromJoins(d: Digest, items: Items, key: string, m: Marker, buf: string, i: nat)
    requires i <= m.count && Joined(items, ChunkPrefix(key, m.generation), i) == Some(buf)
    ensures ReadFrom(d, items, key, m, buf, i)
            == match Joined(items, ChunkPrefix(key, m.generation), m.count)
               case Some(blob) => Check(d, m, blob)
               case None => None
    decreases m.count - i
  {
    hide ChunkPrefix;
    var prefix := ChunkPrefix(key, m.generation);
    if i < m.count {
      NamedByPrefix(key, m, i);
      if prefix + Itoa(i) in items {
        ReadFromJoins(d, items, key, m, buf + items[prefix + Itoa(i)], i + 1);
      } else {
        JoinedWhenAllThere(items, prefix, m.count);
      }
    }
  }

  /** Reading the generation of a marker item gives what its chunks spell. */
  lemma ReadSpells(d: Digest, items: Items, key: string, marker: string, blob: string)
    ensures Spells(d, items, key, marker, blob) <==>
              MarkerAt(items, marker).Some? && Read(d, items, key, MarkerAt(items, marker).value) == Some(blob)
  {
    hide Joined, IsV2, IsLegacy, Parse;
    if MarkerAt(items, marker).Some? {
      var m := MarkerAt(items, marker).value;
      ParseExactly(items[marker], m);
      FirstJoined(items, ChunkPrefix(key, m.generation));
      ReadFromJoins(d, items, key, m, "", 0);
    }
    if Spells(d, items, key, marker, blob) {
      SpelledParses(d, items, key, marker, blob);
    }
  }

  lemma FirstJoined(items: Items, prefix: string)
    ensures Joined(items, prefix, 0) == Some("")
  {
  }

  lemma SpelledParses(d: Digest, items: Items, key: string, marker: string, blob: string)
    requires Spells(d, items, key, marker, blob)
    ensures MarkerAt(items, marker).Some?
    ensures var m := MarkerAt(items, marker).value;
            && Joined(items, ChunkPrefix(key, m.generation), m.count) == Some(blob)
            && (m.generation != "" ==> d(blob) == m.digest)
  {
    hide Joined, IsV2, IsLegacy, Parse;
    if n: nat :| IsLegacy(items[marker], n) && Joined(items, key + "#", n) == Some(blob) {
      ParseExactly(items[marker], Legacy(n));
    } else {
      var g, n: nat, h :|
        IsV2(items[marker], g, n, h) && Joined(items, key + "#" + g + "#", n) == Some(blob) && d(blob) == h;
      V2HasGeneration(items[marker], g, n, h);
      ParseExactly(items[marker], Marker(g, n, h));
    }
  }

  lemma V2HasGeneration(raw: string, g: string, n: int, h: string)
    requires IsV2(raw, g, n, h)
    ensures g != "" && n >= 1
  {
  }

  // What Load returns

  /**
  Whatever Gets fail, a Load that returns a blob returns nothing for a missing marker item, or
  what the chunks of the current or of the backup generation spell.
  */
  lemma LoadAnswers(d: Digest, items: Items, key: string, log: seq<Entry>, blob: string)
    requires KeyOk(key) && Legal(d, items, Load(key, LookCurrent), log)
    requires After(d, Load(key, LookCurrent), log) == Load(key, LoadDone(Loaded(blob)))
    ensures || (key !in items && blob == "")
            || Spells(d, items, key, key, blob) || Spells(d, items, key, key + "#previous", blob)
  {
    hide Read, Parse, Spells, Legal, After;
    LoadResult(d, items, key, log, Loaded(blob));
    ReadSpells(d, items, key, key, blob);
    ReadSpells(d, items, key, key + "#previous", blob);
  }

  ghost predicate Readable(d: Digest, items: Items, key: string, marker: string) {
    exists blob :: Spells(d, items, key, marker, blob)
  }

  lemma ReadableExactly(d: Digest, items: Items, key: string, marker: string)
    ensures Readable(d, items, key, marker) <==>
              MarkerAt(items, marker).Some? && Read(d, items, key, MarkerAt(items, marker).value).Some?
  {
    hide Read, Parse, Spells;
    if MarkerAt(items, marker).Some? && Read(d, items, key, MarkerAt(items, marker).value).Some? {
      ReadSpells(d, items, key, marker, Read(d, items, key, MarkerAt(items, marker).value).value);
    }
    if blob :| Spells(d, items, key, marker, blob) {
      ReadSpells(d, items, key, marker, blob);
    }
  }

  /**
  A Load whose Gets are answered fails exactly when the marker item is there and neither the
  current nor the backup generation can be read; it returns nothing for a missing marker item,
  the current generation's blob if that can be read, and the backup's otherwise.
  */
  lemma LoadExactly(d: Digest, items: Items, key: string, log: seq<Entry>, outcome: Outcome)
    requires KeyOk(key) && Legal(d, items, Load(key, LookCurrent), log) && Faultless(log)
    requires After(d, Load(key, LookCurrent), log) == Load(key, LoadDone(outcome))
    ensures outcome == Unreadable <==>
              && key in items && !Readable(d, items, key, key) && !Readable(d, items, key, key + "#previous")
    ensures forall blob :: outcome == Loaded(blob) <==>
              if key !in items then blob == ""
              else Spells(d, items, key, key, blob)
                   || (!Readable(d, items, key, key) && Spells(d, items, key, key + "#previous", blob))
  {
    hide Read, Parse, Spells, Readable, Legal, After;
    LoadResult(d, items, key, log, outcome);
    ReadableExactly(d, items, key, key);
    ReadableExactly(d, items, key, key + "#previous");
    forall blob
      ensures outcome == Loaded(blob) <==>
                if key !in items then blob == ""
                else Spells(d, items, key, key, blob)
                     || (!Readable(d, items, key, key) && Spells(d, items, key, key + "#previous", blob))
    {
      ReadSpells(d, items, key, key, blob);
      ReadSpells(d, items, key, key + "#previous", blob);
    }
  }

  /** An old layout, a bare count and that many chunks from 0 on, loads as their concatenation. */
  lemma LegacyLoads(d: Digest, items: Items, key: string, n: nat, log: seq<Entry>, outcome: Outcome)
    requires KeyOk(key) && 1 <= n <= 0x7fff_ffff_ffff_ffff && key in items && items[key] == Itoa(n)
    requires forall i :: 0 <= i < n ==> key + "#" + Itoa(i) in items
    requires Legal(d, items, Load(key, LookCurrent), log) && Faultless(log)
    requires After(d, Load(key, LookCurrent), log) == Load(key, LoadDone(outcome))
    ensures Joined(items, key + "#", n).Some? && outcome == Loaded(Joined(items, key + "#", n).value)
  {
    hide Joined, Legal, After, Parse;
    JoinedWhenAllThere(items, key + "#", n);
    AtoiItoa(n);
    assert IsDigit(Itoa(n)[0]);
    assert IsLegacy(items[key], n);
    LoadExactly(d, items, key, log, outcome);
    assert Spells(d, items, key, key, Joined(items, key + "#", n).value);
  }

  // What a Save leaves

  /** Once published, the marker text and all chunks of the new generation are in place. */
  predicate Stored(d: Digest, items: Items, job: Job, st: SaveState) {
    st.Collect? || st == SaveDone(true) ==>
      job.key in items && items[job.key] == Encode(Next(d, job)) && AllWritten(d, items, job)
  }

  lemma StoredStep(d: Digest, items: Items, job: Job, st: SaveState, reply: Reply, items': Items)
    requires KeyOk(job.key) && SaveFacts(d, items, job, st) && SaveRequest(d, job, st).Some?
    requires Answers(items, SaveRequest(d, job, st).value, reply, items') && Stored(d, items, job, st)
    ensures Stored(d, items', job, SaveResume(d, job, st, reply))
  {
    hide Parse, Encode, ChunkName, Slice, View, Sound, ReadFrom;
    CallChangesOnly(items, SaveRequest(d, job, st).value, reply, items');
    if st.Publish? {
      WrittenPastMarker(d, items, items', job, job.key);
    } else if st.Collect? {
      var stale := st.plan.Stale();
      NextWellFormed(d, job);
      MarkerItemsApart(job.key, stale, st.i);
      forall j | 0 <= j < ChunkCount(|job.blob|) ensures Same(items, items', ChunkName(job.key, Next(d, job), j)) {
        ChunkNamesApart(job.key, Next(d, job), j, stale, st.i);
      }
    }
  }

  lemma {:induction false} StoredLog(d: Digest, items: Items, job: Job, log: seq<Entry>)
    requires Fresh(items, job) && Legal(d, items, Save(job, LookMarker), log)
    ensures var op := After(d, Save(job, LookMarker), log);
            op.Save? && op.job == job && Stored(d, ItemsAfter(items, log), job, op.save)
  {
    hide SaveFacts, Stored, View, Sound, Parse, Encode;
    SaveWritesOnce(d, job, log);
    if log != [] {
      var before, e := log[..|log| - 1], log[|log| - 1];
      LogKeeps(d, items, Save(job, LookMarker), before) by { FreshFacts(d, items, job); }
      StoredLog(d, items, job, before);
      StoredStep(d, ItemsAfter(items, before), job, After(d, Save(job, LookMarker), before).save, e.reply, e.after);
    } else {
      NothingStored(d, items, job);
    }
  }

  lemma NothingStored(d: Digest, items: Items, job: Job)
    ensures Stored(d, items, job, LookMarker)
  {
  }

  /**
  After a successful Save of a blob, n being one or as many pieces of 2048 bytes as it takes,
  the marker item reads v2, generation, n and digest, and chunk item i is piece i of the blob.
  */
  lemma SaveLeaves(d: Digest, items: Items, job: Job, log: seq<Entry>, n: nat)
    requires Fresh(items, job) && Legal(d, items, Save(job, LookMarker), log)
    requires After(d, Save(job, LookMarker), log) == Save(job, SaveDone(true))
    requires n >= 1 && 2048 * (n - 1) <= |job.blob| <= 2048 * n && (n > 1 ==> 2048 * (n - 1) < |job.blob|)
    ensures var items' := ItemsAfter(items, log);
            && job.key in items'
            && items'[job.key] == "v2:" + job.generation + ":" + Itoa(n) + ":" + d(job.blob)
            && forall i :: 0 <= i < n ==>
                 var name := job.key + "#" + job.generation + "#" + Itoa(i);
                 && name in items'
                 && items'[name] == job.blob[2048 * i..if i + 1 < n then 2048 * (i + 1) else |job.blob|]
  {
    hide View, Sound, Parse, ReadFrom, Legal, After, Itoa;
    StoredLog(d, items, job, log);
    assert ChunkCount(|job.blob|) == n;
    var items', next := ItemsAfter(items, log), Next(d, job);
    forall i | 0 <= i < n
      ensures var name := job.key + "#" + job.generation + "#" + Itoa(i);
              name in items' && items'[name] == job.blob[2048 * i..if i + 1 < n then 2048 * (i + 1) else |job.blob|]
    {
      assert ChunkName(job.key, next, i) == job.key + "#" + job.generation + "#" + Itoa(i);
      ChunkShape(job.blob, i);
    }
  }

  // What a Delete takes away

  /** The name is that of a chunk which the marker item names. */
  ghost predicate NamesChunk(items: Items, key: string, marker: string, name: string) {
    && marker in items
    && (|| (exists n: nat, i: nat :: IsLegacy(items[marker], n) && i < n && name == key + "#" + Itoa(i))
        || (exists g, n: nat, h, i: nat ::
              IsV2(items[marker], g, n, h) && i < n && name == key + "#" + g + "#" + Itoa(i)))
  }

  lemma {:induction false} ChunksByName(key: string, m: Marker, n: nat, name: string)
    ensures name in Chunks(key, m, n) <==> exists i: nat :: i < n && name == ChunkPrefix(key, m.generation) + Itoa(i)
  {
    hide ChunkPrefix, ChunkName, Itoa;
    if n > 0 {
      ChunksByName(key, m, n - 1, name);
      NamedByPrefix(key, m, n - 1);
    }
  }

  lemma NamesChunkExactly(items: Items, key: string, marker: string, name: string)
    ensures NamesChunk(items, key, marker, name) <==> name in AllChunks(key, MarkerAt(items, marker))
  {
    hide IsV2, IsLegacy, Parse, Chunks, Itoa;
    if MarkerAt(items, marker).Some? {
      var m := MarkerAt(items, marker).value;
      ParseExactly(items[marker], m);
      ChunksByName(key, m, m.count, name);
    }
    if NamesChunk(items, key, marker, name) {
      if n: nat, i: nat :| IsLegacy(items[marker], n) && i < n && name == key + "#" + Itoa(i) {
        MarkedChunk(items, key, marker, Legacy(n), i);
      } else {
        var g, n: nat, h, i: nat :|
          IsV2(items[marker], g, n, h) && i < n && name == key + "#" + g + "#" + Itoa(i);
        V2HasGeneration(items[marker], g, n, h);
        MarkedChunk(items, key, marker, Marker(g, n, h), i);
      }
    }
  }

  lemma MarkedChunk(items: Items, key: string, marker: string, m: Marker, i: nat)
    requires marker in items && i < m.count
    requires if m.generation == "" then m.digest == "" && IsLegacy(items[marker], m.count)
             else IsV2(items[marker], m.generation, m.count, m.digest)
    ensures ChunkPrefix(key, m.generation) + Itoa(i) in AllChunks(key, MarkerAt(items, marker))
  {
    hide Parse, IsV2, IsLegacy;
    ParseExactly(items[marker], m);
    NamedByPrefix(key, m, i);
    ChunkIn(key, m, i, m.count);
  }

  /** The text is a marker of either form. */
  ghost predicate IsMarker(raw: string) {
    (exists n: nat :: IsLegacy(raw, n)) || (exists g, n: nat, h :: IsV2(raw, g, n, h))
  }

  lemma IsMarkerExactly(raw: string)
    ensures IsMarker(raw) <==> Parse(raw).Some?
  {
    hide IsV2, IsLegacy, Parse;
    if Parse(raw).Some? {
      ParseExactly(raw, Parse(raw).value);
    }
    if n: nat :| IsLegacy(raw, n) {
      ParseExactly(raw, Legacy(n));
    } else if IsMarker(raw) {
      var g, n: nat, h :| IsV2(raw, g, n, h);
      V2HasGeneration(raw, g, n, h);
      ParseExactly(raw, Marker(g, n, h));
    }
  }

  lemma {:induction false} DeletesOnly(d: Digest, items: Items, key: string, log: seq<Entry>)
    requires Legal(d, items, Remove(key, LookAt(0, [])), log)
    ensures After(d, Remove(key, LookAt(0, [])), log).Remove?
    ensures forall n :: n in ItemsAfter(items, log) ==> n in items && ItemsAfter(items, log)[n] == items[n]
  {
    if log != [] {
      DeletesOnly(d, items, key, log[..|log| - 1]);
    }
  }

  /** The item is one of the three markers or a chunk that one of them names. */
  ghost predicate Doomed(items: Items, key: string, name: string) {
    || name in {key, key + "#previous", key + "#legacy-count"}
    || NamesChunk(items, key, key, name) || NamesChunk(items, key, key + "#previous", name)
    || NamesChunk(items, key, key + "#legacy-count", name)
  }

  lemma DoomedExactly(items: Items, key: string, name: string)
    ensures Doomed(items, key, name) <==> name in Slots(key, 3) + ChunksOf(key, FoundBefore(items, key, 3))
  {
    hide NamesChunk, AllChunks, MarkerAt, ChunksOf, FoundBefore, Slots;
    FoundByName(items, key);
    NamesChunkExactly(items, key, key, name);
    NamesChunkExactly(items, key, key + "#previous", name);
    NamesChunkExactly(items, key, key + "#legacy-count", name);
  }

  lemma DoomedIsOwned(items: Items, key: string, name: string)
    requires KeyOk(key) && Doomed(items, key, name)
    ensures Owner(name) == key
  {
    hide NamesChunk, AllChunks, MarkerAt, Owner;
    ItemsOwned(key, Legacy(1), 0);
    assert PreviousName(key) == key + "#previous" && LegacyCountName(key) == key + "#legacy-count";
    NamesChunkExactly(items, key, key, name);
    NamesChunkExactly(items, key, key + "#previous", name);
    NamesChunkExactly(items, key, key + "#legacy-count", name);
    ChunksAreOwned(items, key, key, name);
    ChunksAreOwned(items, key, key + "#previous", name);
    ChunksAreOwned(items, key, key + "#legacy-count", name);
  }

  lemma DeletedByName(items: Items, items': Items, key: string, name: string)
    requires KeyOk(key) && (Owner(name) != key ==> Same(items, items', name))
    requires Owned(items', key) == Owned(items, key) - Slots(key, 3) - ChunksOf(key, FoundBefore(items, key, 3))
    ensures name in items ==> (name !in items' <==> Doomed(items, key, name))
  {
    hide Doomed, Owner, Slots, ChunksOf, FoundBefore;
    DoomedExactly(items, key, name);
    if Doomed(items, key, name) {
      DoomedIsOwned(items, key, name);
    }
    assert name in Owned(items, key) <==> name in items && Owner(name) == key;
    assert name in Owned(items', key) <==> name in items' && Owner(name) == key;
  }

  /**
  Without failures a Delete succeeds exactly when each of the three marker items is absent or
  has the form of a marker, and then exactly those items and the chunks they name are gone,
  numbered from 0 and with the generation in their names if there is one.
  */
  lemma DeleteExactly(d: Digest, items: Items, key: string, log: seq<Entry>, ok: bool)
    requires KeyOk(key) && Legal(d, items, Remove(key, LookAt(0, [])), log) && Faultless(log)
    requires After(d, Remove(key, LookAt(0, [])), log) == Remove(key, DeleteDone(ok))
    ensures ok <==> forall marker :: marker in {key, key + "#previous", key + "#legacy-count"} && marker in items ==>
                                       IsMarker(items[marker])
    ensures var items' := ItemsAfter(items, log);
            && (forall name :: name in items' ==> name in items && items'[name] == items[name])
            && (forall name :: name in items ==> (name !in items' <==> ok && Doomed(items, key, name)))
  {
    hide Parse, Legal, After, Doomed, IsMarker, Slots, ChunksOf, FoundBefore;
    hide View, Sound, KeychainLayout.Readable, Owned;
    DeletesOnly(d, items, key, log);
    DeleteSucceedsExactly(d, items, key, log, ok);
    ReadableMarkers(items, key);
    LogKeeps(d, items, Remove(key, LookAt(0, [])), log);
    if ok {
      forall name | name in items ensures name !in ItemsAfter(items, log) <==> Doomed(items, key, name) {
        DeletedByName(items, ItemsAfter(items, log), key, name);
      }
    }
  }

  lemma ChunksAreOwned(items: Items, key: string, marker: string, name: string)
    requires KeyOk(key)
    ensures name in AllChunks(key, MarkerAt(items, marker)) ==> Owner(name) == key
  {
    hide Parse;
    if MarkerAt(items, marker).Some? {
      OwnedChunks(key, MarkerAt(items, marker).value, MarkerAt(items, marker).value.count, name);
    }
  }

  lemma {:induction false} OwnedChunks(key: string, m: Marker, n: nat, name: string)
    requires KeyOk(key)
    ensures name in Chunks(key, m, n) ==> Owner(name) == key
  {
    hide Owner, ChunkName;
    if n > 0 {
      OwnedChunks(key, m, n - 1, name);
      ItemsOwned(key, m, n - 1);
    }
  }

  lemma ReadableMarkers(items: Items, key: string)
    ensures KeychainLayout.Readable(items, key, 3) <==>
              forall marker :: marker in {key, key + "#previous", key + "#legacy-count"} && marker in items ==>
                                 IsMarker(items[marker])
  {
    hide IsMarker, Parse;
    assert MarkerItem(key, 0) == key && MarkerItem(key, 1) == key + "#previous"
           && MarkerItem(key, 2) == key + "#legacy-count";
    forall marker | marker in items ensures IsMarker(items[marker]) <==> MarkerAt(items, marker).Some? {
      IsMarkerExactly(items[marker]);
    }
  }

  lemma FoundByName(items: Items, key: string)
    ensures Slots(key, 3) == {key, key + "#previous", key + "#legacy-count"}
    ensures ChunksOf(key, FoundBefore(items, key, 3))
            == AllChunks(key, MarkerAt(items, key)) + AllChunks(key, MarkerAt(items, key + "#previous"))
               + AllChunks(key, MarkerAt(items, key + "#legacy-count"))
  {
    hide Parse, Chunks, ChunksOf, MarkerAt;
    FoundNext(items, key, 0);
    FoundNext(items, key, 1);
    FoundNext(items, key, 2);
    NothingFound(items, key);
  }

  lemma FoundNext(items: Items, key: string, n: nat)
    ensures Slots(key, n + 1) == Slots(key, n) + {MarkerItem(key, n)}
    ensures ChunksOf(key, FoundBefore(items, key, n + 1))
            == ChunksOf(key, FoundBefore(items, key, n)) + AllChunks(key, MarkerAt(items, MarkerItem(key, n)))
  {
    hide Parse, Chunks, ChunksOf;
    FoundChunks(key, FoundBefore(items, key, n), MarkerAt(items, MarkerItem(key, n)));
  }

  /** A Delete without failures of a key with a bare count leaves none of the chunks it counts, from 0 on. */
  lemma LegacyDeleted(d: Digest, items: Items, key: string, n: nat, log: seq<Entry>)
    requires KeyOk(key) && 1 <= n <= 0x7fff_ffff_ffff_ffff && key in items && items[key] == Itoa(n)
    requires Legal(d, items, Remove(key, LookAt(0, [])), log) && Faultless(log)
    requires After(d, Remove(key, LookAt(0, [])), log) == Remove(key, DeleteDone(true))
    ensures key !in ItemsAfter(items, log)
    ensures forall i :: 0 <= i < n ==> key + "#" + Itoa(i) !in ItemsAfter(items, log)
  {
    hide Legal, After, Parse;
    AtoiItoa(n);
    assert IsDigit(Itoa(n)[0]);
    assert IsLegacy(items[key], n);
    DeleteExactly(d, items, key, log, true);
    forall i | 0 <= i < n ensures key + "#" + Itoa(i) !in ItemsAfter(items, log) {
      assert NamesChunk(items, key, key, key + "#" + Itoa(i));
    }
  }
}
