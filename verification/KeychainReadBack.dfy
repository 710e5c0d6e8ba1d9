/**
Save reads its new generation back before it moves any marker (cache/keychain.go), and so
publishes nothing that the keyring did not return, even if the keyring's replies lie.
*/
module KeychainReadBack {
  import opened Wrappers
  import opened Markers
  import opened KeychainOps

  /** What n replies from position i on deliver, if all of them are found. */
  function Delivered(log: seq<Entry>, i: nat, n: nat): Option<string>
    requires i + n <= |log|
  {
    if n == 0 then Some("")
    else
      var before := Delivered(log, i, n - 1);
      if before.Some? && log[i + n - 1].reply.Found? then Some(before.value + log[i + n - 1].reply.value) else None
  }

  /** From position i on the Save has read its new generation back, and the digest matched. */
  predicate ReadBackAt(d: Digest, job: Job, log: seq<Entry>, i: nat) {
    var n := Next(d, job).count;
    && i + n <= |log|
    && After(d, Save(job, LookMarker), log[..i]).Save?
    && After(d, Save(job, LookMarker), log[..i]).save.Verify?
    && After(d, Save(job, LookMarker), log[..i]).save.c == Start(Next(d, job))
    && Delivered(log, i, n).Some? && d(Delivered(log, i, n).value) == d(job.blob)
  }

  predicate PastVerify(st: SaveState) {
    st.MarkBackup? || st.MarkLegacy? || st.Publish? || st.Collect? || st == SaveDone(true)
  }

  /** A Verify in progress, and what follows one, by the replies that led there. */
  ghost predicate Verifies(d: Digest, job: Job, log: seq<Entry>, st: SaveState) {
    && (st.Verify? ==>
          && st.c.m == Next(d, job) && st.c.i < st.c.m.count && st.c.i <= |log|
          && Delivered(log, |log| - st.c.i, st.c.i) == Some(st.c.buf)
          && After(d, Save(job, LookMarker), log[..|log| - st.c.i]) == Save(job, Verify(st.plan, Start(Next(d, job)))))
    && (PastVerify(st) ==> exists i :: ReadBackAt(d, job, log, i))
  }

  lemma {:induction false} DeliveredFrame(log: seq<Entry>, more: Entry, i: nat, n: nat)
    requires i + n <= |log|
    ensures Delivered(log + [more], i, n) == Delivered(log, i, n)
  {
    if n > 0 {
      DeliveredFrame(log, more, i, n - 1);
    }
  }

  lemma ReadBackStays(d: Digest, job: Job, log: seq<Entry>, more: Entry, i: nat)
    requires ReadBackAt(d, job, log, i)
    ensures ReadBackAt(d, job, log + [more], i)
  {
    hide After;
    DeliveredFrame(log, more, i, Next(d, job).count);
    assert (log + [more])[..i] == log[..i];
  }

  lemma ReadingBack(d: Digest, job: Job, log: seq<Entry>, e: Entry, plan: Plan, c: Cursor)
    requires IsGeneration(job.generation) && Verifies(d, job, log, Verify(plan, c))
    ensures Verifies(d, job, log + [e], SaveResume(d, job, Verify(plan, c), e.reply))
  {
    hide After;
    var log', i := log + [e], |log| - c.i;
    DeliveredFrame(log, e, i, c.i);
    assert log'[..i] == log[..i];
    assert Delivered(log', i, c.i + 1) == if e.reply.Found? then Some(c.buf + e.reply.value) else None;
    if PastVerify(SaveResume(d, job, Verify(plan, c), e.reply)) {
      assert ReadBackAt(d, job, log', i);
    }
  }

  lemma VerifyStep(d: Digest, job: Job, log: seq<Entry>, e: Entry, st: SaveState)
    requires IsGeneration(job.generation) && Verifies(d, job, log, st)
    requires After(d, Save(job, LookMarker), log) == Save(job, st)
    ensures Verifies(d, job, log + [e], SaveResume(d, job, st, e.reply))
  {
    var st' := SaveResume(d, job, st, e.reply);
    if PastVerify(st) {
      var i: nat :| ReadBackAt(d, job, log, i);
      ReadBackStays(d, job, log, e, i);
    } else if st.Verify? {
      ReadingBack(d, job, log, e, st.plan, st.c);
    } else if st'.Verify? {
      StartsReadingBack(d, job, log + [e], st'.plan) by {
        assert (log + [e])[..|log|] == log;
      }
    }
  }

  lemma StartsReadingBack(d: Digest, job: Job, log: seq<Entry>, plan: Plan)
    requires After(d, Save(job, LookMarker), log) == Save(job, Verify(plan, Start(Next(d, job))))
    ensures Verifies(d, job, log, Verify(plan, Start(Next(d, job))))
  {
    hide After;
    assert log[..|log|] == log;
  }

  /**
  Whatever the keyring answers, truthfully or not, a Save moves a marker only after it has read
  its whole new generation back with the digest of its blob.
  */
  lemma {:induction false} PublishesOnlyVerified(d: Digest, job: Job, log: seq<Entry>)
    requires IsGeneration(job.generation)
    ensures var op := After(d, Save(job, LookMarker), log);
            op.Save? && op.job == job && Verifies(d, job, log, op.save)
  {
    if log != [] {
      var before, e := log[..|log| - 1], log[|log| - 1];
      PublishesOnlyVerified(d, job, before);
      VerifyStep(d, job, before, e, After(d, Save(job, LookMarker), before).save);
      assert log == before + [e];
    }
  }
}
