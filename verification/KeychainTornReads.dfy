/**
No torn reads: with versioned markers only, whatever happens to chunk items at any moment and
whichever calls fail, every blob a Load returns was passed whole to an earlier Save.
*/
module KeychainTornReads {
  import opened Markers
  import opened KeychainOps
  import opened KeychainStep
  import opened KeychainSystem

  /** The (key, blob) pairs passed to the Saves begun so far. */
  type Submitted = set<(string, string)>

  function SubmittedBy(events: seq<Event>): Submitted {
    if events == [] then {}
    else
      var e := events[|events| - 1];
      SubmittedBy(events[..|events| - 1])
      + if e.Begin? && e.op.Save? then {(e.op.job.key, e.op.job.blob)} else {}
  }

  /** A versioned marker whose digest is that of a submitted blob. */
  ghost predicate Vouched(d: Digest, sub: Submitted, key: string, m: Marker) {
    WellFormed(m) && m.generation != "" && exists b :: (key, b) in sub && d(b) == m.digest
  }

  ghost predicate PlanVouched(d: Digest, sub: Submitted, key: string, plan: Plan) {
    && (plan.usable.Some? ==> Vouched(d, sub, key, plan.usable.value))
    && (plan.previous.Some? ==> WellFormed(plan.previous.value))
  }

  ghost predicate SaveVouched(d: Digest, sub: Submitted, job: Job, st: SaveState) {
    && JobOk(job) && (job.key, job.blob) in sub
    && match st
       case LookMarker => true
       case LookPrevious(current) => current.Some? ==> Vouched(d, sub, job.key, current.value)
       case Probe(previous, c) => Vouched(d, sub, job.key, c.m) && (previous.Some? ==> WellFormed(previous.value))
       case Store(plan, _) => PlanVouched(d, sub, job.key, plan)
       case Verify(plan, c) => PlanVouched(d, sub, job.key, plan)
       case MarkBackup(plan) => PlanVouched(d, sub, job.key, plan) && plan.usable.Some?
       case MarkLegacy(plan) => PlanVouched(d, sub, job.key, plan)
       case Publish(plan) => PlanVouched(d, sub, job.key, plan)
       case Collect(plan, _) => plan.previous.Some? && WellFormed(plan.Stale())
       case SaveDone(_) => true
  }

  /** A text with the digest of a submitted blob. */
  ghost predicate Echoes(d: Digest, sub: Submitted, key: string, text: string) {
    exists b :: (key, b) in sub && d(b) == d(text)
  }

  ghost predicate LoadVouched(d: Digest, sub: Submitted, key: string, st: LoadState) {
    match st
    case ReadCurrent(c) => Vouched(d, sub, key, c.m)
    case ReadBackup(c) => Vouched(d, sub, key, c.m)
    case LoadDone(Loaded(b)) => b == "" || Echoes(d, sub, key, b)
    case _ => true
  }

  ghost predicate DeleteVouched(st: DeleteState) {
    match st
    case LookAt(_, found) => AllWellFormed(found)
    case Retire(_, found) => AllWellFormed(found)
    case Purge(found, _) => AllWellFormed(found)
    case DeleteDone(_) => true
  }

  ghost predicate OpVouched(d: Digest, sub: Submitted, op: Op) {
    && KeyOk(KeyOf(op))
    && match op
       case Load(key, st) => LoadVouched(d, sub, key, st)
       case Save(job, st) => SaveVouched(d, sub, job, st)
       case Remove(_, st) => DeleteVouched(st)
  }

  ghost predicate SlotVouched(d: Digest, sub: Submitted, items: Items, key: string, name: string) {
    MarkerAt(items, name).Some? ==> Vouched(d, sub, key, MarkerAt(items, name).value)
  }

  ghost predicate KeyVouched(d: Digest, sub: Submitted, items: Items, key: string) {
    SlotVouched(d, sub, items, key, key) && SlotVouched(d, sub, items, key, PreviousName(key))
  }

  /** What a Save learns from a reply is vouched for. */
  lemma SaveLearnsVouched(d: Digest, sub: Submitted, items: Items, job: Job, st: SaveState, reply: Reply, items': Items)
    requires SaveVouched(d, sub, job, st) && KeyVouched(d, sub, items, job.key) && SaveRequest(d, job, st).Some?
    requires Answers(items, SaveRequest(d, job, st).value, reply, items')
    ensures SaveVouched(d, sub, job, SaveResume(d, job, st, reply))
  {
    if st.LookMarker? && MarkerIn(reply).Some? {
      assert Names(items, job.key, MarkerIn(reply).value);
    }
  }

  /** What a Save writes to the marker items is vouched for. */
  lemma SaveWritesVouched(d: Digest, sub: Submitted, items: Items, job: Job, st: SaveState, reply: Reply, items': Items)
    requires SaveVouched(d, sub, job, st) && KeyVouched(d, sub, items, job.key) && SaveRequest(d, job, st).Some?
    requires Answers(items, SaveRequest(d, job, st).value, reply, items')
    ensures KeyVouched(d, sub, items', job.key)
  {
    var key, next := job.key, Next(d, job);
    CallChangesOnly(items, SaveRequest(d, job, st).value, reply, items');
    MarkerItemsApart(key, Legacy(1), 0);
    match st
    case Store(_, i) =>
      NextWellFormed(d, job);
      MarkerItemsApart(key, next, i);
    case Collect(plan, i) => MarkerItemsApart(key, plan.Stale(), i);
    case MarkBackup(plan) =>
      ParseEncode(plan.Kept());
      assert Same(items, items', key);
    case MarkLegacy(plan) =>
    case Publish(plan) =>
      NextWellFormed(d, job);
      assert (key, job.blob) in sub && next.digest == d(job.blob);
      assert Same(items, items', PreviousName(key));
    case _ =>
  }

  lemma LoadVouchedStep(d: Digest, sub: Submitted, items: Items, key: string, st: LoadState, reply: Reply)
    requires LoadVouched(d, sub, key, st) && KeyVouched(d, sub, items, key) && LoadRequest(key, st).Some?
    requires Answers(items, LoadRequest(key, st).value, reply, items)
    ensures LoadVouched(d, sub, key, LoadResume(d, st, reply))
  {
  }

  lemma DeleteVouchedStep(d: Digest, sub: Submitted, items: Items, key: string, st: DeleteState, reply: Reply,
          items': Items)
    requires DeleteVouched(st) && KeyVouched(d, sub, items, key) && DeleteRequest(key, st).Some?
    requires Answers(items, DeleteRequest(key, st).value, reply, items')
    ensures DeleteVouched(DeleteResume(st, reply)) && KeyVouched(d, sub, items', key)
  {
    CallChangesOnly(items, DeleteRequest(key, st).value, reply, items');
    MarkerItemsApart(key, Legacy(1), 0);
    match st
    case Purge(found, i) => MarkerItemsApart(key, found[0], i);
    case _ =>
  }

  lemma VouchedStep(d: Digest, sub: Submitted, items: Items, op: Op, reply: Reply, items': Items)
    requires OpVouched(d, sub, op) && KeyVouched(d, sub, items, KeyOf(op)) && Request(d, op).Some?
    requires Answers(items, Request(d, op).value, reply, items')
    ensures OpVouched(d, sub, Resume(d, op, reply)) && KeyVouched(d, sub, items', KeyOf(op))
  {
    match op
    case Load(key, st) => LoadVouchedStep(d, sub, items, key, st, reply);
    case Save(job, st) =>
      SaveLearnsVouched(d, sub, items, job, st, reply, items');
      SaveWritesVouched(d, sub, items, job, st, reply, items');
    case Remove(key, st) => DeleteVouchedStep(d, sub, items, key, st, reply, items');
  }

  ghost predicate SystemVouched(d: Digest, sub: Submitted, s: System) {
    && (forall k :: KeyOk(k) ==> KeyVouched(d, sub, s.items, k))
    && (forall p :: p in s.threads ==> OpVouched(d, sub, s.threads[p].op))
  }

  lemma KeysVouchedStep(d: Digest, sub: Submitted, s: System, e: Event, s': System, k: string)
    requires SystemVouched(d, sub, s) && Happens(d, s, e, s') && KeyOk(k)
    ensures KeyVouched(d, sub, s'.items, k)
  {
    assert KeyVouched(d, sub, s.items, k);
    if e.Call? {
      var op := s.threads[e.pid].op;
      VouchedStep(d, sub, s.items, op, e.reply, s'.items);
      CallsStayHome(d, op);
      CallChangesOnly(s.items, Request(d, op).value, e.reply, s'.items);
      ItemsOwned(k, Legacy(1), 0);
    }
  }

  lemma VouchedGrows(d: Digest, sub: Submitted, sub': Submitted, items: Items, op: Op, k: string)
    requires sub <= sub'
    ensures OpVouched(d, sub, op) ==> OpVouched(d, sub', op)
    ensures KeyVouched(d, sub, items, k) ==> KeyVouched(d, sub', items, k)
  {
  }

  lemma SystemVouchedStep(d: Digest, sub: Submitted, s: System, e: Event, s': System)
    requires SystemVouched(d, sub, s) && Happens(d, s, e, s')
    ensures SystemVouched(d, sub + SubmittedBy([e]), s')
  {
    var sub' := sub + SubmittedBy([e]);
    forall k | KeyOk(k) ensures KeyVouched(d, sub', s'.items, k) {
      KeysVouchedStep(d, sub, s, e, s', k);
      VouchedGrows(d, sub, sub', s'.items, Load("", LookCurrent), k);
    }
    forall p | p in s'.threads ensures OpVouched(d, sub', s'.threads[p].op) {
      var op := s'.threads[p].op;
      if e.Begin? && e.pid == p {
        assert op.Save? ==> (op.job.key, op.job.blob) in SubmittedBy([e]);
      } else {
        if e.Call? && e.pid == p {
          VouchedStep(d, sub, s.items, s.threads[p].op, e.reply, s'.items);
        }
        assert OpVouched(d, sub, op);
        VouchedGrows(d, sub, sub', s'.items, op, "");
      }
    }
  }

  lemma NothingToVouchFor(d: Digest, s: System)
    requires Idle(s) && forall k :: KeyOk(k) ==> k !in s.items && PreviousName(k) !in s.items
    ensures SystemVouched(d, {}, s)
  {
  }

  lemma {:induction false} SystemVouchedRun(d: Digest, states: seq<System>, events: seq<Event>, i: nat)
    requires IsRun(d, states, events) && Idle(states[0]) && i < |states|
    requires forall k :: KeyOk(k) ==> k !in states[0].items && PreviousName(k) !in states[0].items
    ensures SystemVouched(d, SubmittedBy(events[..i]), states[i])
  {
    hide SystemVouched, Happens, Idle, KeyOk;
    if i > 0 {
      SystemVouchedRun(d, states, events, i - 1);
      SystemVouchedStep(d, SubmittedBy(events[..i - 1]), states[i - 1], events[i - 1], states[i]);
      assert events[..i][..i - 1] == events[..i - 1];
      assert SubmittedBy([events[i - 1]]) == {} + SubmittedBy([events[i - 1]]);
      assert [events[i - 1]][..0] == [];
    } else {
      NothingToVouchFor(d, states[0]);
    }
  }

  /**
  From a keyring without markers, over any run with damage to chunk items, failed calls and
  deaths, a Load returns the empty blob, an error, or a text with the digest of a blob some
  earlier Save was given for that key. So unless the text clashes with such a blob it is one of
  them, passed whole, and never a mixture of two generations.
  */
  lemma NoTornReads(d: Digest, states: seq<System>, events: seq<Event>, i: nat, p: Pid, key: string, blob: string)
    requires IsRun(d, states, events) && Idle(states[0]) && i < |states|
    requires forall k :: KeyOk(k) ==> k !in states[0].items && PreviousName(k) !in states[0].items
    requires p in states[i].threads && states[i].threads[p].op == Load(key, LoadDone(Loaded(blob)))
    ensures blob == "" || exists b :: (key, b) in SubmittedBy(events[..i]) && d(b) == d(blob)
    ensures (forall b :: (key, b) in SubmittedBy(events[..i]) ==> !Clashes(d, b, blob)) ==>
              blob == "" || (key, blob) in SubmittedBy(events[..i])
  {
    SystemVouchedRun(d, states, events, i);
  }
}
