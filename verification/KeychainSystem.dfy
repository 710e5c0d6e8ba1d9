/**
Any number of processes running Load, Save and Delete on any keys of one keyring, one
keyring call at a time, each key's operations under that key's lock, and any process dying
at any step.
*/
module KeychainSystem {
  import opened Markers
  import opened KeychainOps
  import opened KeychainStep

  type Pid = nat

  datatype Thread = Waiting(op: Op) | Running(op: Op)

  /** held maps each locked key to the thread that holds its lock. */
  datatype System = System(items: Items, threads: map<Pid, Thread>, held: map<string, Pid>)

  /** Damage stands for anything else that rewrites the keyring; a run without it is called clean. */
  datatype Event =
    | Begin(pid: Pid, op: Op)
    | Acquire(pid: Pid)
    | Call(pid: Pid, reply: Reply)
    | Return(pid: Pid)
    | Die(pid: Pid)
    | Damage

  predicate Initial(op: Op) {
    && KeyOk(KeyOf(op))
    && match op
       case Load(_, st) => st == LookCurrent
       case Save(job, st) => st == LookMarker && JobOk(job)
       case Remove(_, st) => st == LookAt(0, [])
  }

  predicate Runs(s: System, pid: Pid) { pid in s.threads && s.threads[pid].Running? }

  function Released(held: map<string, Pid>, pid: Pid): map<string, Pid> {
    map k | k in held && held[k] != pid :: held[k]
  }

  /** Damage reaches chunk items only: the marker items of every key keep their text. */
  ghost predicate ChunksDamaged(items: Items, items': Items) {
    forall k :: KeyOk(k) ==> Same(items, items', k) && Same(items, items', PreviousName(k))
  }

  /**
  One event. A Save starts under the lock with a generation that the key's markers do not
  name; a dying thread releases its lock, as does one that never got it.
  */
  ghost predicate Happens(d: Digest, s: System, e: Event, s': System) {
    match e
    case Begin(p, op) =>
      p !in s.threads && Initial(op) && s' == s.(threads := s.threads[p := Waiting(op)])
    case Acquire(p) =>
      && p in s.threads && s.threads[p].Waiting?
      && var op := s.threads[p].op;
      && KeyOf(op) !in s.held
      && (op.Save? ==> Unnamed(s.items, op.job.key, op.job.generation))
      && s' == s.(threads := s.threads[p := Running(op)], held := s.held[KeyOf(op) := p])
    case Call(p, reply) =>
      && Runs(s, p)
      && var op := s.threads[p].op;
      && Request(d, op).Some?
      && Answers(s.items, Request(d, op).value, reply, s'.items)
      && s' == s.(items := s'.items, threads := s.threads[p := Running(Resume(d, op, reply))])
    case Return(p) =>
      && Runs(s, p) && Request(d, s.threads[p].op).None?
      && s' == s.(threads := s.threads - {p}, held := Released(s.held, p))
    case Die(p) =>
      p in s.threads && s' == s.(threads := s.threads - {p}, held := Released(s.held, p))
    case Damage => ChunksDamaged(s.items, s'.items) && s' == s.(items := s'.items)
  }

  ghost predicate IsRun(d: Digest, states: seq<System>, events: seq<Event>) {
    && |states| == |events| + 1
    && forall i :: 0 <= i < |events| ==> Happens(d, states[i], events[i], states[i + 1])
  }

  predicate Idle(s: System) { s.threads == map[] && s.held == map[] }

  predicate Clean(events: seq<Event>) { forall i :: 0 <= i < |events| ==> !events[i].Damage? }

  // The lock keeps one program per key, and every program's facts hold

  ghost predicate LocksMatch(s: System) {
    && (forall p :: p in s.threads && s.threads[p].Running? ==>
          KeyOf(s.threads[p].op) in s.held && s.held[KeyOf(s.threads[p].op)] == p)
    && (forall k :: k in s.held ==> Runs(s, s.held[k]) && KeyOf(s.threads[s.held[k]].op) == k)
  }

  ghost predicate Inv(d: Digest, s: System) {
    && LocksMatch(s)
    && (forall p :: p in s.threads ==>
          if s.threads[p].Running? then Facts(d, s.items, s.threads[p].op) else Initial(s.threads[p].op))
  }

  /** What a program knows and what Load sees depend on the items of its key alone. */
  lemma KeyFrame(d: Digest, items: Items, items': Items, key: string)
    requires KeyOk(key) && forall n :: Owner(n) == key ==> Same(items, items', n)
    ensures Same(items, items', key) && Same(items, items', PreviousName(key))
    ensures Same(items, items', LegacyCountName(key))
    ensures forall m, i :: Same(items, items', ChunkName(key, m, i))
    ensures forall m, buf, i :: ReadFrom(d, items', key, m, buf, i) == ReadFrom(d, items, key, m, buf, i)
    ensures View(d, items', key) == View(d, items, key) && Sound(d, items, key) == Sound(d, items', key)
  {
    ItemsOwned(key, Legacy(1), 0);
    forall m, i ensures Same(items, items', ChunkName(key, m, i)) {
      ItemsOwned(key, m, i);
    }
    forall m, buf, i: nat ensures ReadFrom(d, items', key, m, buf, i) == ReadFrom(d, items, key, m, buf, i) {
      ReadFrame(d, items, items', key, m, buf, i);
    }
    SlotsStay(d, items, items', key);
  }

  lemma FactsFrame(d: Digest, items: Items, items': Items, op: Op)
    requires Facts(d, items, op) && forall n :: Owner(n) == KeyOf(op) ==> Same(items, items', n)
    ensures Facts(d, items', op)
  {
    KeyFrame(d, items, items', KeyOf(op));
    match op
    case Load(_, _) =>
    case Save(job, st) => SaveFactsFrame(d, items, items', job, st);
    case Remove(_, _) =>
  }

  lemma SaveFactsFrame(d: Digest, items: Items, items': Items, job: Job, st: SaveState)
    requires SaveFacts(d, items, job, st)
    requires Same(items, items', job.key) && Same(items, items', PreviousName(job.key))
    requires forall i {:trigger ChunkName(job.key, Next(d, job), i)} ::
               Same(items, items', ChunkName(job.key, Next(d, job), i))
    requires forall m, buf, i :: ReadFrom(d, items', job.key, m, buf, i) == ReadFrom(d, items, job.key, m, buf, i)
    ensures SaveFacts(d, items', job, st)
  {
    assert MarkerAt(items', job.key) == MarkerAt(items, job.key);
    assert MarkerAt(items', PreviousName(job.key)) == MarkerAt(items, PreviousName(job.key));
    match st
    case Store(_, i) => assert Written(d, items', job, i);
    case _ => assert AllWritten(d, items, job) ==> AllWritten(d, items', job);
  }

  lemma CallKeepsInv(d: Digest, s: System, p: Pid, reply: Reply, s': System)
    requires Inv(d, s) && Happens(d, s, Call(p, reply), s')
    ensures Inv(d, s')
  {
    var op := s.threads[p].op;
    OpStep(d, s.items, op, reply, s'.items);
    forall q | q in s.threads && q != p && s.threads[q].Running? ensures Facts(d, s'.items, s.threads[q].op) {
      assert KeyOf(s.threads[q].op) != KeyOf(op);
      FactsFrame(d, s.items, s'.items, s.threads[q].op);
    }
  }

  /** The invariant survives every event but damage, including every failed call and every death. */
  lemma InvStep(d: Digest, s: System, e: Event, s': System)
    requires Inv(d, s) && Happens(d, s, e, s') && !e.Damage?
    ensures Inv(d, s')
  {
    hide Answers, Request, Resume, Facts, Initial, Unnamed, ChunksDamaged;
    match e
    case Call(p, reply) => CallKeepsInv(d, s, p, reply, s');
    case Acquire(p) => FactsAtStart(d, s.items, s.threads[p].op);
    case _ =>
  }

  lemma FactsAtStart(d: Digest, items: Items, op: Op)
    requires Initial(op) && (op.Save? ==> Unnamed(items, op.job.key, op.job.generation))
    ensures Facts(d, items, op)
  {
  }

  lemma {:induction false} InvRun(d: Digest, states: seq<System>, events: seq<Event>, i: nat)
    requires IsRun(d, states, events) && Idle(states[0]) && Clean(events) && i < |states|
    ensures Inv(d, states[i])
  {
    if i > 0 {
      InvRun(d, states, events, i - 1);
      InvStep(d, states[i - 1], events[i - 1], states[i]);
    }
  }

  // Every key is an atomic register

  function EffectOn(s: System, e: Event, key: string): Effect {
    if e.Call? && e.pid in s.threads && KeyOf(s.threads[e.pid].op) == key
    then EffectOf(s.threads[e.pid].op, e.reply) else NoEffect
  }

  lemma RegisterStep(d: Digest, s: System, e: Event, s': System, key: string)
    requires Inv(d, s) && Happens(d, s, e, s') && !e.Damage? && KeyOk(key)
    ensures View(d, s'.items, key) == Register(View(d, s.items, key), EffectOn(s, e, key))
    ensures Sound(d, s.items, key) ==> Sound(d, s'.items, key)
  {
    if e.Call? {
      var op := s.threads[e.pid].op;
      OpStep(d, s.items, op, e.reply, s'.items);
      if KeyOf(op) != key {
        KeyFrame(d, s.items, s'.items, key);
      }
    }
  }

  /**
  The keychain store refines an atomic register per key: over every interleaving, with failed
  calls and deaths anywhere, the value Load would yield changes only when a Save publishes
  (to its blob) and when a Delete's first marker is gone (to empty); and once both markers of
  a key are absent or name complete generations, that is so in every later state.
  */
  lemma AtomicRegister(d: Digest, states: seq<System>, events: seq<Event>, key: string, i: nat)
    requires IsRun(d, states, events) && Idle(states[0]) && Clean(events) && KeyOk(key) && i < |events|
    ensures View(d, states[i + 1].items, key) ==
              Register(View(d, states[i].items, key), EffectOn(states[i], events[i], key))
    ensures Sound(d, states[i].items, key) ==> Sound(d, states[i + 1].items, key)
  {
    InvRun(d, states, events, i);
    RegisterStep(d, states[i], events[i], states[i + 1], key);
  }

  /** At every crash point of every run from complete markers, each existing marker names a complete generation. */
  lemma {:induction false} MarkersStayComplete(d: Digest, states: seq<System>, events: seq<Event>, key: string, i: nat)
    requires IsRun(d, states, events) && Idle(states[0]) && Clean(events) && KeyOk(key) && i < |states|
    requires Sound(d, states[0].items, key)
    ensures Sound(d, states[i].items, key)
    ensures View(d, states[i].items, key).Loaded?
  {
    hide Happens, Idle;
    if i > 0 {
      MarkersStayComplete(d, states, events, key, i - 1);
      AtomicRegister(d, states, events, key, i - 1);
    }
  }

  // Load returns the register's value

  /** If p runs a Load, its remaining Gets lead it to the register's value. */
  ghost predicate Truthful(d: Digest, s: System, p: Pid) {
    Runs(s, p) && s.threads[p].op.Load? ==>
      LoadPending(d, s.items, s.threads[p].op.key, s.threads[p].op.load) == View(d, s.items, s.threads[p].op.key)
  }

  lemma PendingFrame(d: Digest, items: Items, items': Items, key: string, st: LoadState)
    requires KeyOk(key) && forall n :: Owner(n) == key ==> Same(items, items', n)
    ensures LoadPending(d, items', key, st) == LoadPending(d, items, key, st)
    ensures View(d, items', key) == View(d, items, key)
  {
    KeyFrame(d, items, items', key);
    assert MarkerAt(items', PreviousName(key)) == MarkerAt(items, PreviousName(key));
  }

  lemma TruthfulCall(d: Digest, s: System, q: Pid, reply: Reply, s': System, p: Pid)
    requires Inv(d, s) && Truthful(d, s, p) && Happens(d, s, Call(q, reply), s') && (q == p ==> !reply.Failed?)
    ensures Truthful(d, s', p)
  {
    var op := s.threads[q].op;
    OpStep(d, s.items, op, reply, s'.items);
    if q == p {
      if op.Load? {
        LoadStep(d, s.items, op.key, op.load, reply);
      }
    } else if Runs(s, p) && s.threads[p].op.Load? {
      PendingFrame(d, s.items, s'.items, s.threads[p].op.key, s.threads[p].op.load);
    }
  }

  lemma TruthfulStep(d: Digest, s: System, e: Event, s': System, p: Pid)
    requires Inv(d, s) && Truthful(d, s, p) && Happens(d, s, e, s') && !e.Damage? && e != Call(p, Failed)
    ensures Truthful(d, s', p)
  {
    hide Answers, Request, Resume;
    if e.Call? {
      TruthfulCall(d, s, e.pid, e.reply, s', p);
    }
  }

  /** No call of process p between events j and i failed. */
  predicate ServedSince(events: seq<Event>, p: Pid, j: nat, i: nat) {
    i <= |events| && forall k :: j < k < i ==> events[k] != Call(p, Failed)
  }

  lemma {:induction false} TruthfulRun(d: Digest, states: seq<System>, events: seq<Event>, j: nat, i: nat, p: Pid)
    requires IsRun(d, states, events) && Idle(states[0]) && Clean(events) && j < i < |states|
    requires events[j].Begin? && events[j].pid == p && ServedSince(events, p, j, i)
    ensures Truthful(d, states[i], p)
  {
    hide Happens, Inv, Truthful;
    if i == j + 1 {
      TruthfulStart(d, states[j], events[j], states[i]);
    } else {
      TruthfulRun(d, states, events, j, i - 1, p);
      InvRun(d, states, events, i - 1);
      TruthfulStep(d, states[i - 1], events[i - 1], states[i], p);
    }
  }

  lemma TruthfulStart(d: Digest, s: System, e: Event, s': System)
    requires Happens(d, s, e, s') && e.Begin?
    ensures Truthful(d, s', e.pid)
  {
  }

  /** A Load none of whose own calls failed returns the value of the register at the moment it returns. */
  lemma LoadReturnsTheValue(d: Digest, states: seq<System>, events: seq<Event>, j: nat, i: nat, p: Pid, key: string,
          outcome: Outcome)
    requires IsRun(d, states, events) && Idle(states[0]) && Clean(events) && j < i < |states|
    requires events[j].Begin? && events[j].pid == p && ServedSince(events, p, j, i)
    requires p in states[i].threads && states[i].threads[p] == Running(Load(key, LoadDone(outcome)))
    ensures outcome == View(d, states[i].items, key)
  {
    TruthfulRun(d, states, events, j, i, p);
    assert Runs(states[i], p);
  }
}
