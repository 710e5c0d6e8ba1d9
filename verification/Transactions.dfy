/**
Transactions on one store (cache/transaction.go): each thread passes its process's gate, takes
the lock file, runs its callback on a view of the store, closes the view and releases both, in
any interleaving of threads and processes, with cancellation, failing checks and process death.
*/
module Transactions {
  import opened Wrappers
  import Gates
  import BlobLocks

  type Tid = BlobLocks.Tid

  type Process = BlobLocks.Process

  type Home = BlobLocks.Home

  /** A gate table of one process; gates are numbered. */
  type Table = Gates.Table<nat>

  /**
  A callback: what it knows at the start, when it returns, and how one store operation changes
  the store and what it knows. The third argument is whatever the environment decides about
  that operation, such as a failed keyring call, a cancelled context or a death inside it.
  */
  datatype Body<!S, !C, !R> = Body(start: C, done: C -> bool, step: (S, C, R) -> (S, C))

  datatype End = Running | Returned | Killed

  /** One transaction in the journal: its callback, the operations it has made and how it ended. */
  datatype Entry<!S, !C, !R> = Entry(t: Tid, body: Body<S, C, R>, outcomes: seq<R>, end: End)

  /** Where a thread that holds its gate's token is. Active means that its view is open. */
  datatype Phase<C> = Polling | Checking | Active(c: C) | Closing | Returning

  datatype System<!S, !C, !R> = System(
    tables: map<Process, Table>,
    phases: map<Tid, Phase<C>>,
    locked: Option<Tid>,
    store: S,
    journal: seq<Entry<S, C, R>>)

  datatype Event<!S, !C, !R> =
    | Gate(e: Gates.Event<nat>)
    | GiveUp(t: Tid)
    | Lock(t: Tid)
    | Reject(t: Tid)
    | Open(t: Tid, body: Body<S, C, R>)
    | Operate(t: Tid, r: R)
    | Finish(t: Tid)
    | Unlock(t: Tid)
    | Kill(p: Process)

  function TableOf<S, C, R>(s: System<S, C, R>, p: Process): Table {
    if p in s.tables then s.tables[p] else Gates.Table(map[], map[], map[])
  }

  predicate InPhase<S, C, R>(s: System<S, C, R>, t: Tid, guarded: bool) {
    t in s.phases && Guarded(s.phases[t]) == guarded
  }

  /** The phases between taking and releasing the lock file. */
  predicate Guarded<C>(p: Phase<C>) { p.Checking? || p.Active? || p.Closing? }

  /** The token is put back only in the last phase; the other gate steps are always the thread's own business. */
  predicate GateAllowed<S, C, R>(path: string, s: System<S, C, R>, e: Gates.Event<nat>) {
    && (e.Enter? ==> e.path == path)
    && (e.Put? ==> e.t in s.phases && s.phases[e.t].Returning?)
  }

  function AfterGate<S, C, R>(s: System<S, C, R>, e: Gates.Event<nat>): map<Tid, Phase<C>> {
    if e.Take? then s.phases[e.t := Polling] else if e.Put? then s.phases - {e.t} else s.phases
  }

  function Last<S, C, R>(journal: seq<Entry<S, C, R>>): Entry<S, C, R>
    requires journal != []
  {
    journal[|journal| - 1]
  }

  function WithLast<S, C, R>(journal: seq<Entry<S, C, R>>, e: Entry<S, C, R>): seq<Entry<S, C, R>>
    requires journal != []
  {
    journal[..|journal| - 1] + [e]
  }

  /** A death inside a callback ends its transaction there. */
  function Cut<S, C, R>(home: Home, journal: seq<Entry<S, C, R>>, p: Process): seq<Entry<S, C, R>> {
    if journal != [] && Last(journal).end.Running? && home(Last(journal).t) == p
    then WithLast(journal, Last(journal).(end := Killed)) else journal
  }

  predicate Enabled<S, C, R>(home: Home, path: string, s: System<S, C, R>, e: Event<S, C, R>) {
    match e
    case Gate(g) => Gates.Enabled(TableOf(s, home(g.t)), g) && GateAllowed(path, s, g)
    case GiveUp(t) => t in s.phases && s.phases[t].Polling?
    case Lock(t) => t in s.phases && s.phases[t].Polling? && s.locked.None?
    case Reject(t) => t in s.phases && s.phases[t].Checking?
    case Open(t, _) => t in s.phases && s.phases[t].Checking?
    case Operate(t, _) => t in s.phases && s.phases[t].Active? && s.journal != [] &&
        !Last(s.journal).body.done(s.phases[t].c)
    case Finish(t) => t in s.phases && s.phases[t].Active? && s.journal != [] &&
        Last(s.journal).body.done(s.phases[t].c)
    case Unlock(t) => t in s.phases && s.phases[t].Closing?
    case Kill(_) => true
  }

  function Apply<S, C, R>(home: Home, path: string, s: System<S, C, R>, e: Event<S, C, R>): System<S, C, R>
    requires Enabled(home, path, s, e)
  {
    match e
    case Gate(g) =>
      var p := home(g.t);
      s.(tables := s.tables[p := Gates.Apply(TableOf(s, p), g)], phases := AfterGate(s, g))
    case GiveUp(t) => s.(phases := s.phases[t := Returning])
    case Lock(t) => s.(phases := s.phases[t := Checking], locked := Some(t))
    case Reject(t) => s.(phases := s.phases[t := Closing])
    case Open(t, body) =>
      s.(phases := s.phases[t := Active(body.start)], journal := s.journal + [Entry(t, body, [], Running)])
    case Operate(t, r) =>
      var last := Last(s.journal);
      var next := last.body.step(s.store, s.phases[t].c, r);
      s.(store := next.0, phases := s.phases[t := Active(next.1)],
         journal := WithLast(s.journal, last.(outcomes := last.outcomes + [r])))
    case Finish(t) =>
      s.(phases := s.phases[t := Closing], journal := WithLast(s.journal, Last(s.journal).(end := Returned)))
    case Unlock(t) => s.(phases := s.phases[t := Returning], locked := None)
    case Kill(p) =>
      s.(tables := s.tables - {p},
         phases := map t | t in s.phases && home(t) != p :: s.phases[t],
         locked := if s.locked.Some? && home(s.locked.value) == p then None else s.locked,
         journal := Cut(home, s.journal, p))
  }

  // Running the journal one transaction after the other

  /** The store and the callback's knowledge after the operations of one entry. */
  function Exec<S, C, R>(store: S, body: Body<S, C, R>, outcomes: seq<R>): (S, C) {
    if outcomes == [] then (store, body.start)
    else
      var before := Exec(store, body, outcomes[..|outcomes| - 1]);
      body.step(before.0, before.1, outcomes[|outcomes| - 1])
  }

  /** The store after all transactions of the journal, one after the other. */
  function Replay<S, C, R>(store: S, journal: seq<Entry<S, C, R>>): S {
    if journal == [] then store
    else Exec(Replay(store, journal[..|journal| - 1]), Last(journal).body, Last(journal).outcomes).0
  }

  /** Where the operations of entry i lead when they start from the store that the earlier entries leave. */
  function Reached<S, C, R>(initial: S, journal: seq<Entry<S, C, R>>, i: nat): (S, C)
    requires i < |journal|
  {
    Exec(Replay(initial, journal[..i]), journal[i].body, journal[i].outcomes)
  }

  // The invariant

  predicate Holds<S, C, R>(home: Home, s: System<S, C, R>, t: Tid) {
    t in TableOf(s, home(t)).threads && TableOf(s, home(t)).threads[t].Holding?
  }

  /** A process's table is sound and serves its own threads, all on the one path. */
  ghost predicate TableFits(home: Home, path: string, p: Process, table: Table) {
    Gates.Inv(table) && forall t: Tid :: t in table.threads ==> home(t) == p && table.threads[t].path == path
  }

  /** Who holds a token has a phase. */
  ghost predicate GatesMatch<S, C, R>(home: Home, path: string, s: System<S, C, R>) {
    && (forall p: Process :: p in s.tables ==> TableFits(home, path, p, s.tables[p]))
    && (forall t: Tid :: t in s.phases <==> Holds(home, s, t))
  }

  /** The lock file's holder is the one thread in a guarded phase. */
  ghost predicate LockMatches<S, C, R>(s: System<S, C, R>) {
    && (forall t: Tid :: InPhase(s, t, true) ==> s.locked == Some(t))
    && (s.locked.Some? ==> InPhase(s, s.locked.value, true))
  }

  predicate IsActive<S, C, R>(s: System<S, C, R>, t: Tid) { t in s.phases && s.phases[t].Active? }

  /** The store is what the journal says, and an open view continues the journal's last entry. */
  ghost predicate JournalMatches<S, C, R>(initial: S, s: System<S, C, R>) {
    && s.store == Replay(initial, s.journal)
    && (forall i :: 0 <= i < |s.journal| ==> Settled(initial, s, i))
    && (forall t: Tid :: IsActive(s, t) ==>
          && s.journal != [] && Last(s.journal).t == t && Last(s.journal).end.Running?
          && (s.store, s.phases[t].c) == Reached(initial, s.journal, |s.journal| - 1))
  }

  /** A returned callback made all its operations; a running one is the last and its view is open. */
  ghost predicate Settled<S, C, R>(initial: S, s: System<S, C, R>, i: nat)
    requires i < |s.journal|
  {
    match s.journal[i].end
    case Returned => s.journal[i].body.done(Reached(initial, s.journal, i).1)
    case Running => i == |s.journal| - 1 && IsActive(s, s.journal[i].t)
    case Killed => true
  }

  ghost predicate Inv<S, C, R>(home: Home, path: string, initial: S, s: System<S, C, R>) {
    GatesMatch(home, path, s) && LockMatches(s) && JournalMatches(initial, s)
  }

  lemma TableStep<S, C, R>(home: Home, path: string, s: System<S, C, R>, g: Gates.Event<nat>)
    requires GatesMatch(home, path, s) && Enabled(home, path, s, Gate(g))
    ensures TableFits(home, path, home(g.t), Gates.Apply(TableOf(s, home(g.t)), g))
    ensures forall t: Tid :: home(t) == home(g.t) ==>
              (t in AfterGate(s, g) <==>
               t in Gates.Apply(TableOf(s, home(g.t)), g).threads &&
                   Gates.Apply(TableOf(s, home(g.t)), g).threads[t].Holding?)
  {
    hide Gates.Inv, Gates.Apply, Gates.Enabled;
    var table := TableOf(s, home(g.t));
    EmptyTable();
    assert TableFits(home, path, home(g.t), table);
    Gates.StepKeeps(table, g);
    StagesAfter(table, g);
    assert Holds(home, s, g.t) <==> g.t in s.phases;
    forall t: Tid | home(t) == home(g.t) && t != g.t
      ensures t in AfterGate(s, g) <==> t in Gates.Apply(table, g).threads && Gates.Apply(table, g).threads[t].Holding?
    {
      assert Holds(home, s, t) <==> t in s.phases;
    }
  }

  lemma EmptyTable()
    ensures Gates.Inv(Gates.Table<nat>.Table(map[], map[], map[]))
  {
  }

  lemma StagesAfter(table: Table, g: Gates.Event<nat>)
    requires Gates.Enabled(table, g)
    ensures var after := Gates.Apply(table, g).threads;
            && (forall u: Tid :: u != g.t ==>
                 (u in after <==> u in table.threads) && (u in after ==> after[u] == table.threads[u]))
            && (g.Drop? ==> g.t !in after && table.threads[g.t].Leaving?)
            && (!g.Drop? ==> g.t in after && after[g.t].Holding? == g.Take?)
            && (g.t !in table.threads <==> g.Enter?) && (g.Enter? ==> after[g.t].path == g.path)
            && (g.t in table.threads && g.t in after ==> after[g.t].path == table.threads[g.t].path)
            && (g.Put? <==> g.t in table.threads && table.threads[g.t].Holding?)
            && (g.Put? ==> after[g.t].Leaving?) && (g.Take? ==> table.threads[g.t].Waiting?)
  {
  }

  lemma GateStep<S, C, R>(home: Home, path: string, s: System<S, C, R>, g: Gates.Event<nat>)
    requires GatesMatch(home, path, s) && Enabled(home, path, s, Gate(g))
    ensures GatesMatch(home, path, Apply(home, path, s, Gate(g)))
  {
    hide Gates.Inv, Gates.Apply, Gates.Enabled, TableFits;
    TableStep(home, path, s, g);
    var s' := Apply(home, path, s, Gate(g));
    forall t: Tid ensures t in s'.phases <==> Holds(home, s', t) {
      assert Holds(home, s, t) <==> t in s.phases;
    }
  }

  lemma KillGates<S, C, R>(home: Home, path: string, s: System<S, C, R>, p: Process)
    requires GatesMatch(home, path, s)
    ensures GatesMatch(home, path, Apply(home, path, s, Kill(p)))
  {
    hide TableFits;
    var s' := Apply(home, path, s, Kill(p));
    forall t: Tid ensures t in s'.phases <==> Holds(home, s', t) {
      assert Holds(home, s, t) <==> t in s.phases;
    }
  }

  /** The other steps move no thread into or out of its gate. */
  lemma OtherGates<S, C, R>(home: Home, path: string, s: System<S, C, R>, e: Event<S, C, R>)
    requires GatesMatch(home, path, s) && Enabled(home, path, s, e) && !e.Gate? && !e.Kill?
    ensures GatesMatch(home, path, Apply(home, path, s, e))
  {
    hide Gates.Apply, Gates.Enabled, TableFits;
    var s' := Apply(home, path, s, e);
    assert s'.phases.Keys == s.phases.Keys && s'.tables == s.tables;
    forall t: Tid ensures t in s'.phases <==> Holds(home, s', t) {
      assert Holds(home, s, t) <==> t in s.phases;
    }
  }

  lemma GatesStep<S, C, R>(home: Home, path: string, s: System<S, C, R>, e: Event<S, C, R>)
    requires GatesMatch(home, path, s) && Enabled(home, path, s, e)
    ensures GatesMatch(home, path, Apply(home, path, s, e))
  {
    hide GatesMatch, Enabled, Apply;
    match e
    case Gate(g) => GateStep(home, path, s, g);
    case Kill(p) => KillGates(home, path, s, p);
    case _ => OtherGates(home, path, s, e);
  }

  /** Nobody but the thread that takes the lock file enters the guarded phases. */
  lemma GuardedAfter<S, C, R>(home: Home, path: string, s: System<S, C, R>, e: Event<S, C, R>, u: Tid)
    requires GatesMatch(home, path, s) && Enabled(home, path, s, e) && InPhase(Apply(home, path, s, e), u, true)
    ensures InPhase(s, u, true) || e == Lock(u)
    ensures e != Unlock(u) && (e.Kill? ==> home(u) != e.p)
  {
    hide Gates.Apply, Gates.Enabled, TableFits;
  }

  lemma LockStep<S, C, R>(home: Home, path: string, s: System<S, C, R>, e: Event<S, C, R>)
    requires GatesMatch(home, path, s) && LockMatches(s) && Enabled(home, path, s, e)
    ensures LockMatches(Apply(home, path, s, e))
  {
    hide Gates.Apply, TableFits;
    var s' := Apply(home, path, s, e);
    forall u: Tid | InPhase(s', u, true) ensures s'.locked == Some(u) {
      GuardedAfter(home, path, s, e, u);
      assert e.Unlock? ==> InPhase(s, e.t, true);
    }
    if s'.locked.Some? && !e.Lock? {
      var u := s'.locked.value;
      assert InPhase(s, u, true);
      assert e.Gate? && e.e.t == u ==> Holds(home, s, u);
    }
  }

  // The journal

  /** Replacing the last entry leaves what the earlier ones reach. */
  lemma ReachedFrame<S, C, R>(initial: S, journal: seq<Entry<S, C, R>>, journal': seq<Entry<S, C, R>>, i: nat)
    requires i < |journal| && i < |journal'| && journal[..i] == journal'[..i]
    requires journal[i].body == journal'[i].body && journal[i].outcomes == journal'[i].outcomes
    ensures Reached(initial, journal', i) == Reached(initial, journal, i)
  {
  }

  lemma ReplayReaches<S, C, R>(initial: S, journal: seq<Entry<S, C, R>>)
    requires journal != []
    ensures Replay(initial, journal) == Reached(initial, journal, |journal| - 1).0
  {
  }

  lemma OpenStep<S, C, R>(home: Home, path: string, initial: S, s: System<S, C, R>, t: Tid, body: Body<S, C, R>)
    requires Inv(home, path, initial, s) && Enabled(home, path, s, Open(t, body))
    ensures JournalMatches(initial, Apply(home, path, s, Open(t, body)))
  {
    hide GatesMatch, Replay;
    var s' := Apply(home, path, s, Open(t, body));
    var n := |s.journal|;
    assert s'.journal[..n] == s.journal;
    ReplayReaches(initial, s'.journal);
    assert InPhase(s, t, true);
    forall u: Tid | IsActive(s', u) ensures u == t {
      assert InPhase(s, u, true);
    }
    forall i | 0 <= i < |s'.journal| ensures Settled(initial, s', i) {
      if i < n {
        assert s'.journal[..i] == s.journal[..i];
        assert Settled(initial, s, i);
        assert s.journal[i].end.Running? ==> InPhase(s, s.journal[i].t, true);
        ReachedFrame(initial, s.journal, s'.journal, i);
      }
    }
  }

  /** One more operation of the last entry takes what it reached one step further. */
  lemma ReachedNext<S, C, R>(initial: S, journal: seq<Entry<S, C, R>>, r: R)
    requires journal != []
    ensures var last, n := Last(journal), |journal| - 1;
            var journal' := WithLast(journal, last.(outcomes := last.outcomes + [r]));
            var before := Reached(initial, journal, n);
            && Reached(initial, journal', n) == last.body.step(before.0, before.1, r)
            && Replay(initial, journal') == Reached(initial, journal', n).0
            && forall i :: 0 <= i < n ==> Reached(initial, journal', i) == Reached(initial, journal, i)
  {
    hide Replay;
    var last, n := Last(journal), |journal| - 1;
    var journal' := WithLast(journal, last.(outcomes := last.outcomes + [r]));
    assert journal'[..n] == journal[..n];
    assert Last(journal').outcomes[..|last.outcomes|] == last.outcomes;
    ReplayReaches(initial, journal');
    forall i | 0 <= i < n ensures Reached(initial, journal', i) == Reached(initial, journal, i) {
      assert journal'[..i] == journal[..i];
      ReachedFrame(initial, journal, journal', i);
    }
  }

  lemma OperateStep<S, C, R>(home: Home, path: string, initial: S, s: System<S, C, R>, t: Tid, r: R)
    requires Inv(home, path, initial, s) && Enabled(home, path, s, Operate(t, r))
    ensures JournalMatches(initial, Apply(home, path, s, Operate(t, r)))
  {
    hide GatesMatch, Replay, Reached, Exec;
    var s' := Apply(home, path, s, Operate(t, r));
    var n := |s.journal| - 1;
    assert InPhase(s, t, true) && IsActive(s, t);
    ReachedNext(initial, s.journal, r);
    forall u: Tid | IsActive(s', u) ensures u == t {
      assert IsActive(s, u) && InPhase(s, u, true);
    }
    forall i | 0 <= i < |s'.journal| ensures Settled(initial, s', i) {
      assert Settled(initial, s, i);
    }
  }

  /** The last entry ends with its thread's callback: no other thread's view is open. */
  lemma EndStep<S, C, R>(initial: S, s: System<S, C, R>, s': System<S, C, R>, t: Tid, end: End)
    requires LockMatches(s) && JournalMatches(initial, s) && IsActive(s, t) && !end.Running?
    requires end.Returned? ==> s.journal != [] && Last(s.journal).body.done(s.phases[t].c)
    requires s'.store == s.store && s.journal != [] && s'.journal == WithLast(s.journal, Last(s.journal).(end := end))
    requires forall u: Tid :: IsActive(s', u) ==> u != t && IsActive(s, u)
    ensures JournalMatches(initial, s')
  {
    hide Replay;
    var n := |s.journal| - 1;
    assert s'.journal[..n] == s.journal[..n];
    ReachedFrame(initial, s.journal, s'.journal, n);
    ReplayReaches(initial, s'.journal);
    assert InPhase(s, t, true);
    forall u: Tid ensures !IsActive(s', u) {
      assert IsActive(s', u) ==> InPhase(s, u, true);
    }
    forall i | 0 <= i < |s'.journal| ensures Settled(initial, s', i) {
      assert Settled(initial, s, i);
      if i < n {
        assert s'.journal[..i] == s.journal[..i];
        ReachedFrame(initial, s.journal, s'.journal, i);
      }
    }
  }

  lemma SameJournal<S, C, R>(initial: S, s: System<S, C, R>, s': System<S, C, R>)
    requires JournalMatches(initial, s)
    requires s'.store == s.store && s'.journal == s.journal
    requires forall u: Tid :: IsActive(s', u) ==>
               IsActive(s, u) && u in s.phases && u in s'.phases && s'.phases[u] == s.phases[u]
    requires s.journal != [] && Last(s.journal).end.Running? ==> IsActive(s', Last(s.journal).t)
    ensures JournalMatches(initial, s')
  {
    hide Replay, Exec;
    forall i | 0 <= i < |s'.journal| ensures Settled(initial, s', i) {
      assert Settled(initial, s, i);
    }
  }

  lemma RunningIsActive<S, C, R>(initial: S, s: System<S, C, R>)
    requires JournalMatches(initial, s) && s.journal != [] && Last(s.journal).end.Running?
    ensures IsActive(s, Last(s.journal).t)
  {
    assert Settled(initial, s, |s.journal| - 1);
  }

  lemma KillStep<S, C, R>(home: Home, path: string, initial: S, s: System<S, C, R>, p: Process)
    requires Inv(home, path, initial, s)
    ensures JournalMatches(initial, Apply(home, path, s, Kill(p)))
  {
    hide GatesMatch, JournalMatches;
    var s' := Apply(home, path, s, Kill(p));
    if s.journal != [] && Last(s.journal).end.Running? {
      RunningIsActive(initial, s);
      if home(Last(s.journal).t) == p {
        EndStep(initial, s, s', Last(s.journal).t, Killed) by {
          assert forall u: Tid :: IsActive(s', u) ==> IsActive(s, u);
        }
      } else {
        SameJournal(initial, s, s');
      }
    } else {
      SameJournal(initial, s, s');
    }
  }

  lemma FinishStep<S, C, R>(home: Home, path: string, initial: S, s: System<S, C, R>, t: Tid)
    requires Inv(home, path, initial, s) && Enabled(home, path, s, Finish(t))
    ensures JournalMatches(initial, Apply(home, path, s, Finish(t)))
  {
    hide GatesMatch, JournalMatches;
    EndStep(initial, s, Apply(home, path, s, Finish(t)), t, Returned);
  }

  predicate IsPlain<S, C, R>(e: Event<S, C, R>) { e.Gate? || e.GiveUp? || e.Lock? || e.Reject? || e.Unlock? }

  /** Plain steps open, move and close no view. */
  lemma PlainKeepsViews<S, C, R>(home: Home, path: string, s: System<S, C, R>, e: Event<S, C, R>, u: Tid)
    requires GatesMatch(home, path, s) && Enabled(home, path, s, e) && IsPlain(e)
    ensures var s' := Apply(home, path, s, e);
            && s'.store == s.store && s'.journal == s.journal
            && (IsActive(s', u) <==> IsActive(s, u)) && (IsActive(s, u) ==> s'.phases[u] == s.phases[u])
  {
    hide TableFits, Gates.Apply;
    if e.Gate? {
      assert Holds(home, s, e.e.t) <==> e.e.t in s.phases;
    }
  }

  lemma PlainStep<S, C, R>(home: Home, path: string, initial: S, s: System<S, C, R>, e: Event<S, C, R>)
    requires Inv(home, path, initial, s) && Enabled(home, path, s, e) && IsPlain(e)
    ensures JournalMatches(initial, Apply(home, path, s, e))
  {
    hide GatesMatch, LockMatches, JournalMatches, Enabled, Apply, IsActive, IsPlain;
    var s' := Apply(home, path, s, e);
    forall u: Tid
      ensures IsActive(s', u) <==> IsActive(s, u)
      ensures IsActive(s, u) ==> u in s'.phases && u in s.phases && s'.phases[u] == s.phases[u]
    {
      PlainKeepsViews(home, path, s, e, u);
      assert IsActive(s, u) ==> u in s'.phases && u in s.phases by { ActiveHasPhase(s, u); ActiveHasPhase(s', u); }
    }
    PlainKeepsViews(home, path, s, e, 0);
    if s.journal != [] && Last(s.journal).end.Running? {
      RunningIsActive(initial, s);
    }
    SameJournal(initial, s, s');
  }

  lemma ActiveHasPhase<S, C, R>(s: System<S, C, R>, u: Tid)
    ensures IsActive(s, u) ==> u in s.phases
  {
  }

  lemma JournalStep<S, C, R>(home: Home, path: string, initial: S, s: System<S, C, R>, e: Event<S, C, R>)
    requires Inv(home, path, initial, s) && Enabled(home, path, s, e)
    ensures JournalMatches(initial, Apply(home, path, s, e))
  {
    hide Inv, JournalMatches, Enabled, Apply;
    match e
    case Open(t, body) => OpenStep(home, path, initial, s, t, body);
    case Operate(t, r) => OperateStep(home, path, initial, s, t, r);
    case Finish(t) => FinishStep(home, path, initial, s, t);
    case Kill(p) => KillStep(home, path, initial, s, p);
    case _ => PlainStep(home, path, initial, s, e);
  }

  /** Every step of every thread, and every death, keeps gates, lock file and journal in step. */
  lemma StepKeeps<S, C, R>(home: Home, path: string, initial: S, s: System<S, C, R>, e: Event<S, C, R>)
    requires Inv(home, path, initial, s) && Enabled(home, path, s, e)
    ensures Inv(home, path, initial, Apply(home, path, s, e))
  {
    hide GatesMatch, LockMatches, JournalMatches, Apply, Enabled;
    GatesStep(home, path, s, e);
    LockStep(home, path, s, e);
    JournalStep(home, path, initial, s, e);
  }

  ghost predicate IsRun<S, C, R>(home: Home, path: string, states: seq<System<S, C, R>>, events: seq<Event<S, C, R>>) {
    && |states| == |events| + 1
    && states[0] == System(map[], map[], None, states[0].store, [])
    && forall i :: 0 <= i < |events| ==>
         Enabled(home, path, states[i], events[i]) && states[i + 1] == Apply(home, path, states[i], events[i])
  }

  lemma {:induction false} RunKeeps<S, C, R>(
    home: Home, path: string, states: seq<System<S, C, R>>, events: seq<Event<S, C, R>>, i: nat)
    requires IsRun(home, path, states, events) && i < |states|
    ensures Inv(home, path, states[0].store, states[i])
  {
    if i > 0 {
      RunKeeps(home, path, states, events, i - 1);
      StepKeeps(home, path, states[0].store, states[i - 1], events[i - 1]);
    }
  }

  // What the invariant is for

  /**
  Transactions are serializable: in every state of every run the store is what the transactions
  of the journal leave when each runs alone after the one before, where a callback that
  returned has made all its operations and only the last one may still be running.
  */
  lemma Serializable<S, C, R>(
    home: Home, path: string, states: seq<System<S, C, R>>, events: seq<Event<S, C, R>>, i: nat)
    requires IsRun(home, path, states, events) && i < |states|
    ensures states[i].store == Replay(states[0].store, states[i].journal)
    ensures var journal := states[i].journal;
            forall k :: 0 <= k < |journal| ==>
              && (journal[k].end.Returned? ==> journal[k].body.done(Reached(states[0].store, journal, k).1))
              && (journal[k].end.Running? ==> k == |journal| - 1)
  {
    RunKeeps(home, path, states, events, i);
    forall k | 0 <= k < |states[i].journal|
      ensures states[i].journal[k].end.Running? ==> k == |states[i].journal| - 1
      ensures states[i].journal[k].end.Returned? ==>
                states[i].journal[k].body.done(Reached(states[0].store, states[i].journal, k).1)
    {
      assert Settled(states[0].store, states[i], k);
    }
  }

  /**
  The journal is in lock order and entries never change place: a step adds an entry only for
  the thread that has the lock file, and operates or returns only on that thread's own last entry.
  */
  lemma JournalGrows<S, C, R>(
    home: Home, path: string, states: seq<System<S, C, R>>, events: seq<Event<S, C, R>>, i: nat)
    requires IsRun(home, path, states, events) && i < |events|
    ensures var before, after := states[i].journal, states[i + 1].journal;
            match events[i]
            case Open(t, body) => states[i].locked == Some(t) && after == before + [Entry(t, body, [], Running)]
            case Operate(t, r) =>
              && states[i].locked == Some(t) && before != [] && Last(before).t == t && Last(before).end.Running?
              && after == WithLast(before, Last(before).(outcomes := Last(before).outcomes + [r]))
            case Finish(t) =>
              && states[i].locked == Some(t) && before != [] && Last(before).t == t && Last(before).end.Running?
              && after == WithLast(before, Last(before).(end := Returned))
            case Kill(p) =>
              after == before || (before != [] && home(Last(before).t) == p &&
                  after == WithLast(before, Last(before).(end := Killed)))
            case _ => after == before
  {
    RunKeeps(home, path, states, events, i);
    var e := events[i];
    assert e.Open? || e.Operate? || e.Finish? ==> InPhase(states[i], e.t, true);
    assert e.Operate? || e.Finish? ==> IsActive(states[i], e.t);
  }

  /**
  Every operation on an open view happens while its own thread holds the gate and the lock
  file, and no other thread of any process has an open view.
  */
  lemma OperationsCovered<S, C, R>(
    home: Home, path: string, states: seq<System<S, C, R>>, events: seq<Event<S, C, R>>, i: nat, t: Tid, u: Tid)
    requires IsRun(home, path, states, events) && i < |states| && IsActive(states[i], t)
    ensures states[i].locked == Some(t) && Holds(home, states[i], t)
    ensures IsActive(states[i], u) ==> u == t
  {
    RunKeeps(home, path, states, events, i);
    assert InPhase(states[i], t, true);
    assert IsActive(states[i], u) ==> InPhase(states[i], u, true);
  }

  /** When every thread has returned or died, no gate and no lock is left. */
  lemma NothingLeftBehind<S, C, R>(
    home: Home, path: string, states: seq<System<S, C, R>>, events: seq<Event<S, C, R>>, i: nat)
    requires IsRun(home, path, states, events) && i < |states|
    requires forall p :: p in states[i].tables ==> states[i].tables[p].threads == map[]
    ensures states[i].locked == None && states[i].phases == map[]
    ensures forall p :: p in states[i].tables ==> states[i].tables[p].values == map[]
  {
    RunKeeps(home, path, states, events, i);
    forall t: Tid ensures t !in states[i].phases {
      assert !Holds(home, states[i], t);
    }
    forall p | p in states[i].tables ensures states[i].tables[p].values == map[] {
      assert TableFits(home, path, p, states[i].tables[p]);
      forall q ensures q !in states[i].tables[p].values {
        Gates.InTableWhileUsed(states[i].tables[p], q);
      }
    }
  }
}
