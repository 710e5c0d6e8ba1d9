/**
Deadlock freedom of the keychain store: direct Load, Save and Delete calls and transactions
whose callbacks use the view, by any number of threads and processes. The locks are taken in
the order gate, transaction file, blob mutex, blob file, and an operation holds one blob lock.
*/
module Progress {
  import opened Wrappers
  import Gates
  import BlobLocks
  import T = Transactions

  type Tid = BlobLocks.Tid

  type Process = BlobLocks.Process

  type Home = BlobLocks.Home

  /** answered holds the threads whose store operation, begun on an open view, has had its effect. */
  datatype World<!S, !C, !R> = World(tx: T.System<S, C, R>, locks: BlobLocks.State, answered: set<Tid>)

  datatype Step<!S, !C, !R> =
    | Transact(tx: T.Event<S, C, R>)
    | Refuse(t: Tid, r: R)
    | Access(blob: BlobLocks.Event)
    | Die(p: Process)

  function Actor<S, C, R>(e: T.Event<S, C, R>): Option<Tid> {
    match e
    case Gate(g) => Some(g.t)
    case Kill(_) => None
    case GiveUp(t) => Some(t)
    case Lock(t) => Some(t)
    case Reject(t) => Some(t)
    case Open(t, _) => Some(t)
    case Operate(t, _) => Some(t)
    case Finish(t) => Some(t)
    case Unlock(t) => Some(t)
  }

  predicate InTransaction<S, C, R>(home: Home, w: World<S, C, R>, t: Tid) {
    t in T.TableOf(w.tx, home(t)).threads
  }

  /** The thread's view is open and its callback wants another operation. */
  predicate Undone<S, C, R>(w: World<S, C, R>, t: Tid) {
    T.IsActive(w.tx, t) && w.tx.journal != [] && !T.Last(w.tx.journal).body.done(w.tx.phases[t].c)
  }

  predicate IsInside<S, C, R>(w: World<S, C, R>, t: Tid) { t in w.locks.stages && w.locks.stages[t].Inside? }

  /** An operation that is refused, or that fails before it holds its lock, leaves the store as it is. */
  ghost predicate Refusable<S, C, R>(home: Home, path: string, w: World<S, C, R>, t: Tid, r: R) {
    && T.Enabled(home, path, w.tx, T.Operate(t, r)) && t !in w.locks.stages
    && T.Apply(home, path, w.tx, T.Operate(t, r)).store == w.tx.store
  }

  /**
  A view operation takes effect once, inside its blob lock, and gives the lock back only then;
  a thread inside a store operation does nothing else. A store operation starts outside
  transactions or on an open view whose callback is not done.
  */
  ghost predicate Enabled<S, C, R>(home: Home, path: string, w: World<S, C, R>, e: Step<S, C, R>) {
    match e
    case Transact(tx) =>
      && T.Enabled(home, path, w.tx, tx) && Actor(tx).Some?
      && var t := Actor(tx).value;
         if tx.Operate? then IsInside(w, t) && t !in w.answered else t !in w.locks.stages
    case Refuse(t, r) => Refusable(home, path, w, t, r)
    case Access(blob) =>
      && BlobLocks.Enabled(home, w.locks, blob) && !blob.Kill?
      && (InTransaction(home, w, blob.t) ==>
            (blob.Want? ==> Undone(w, blob.t)) && (blob.DropFlock? ==> blob.t in w.answered))
    case Die(_) => true
  }

  function Apply<S, C, R>(home: Home, path: string, w: World<S, C, R>, e: Step<S, C, R>): World<S, C, R>
    requires Enabled(home, path, w, e)
  {
    match e
    case Transact(tx) =>
      w.(tx := T.Apply(home, path, w.tx, tx), answered := if tx.Operate? then w.answered + {tx.t} else w.answered)
    case Refuse(t, r) => w.(tx := T.Apply(home, path, w.tx, T.Operate(t, r)))
    case Access(blob) =>
      w.(locks := BlobLocks.Apply(home, w.locks, blob),
         answered := if blob.DropMutex? then w.answered - {blob.t} else w.answered)
    case Die(p) =>
      World(T.Apply(home, path, w.tx, T.Kill(p)), BlobLocks.Apply(home, w.locks, BlobLocks.Kill(p)),
            set t | t in w.answered && home(t) != p)
  }

  /** A store operation of a transaction belongs to its open view, and is unanswered up to its effect. */
  predicate AccessFits<S, C, R>(home: Home, w: World<S, C, R>, t: Tid) {
    && (t in w.answered ==> t in w.locks.stages && (w.locks.stages[t].Inside? || w.locks.stages[t].Unlocking?))
    && (t in w.locks.stages && InTransaction(home, w, t) ==> T.IsActive(w.tx, t))
    && (t in w.locks.stages && InTransaction(home, w, t) && t !in w.answered ==>
          Undone(w, t) && !w.locks.stages[t].Unlocking?)
  }

  ghost predicate Inv<S, C, R>(home: Home, path: string, initial: S, w: World<S, C, R>) {
    && T.Inv(home, path, initial, w.tx) && BlobLocks.Inv(home, w.locks)
    && forall t: Tid :: AccessFits(home, w, t)
  }

  // Every step keeps the invariant

  lemma KillsEnabled<S, C, R>(home: Home, path: string, w: World<S, C, R>, p: Process)
    ensures T.Enabled(home, path, w.tx, T.Kill(p)) && BlobLocks.Enabled(home, w.locks, BlobLocks.Kill(p))
  {
  }

  lemma AccessKeepsFit<S, C, R>(home: Home, path: string, w: World<S, C, R>, e: Step<S, C, R>, t: Tid)
    requires Enabled(home, path, w, e) && e.Access? && AccessFits(home, w, t)
    ensures AccessFits(home, Apply(home, path, w, e), t)
  {
    hide T.Enabled, T.Apply;
  }

  /** What another thread's transaction step leaves of an open view. */
  lemma OthersViews<S, C, R>(home: Home, path: string, initial: S, tx: T.System<S, C, R>, e: T.Event<S, C, R>, t: Tid)
    requires T.Inv(home, path, initial, tx) && T.Enabled(home, path, tx, e) && Actor(e) != Some(t)
    requires e.Kill? ==> home(t) != e.p
    ensures var tx' := T.Apply(home, path, tx, e);
            && (t in T.TableOf(tx', home(t)).threads <==> t in T.TableOf(tx, home(t)).threads)
            && (T.IsActive(tx, t) ==>
                  && T.IsActive(tx', t) && tx'.phases[t] == tx.phases[t] && tx.journal != [] && tx'.journal != []
                  && T.Last(tx'.journal).body == T.Last(tx.journal).body)
  {
    hide T.TableFits, T.Reached, T.Replay, T.Exec, Gates.Apply, Gates.Enabled;
    assert T.IsActive(tx, t) ==> T.InPhase(tx, t, true);
    if e.Gate? {
      T.StagesAfter(T.TableOf(tx, home(e.e.t)), e.e);
    } else if Actor(e).Some? {
      assert e.Open? || e.Operate? || e.Finish? ==> T.InPhase(tx, e.t, true);
    }
  }

  lemma TransactKeepsFit<S, C, R>(home: Home, path: string, initial: S, w: World<S, C, R>, tx: T.Event<S, C, R>, t: Tid)
    requires Inv(home, path, initial, w) && Enabled(home, path, w, Transact(tx))
    ensures AccessFits(home, Apply(home, path, w, Transact(tx)), t)
  {
    hide T.Inv, BlobLocks.Inv, T.Apply, T.Enabled;
    assert AccessFits(home, w, t);
    if Actor(tx) != Some(t) {
      OthersViews(home, path, initial, w.tx, tx, t);
    } else if tx.Operate? {
      OperateStaysActive(home, path, w.tx, tx);
    }
  }

  lemma OperateStaysActive<S, C, R>(home: Home, path: string, tx: T.System<S, C, R>, e: T.Event<S, C, R>)
    requires T.Enabled(home, path, tx, e) && e.Operate?
    ensures T.IsActive(tx, e.t) && T.IsActive(T.Apply(home, path, tx, e), e.t)
    ensures T.Apply(home, path, tx, e).tables == tx.tables
  {
  }

  lemma RefuseKeepsFit<S, C, R>(home: Home, path: string, initial: S, w: World<S, C, R>, t: Tid, r: R, u: Tid)
    requires Inv(home, path, initial, w) && Enabled(home, path, w, Refuse(t, r))
    ensures AccessFits(home, Apply(home, path, w, Refuse(t, r)), u)
  {
    hide T.Inv, BlobLocks.Inv, T.Apply, T.Enabled;
    assert AccessFits(home, w, u);
    if u != t {
      OthersViews(home, path, initial, w.tx, T.Operate(t, r), u);
    }
  }

  lemma DieKeepsFit<S, C, R>(home: Home, path: string, initial: S, w: World<S, C, R>, p: Process, t: Tid)
    requires Inv(home, path, initial, w)
    ensures AccessFits(home, Apply(home, path, w, Die(p)), t)
  {
    hide T.Inv, BlobLocks.Inv;
    assert AccessFits(home, w, t);
    if home(t) != p {
      OthersViews(home, path, initial, w.tx, T.Kill(p), t);
    }
  }

  lemma StepKeeps<S, C, R>(home: Home, path: string, initial: S, w: World<S, C, R>, e: Step<S, C, R>)
    requires Inv(home, path, initial, w) && Enabled(home, path, w, e)
    ensures Inv(home, path, initial, Apply(home, path, w, e))
  {
    hide T.Inv, BlobLocks.Inv, T.Enabled, T.Apply, BlobLocks.Enabled, BlobLocks.Apply, AccessFits;
    forall t: Tid ensures AccessFits(home, Apply(home, path, w, e), t) {
      assert AccessFits(home, w, t);
      match e
      case Transact(tx) => TransactKeepsFit(home, path, initial, w, tx, t);
      case Refuse(u, r) => RefuseKeepsFit(home, path, initial, w, u, r, t);
      case Access(_) => AccessKeepsFit(home, path, w, e, t);
      case Die(p) => DieKeepsFit(home, path, initial, w, p, t);
    }
    match e
    case Transact(tx) => T.StepKeeps(home, path, initial, w.tx, tx);
    case Refuse(t, r) => T.StepKeeps(home, path, initial, w.tx, T.Operate(t, r));
    case Access(blob) => BlobLocks.StepKeeps(home, w.locks, blob);
    case Die(p) =>
      KillsEnabled(home, path, w, p);
      T.StepKeeps(home, path, initial, w.tx, T.Kill(p));
      BlobLocks.StepKeeps(home, w.locks, BlobLocks.Kill(p));
  }

  ghost predicate IsStart<S, C, R>(w: World<S, C, R>) {
    w == World(T.System(map[], map[], None, w.tx.store, []), BlobLocks.State(map[], map[], map[]), {})
  }

  ghost predicate IsRun<S, C, R>(home: Home, path: string, states: seq<World<S, C, R>>, events: seq<Step<S, C, R>>) {
    && |states| == |events| + 1 && IsStart(states[0])
    && forall i :: 0 <= i < |events| ==>
         Enabled(home, path, states[i], events[i]) && states[i + 1] == Apply(home, path, states[i], events[i])
  }

  lemma {:induction false} RunKeeps<S, C, R>(
    home: Home, path: string, states: seq<World<S, C, R>>, events: seq<Step<S, C, R>>, i: nat)
    requires IsRun(home, path, states, events) && i < |states|
    ensures Inv(home, path, states[0].tx.store, states[i])
  {
    hide Inv, Enabled, Apply, IsStart;
    if i > 0 {
      RunKeeps(home, path, states, events, i - 1);
      StepKeeps(home, path, states[0].tx.store, states[i - 1], events[i - 1]);
    } else {
      Start(home, path, states[0]);
    }
  }

  lemma Start<S, C, R>(home: Home, path: string, w: World<S, C, R>)
    requires IsStart(w)
    ensures Inv(home, path, w.tx.store, w)
  {
  }

  predicate HoldsFlock<S, C, R>(w: World<S, C, R>, t: Tid) {
    && IsInside(w, t) && w.locks.stages[t].key in w.locks.flocks
    && w.locks.flocks[w.locks.stages[t].key] == t
  }

  lemma StoreChanges<S, C, R>(home: Home, path: string, w: World<S, C, R>, e: Step<S, C, R>)
    requires Enabled(home, path, w, e) && Apply(home, path, w, e).tx.store != w.tx.store
    ensures e.Transact? && e.tx.Operate? && IsInside(w, e.tx.t) && T.IsActive(w.tx, e.tx.t)
  {
    hide Gates.Apply, Gates.Enabled, BlobLocks.Apply, BlobLocks.Enabled;
  }

  /** The store changes only by the operation of an open view whose thread holds its blob lock. */
  lemma EffectsLocked<S, C, R>(
    home: Home, path: string, states: seq<World<S, C, R>>, events: seq<Step<S, C, R>>, i: nat)
    requires IsRun(home, path, states, events) && i < |events|
    requires states[i + 1].tx.store != states[i].tx.store
    ensures events[i].Transact? && events[i].tx.Operate?
    ensures HoldsFlock(states[i], events[i].tx.t) && T.IsActive(states[i].tx, events[i].tx.t)
  {
    hide T.Inv, Enabled, Apply, AccessFits;
    RunKeeps(home, path, states, events, i);
    StoreChanges(home, path, states[i], events[i]);
  }

  // Progress

  /** What the threads run: each one's callback, and for a callback that wants an operation its key and outcome. */
  datatype Script<!S, !C, !R> =
    Script(bodies: Tid -> T.Body<S, C, R>, keys: (Tid, C) -> BlobLocks.LockId, answers: (Tid, C) -> R)

  /**
  Steps that need no failure, no cancellation, no death and no new work; the next operation of
  a callback under way is not new work.
  */
  ghost predicate Forward<S, C, R>(home: Home, bodies: Tid -> T.Body<S, C, R>, w: World<S, C, R>, e: Step<S, C, R>) {
    match e
    case Transact(Gate(g)) => g.Take? || g.Put? || g.Drop?
    case Transact(Open(t, body)) => body == bodies(t)
    case Transact(tx) => tx.Lock? || tx.Operate? || tx.Finish? || tx.Unlock?
    case Access(Want(t, _)) => InTransaction(home, w, t)
    case Access(blob) => BlobLocks.Forward(blob)
    case _ => false
  }

  predicate Unfinished<S, C, R>(home: Home, w: World<S, C, R>, t: Tid) {
    InTransaction(home, w, t) || t in w.locks.stages
  }

  ghost predicate Good<S, C, R>(
    home: Home, path: string, script: Script<S, C, R>, w: World<S, C, R>, e: Step<S, C, R>)
  {
    Forward(home, script.bodies, w, e) && Enabled(home, path, w, e)
  }

  /** With no store operation under way, the thread or the lock file's holder can go on. */
  lemma PhaseMoves<S, C, R>(home: Home, path: string, initial: S, w: World<S, C, R>, t: Tid, script: Script<S, C, R>)
    returns (e: Step<S, C, R>)
    requires Inv(home, path, initial, w) && w.locks.stages == map[]
    requires t in w.tx.phases && !w.tx.phases[t].Returning?
    ensures Good(home, path, script, w, e)
  {
    hide BlobLocks.Inv, T.TableFits, AccessFits;
    var u := t;
    if w.tx.phases[t].Polling? && w.tx.locked.Some? {
      u := w.tx.locked.value;
    }
    match w.tx.phases[u]
    case Polling => e := Transact(T.Lock(u));
    case Checking => e := Transact(T.Open(u, script.bodies(u)));
    case Active(c) =>
      assert T.IsActive(w.tx, u) && T.Holds(home, w.tx, u);
      e := if T.Last(w.tx.journal).body.done(c) then Transact(T.Finish(u))
           else Access(BlobLocks.Want(u, script.keys(u, c)));
    case Closing => e := Transact(T.Unlock(u));
    case Returning =>
  }

  /** A thread in the gate table waits for a holder that can go on, or can itself. */
  lemma GateMoves<S, C, R>(home: Home, path: string, initial: S, w: World<S, C, R>, t: Tid, script: Script<S, C, R>)
    returns (e: Step<S, C, R>)
    requires Inv(home, path, initial, w) && w.locks.stages == map[] && InTransaction(home, w, t)
    ensures Good(home, path, script, w, e)
  {
    hide BlobLocks.Inv, Gates.Inv, Gates.Apply, T.LockMatches, T.JournalMatches, AccessFits;
    var table := T.TableOf(w.tx, home(t));
    assert T.TableFits(home, path, home(t), table);
    Gates.Available(table, t);
    var u := t;
    if table.threads[t].Leaving? {
      return Transact(T.Gate(Gates.Drop(t)));
    }
    if table.threads[t].Waiting? {
      if Gates.Enabled(table, Gates.Take(t)) {
        return Transact(T.Gate(Gates.Take(t)));
      }
      u :| u in table.threads && table.threads[u].Holding? && Gates.Enabled(table, Gates.Put(u));
    }
    assert home(u) == home(t) && T.Holds(home, w.tx, u);
    if w.tx.phases[u].Returning? {
      return Transact(T.Gate(Gates.Put(u)));
    }
    e := PhaseMoves(home, path, initial, w, u, script);
  }

  /** With a store operation under way, the chain of blob locks ends in one that can go on or take effect. */
  lemma AccessMoves<S, C, R>(home: Home, path: string, initial: S, w: World<S, C, R>, t: Tid, script: Script<S, C, R>)
    returns (e: Step<S, C, R>)
    requires Inv(home, path, initial, w) && t in w.locks.stages
    ensures Good(home, path, script, w, e)
  {
    hide T.Inv, BlobLocks.Inv, T.Apply;
    var blob := BlobLocks.Mover(home, w.locks, t);
    var u := blob.t;
    assert AccessFits(home, w, u);
    if blob.DropFlock? && InTransaction(home, w, u) && u !in w.answered {
      e := Transact(T.Operate(u, script.answers(u, w.tx.phases[u].c)));
    } else {
      e := Access(blob);
    }
  }

  lemma Moves<S, C, R>(home: Home, path: string, initial: S, w: World<S, C, R>, t: Tid, script: Script<S, C, R>)
    returns (e: Step<S, C, R>)
    requires Inv(home, path, initial, w) && Unfinished(home, w, t)
    ensures Good(home, path, script, w, e)
  {
    hide Inv, Good;
    if w.locks.stages == map[] {
      e := GateMoves(home, path, initial, w, t, script);
    } else {
      var u :| u in w.locks.stages;
      e := AccessMoves(home, path, initial, w, u, script);
    }
  }

  /**
  Every reachable state with unfinished work has a step that brings some operation or
  transaction forward without failing, being cancelled or dying, whatever the threads'
  callbacks are, whichever keys they use and however their store operations end.
  */
  lemma DeadlockFree<S, C, R>(
    home: Home, path: string, states: seq<World<S, C, R>>, events: seq<Step<S, C, R>>, i: nat, t: Tid,
    script: Script<S, C, R>)
    returns (e: Step<S, C, R>)
    requires IsRun(home, path, states, events) && i < |states| && Unfinished(home, states[i], t)
    ensures Forward(home, script.bodies, states[i], e) && Enabled(home, path, states[i], e)
  {
    hide Inv, Enabled, Forward;
    RunKeeps(home, path, states, events, i);
    e := Moves(home, path, states[0].tx.store, states[i], t, script);
  }
}
