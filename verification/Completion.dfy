/**
Deadlock freedom carried to the end: from every reachable state of the keychain store, steps
that fail, cancel and kill nothing lead to a state in which every thread has returned, and
there is a bound on how many they are.
*/
module Completion {
  import opened Wrappers
  import Gates
  import BlobLocks
  import T = Transactions
  import opened Progress

  /** The operations a thread's callback still has before it, by what it knows. */
  type Rank<!C> = (Tid, C) -> nat

  // How many steps a thread still has before it

  /**
  Within one operation of an open view: wanting the lock, mutex, lock file, effect, and the two
  releases. Six steps go by from one operation to the next.
  */
  function Cycle(locks: BlobLocks.State, answered: bool, t: Tid): nat {
    if t !in locks.stages then 3
    else match locks.stages[t]
      case WantMutex(_) => 2
      case WantFlock(_) => 1
      case Inside(_) => if answered then 5 else 0
      case Unlocking(_) => 4
  }

  /** The same for an operation outside transactions. */
  function Direct(locks: BlobLocks.State, t: Tid): nat {
    if t !in locks.stages then 0
    else match locks.stages[t]
      case WantMutex(_) => 4
      case WantFlock(_) => 3
      case Inside(_) => 2
      case Unlocking(_) => 1
  }

  function PhaseWeight<C>(rank: Rank<C>, start: C, phase: T.Phase<C>, cycle: nat, t: Tid): nat {
    match phase
    case Polling => 6 + 6 * rank(t, start)
    case Checking => 5 + 6 * rank(t, start)
    case Active(c) => 1 + 6 * rank(t, c) + cycle
    case Closing => 3
    case Returning => 2
  }

  function TransactionWeight<S, C, R>(
    home: Home, rank: Rank<C>, start: C, tx: T.System<S, C, R>, cycle: nat, t: Tid): nat
  {
    var threads := T.TableOf(tx, home(t)).threads;
    if t !in threads then 0
    else match threads[t]
      case Waiting(_, _) => 7 + 6 * rank(t, start)
      case Holding(_, _) => if t in tx.phases then PhaseWeight(rank, start, tx.phases[t], cycle, t) else 2
      case Leaving(_, _) => 1
  }

  function Weight<S, C, R>(home: Home, bodies: Tid -> T.Body<S, C, R>, rank: Rank<C>, w: World<S, C, R>, t: Tid): nat {
    if InTransaction(home, w, t)
    then TransactionWeight(home, rank, bodies(t).start, w.tx, Cycle(w.locks, t in w.answered, t), t)
    else Direct(w.locks, t)
  }

  /** The steps that threads below n still have before them, at most. */
  function Total<S, C, R>(home: Home, bodies: Tid -> T.Body<S, C, R>, rank: Rank<C>, w: World<S, C, R>, n: nat): nat {
    if n == 0 then 0 else Total(home, bodies, rank, w, n - 1) + Weight(home, bodies, rank, w, n - 1)
  }

  lemma {:induction false} TotalMoves<S, C, R>(
    home: Home, bodies: Tid -> T.Body<S, C, R>, rank: Rank<C>, w: World<S, C, R>, w': World<S, C, R>, n: nat, t: Tid)
    requires forall u: Tid :: u != t ==> Weight(home, bodies, rank, w', u) == Weight(home, bodies, rank, w, u)
    ensures Total(home, bodies, rank, w', n)
            == Total(home, bodies, rank, w, n)
               + if t < n then Weight(home, bodies, rank, w', t) - Weight(home, bodies, rank, w, t) else 0
  {
    hide Weight;
    if n > 0 {
      TotalMoves(home, bodies, rank, w, w', n - 1, t);
    }
  }

  // Callbacks that return

  /** The callback returns, after at most as many operations as its rank says, whatever the environment answers. */
  ghost predicate Returns<S(!new), C(!new), R(!new)>(body: T.Body<S, C, R>, rank: Rank<C>, t: Tid) {
    forall s, c, r :: !body.done(c) ==> rank(t, body.step(s, c, r).1) < rank(t, c)
  }

  /** The callback under way, if any, is one that returns. */
  ghost predicate Tame<S(!new), C(!new), R(!new)>(w: World<S, C, R>, rank: Rank<C>) {
    w.tx.journal != [] && T.Last(w.tx.journal).end.Running? ==>
      Returns(T.Last(w.tx.journal).body, rank, T.Last(w.tx.journal).t)
  }

  lemma StaysTame<S(!new), C(!new), R(!new)>(
    home: Home, path: string, bodies: Tid -> T.Body<S, C, R>, w: World<S, C, R>, e: Step<S, C, R>, rank: Rank<C>)
    requires Enabled(home, path, w, e) && Forward(home, bodies, w, e) && Tame(w, rank)
    requires forall t: Tid :: Returns(bodies(t), rank, t)
    ensures Tame(Apply(home, path, w, e), rank)
  {
    hide Returns;
  }

  // Every forward step is one step less

  function StepActor<S, C, R>(e: Step<S, C, R>): Tid
    requires (e.Transact? && Actor(e.tx).Some?) || (e.Access? && !e.blob.Kill?)
  {
    if e.Transact? then Actor(e.tx).value else e.blob.t
  }

  /** A step inside a store operation, of a transaction or not. */
  lemma AccessForward<S, C, R>(
    home: Home, path: string, bodies: Tid -> T.Body<S, C, R>, rank: Rank<C>, w: World<S, C, R>, e: Step<S, C, R>,
    u: Tid)
    requires Enabled(home, path, w, e) && e.Access? && Forward(home, bodies, w, e) && AccessFits(home, w, u)
    requires InTransaction(home, w, u) && T.IsActive(w.tx, u) ==> T.Holds(home, w.tx, u)
    ensures var after := Weight(home, bodies, rank, Apply(home, path, w, e), u);
            if u == StepActor(e) then after < Weight(home, bodies, rank, w, u)
            else after == Weight(home, bodies, rank, w, u)
  {
  }

  /** A gate step. */
  lemma GateForward<S, C, R>(
    home: Home, path: string, rank: Rank<C>, start: C, tx: T.System<S, C, R>, g: Gates.Event<nat>, cycle: nat, u: Tid)
    requires T.GatesMatch(home, path, tx) && T.Enabled(home, path, tx, T.Gate(g)) && (g.Take? || g.Put? || g.Drop?)
    ensures var tx' := T.Apply(home, path, tx, T.Gate(g));
            var after := TransactionWeight(home, rank, start, tx', cycle, u);
            && (if u == g.t then after < TransactionWeight(home, rank, start, tx, cycle, u)
                else after == TransactionWeight(home, rank, start, tx, cycle, u))
            && (u in T.TableOf(tx', home(u)).threads ==> u in T.TableOf(tx, home(u)).threads)
            && (u !in T.TableOf(tx', home(u)).threads && u in T.TableOf(tx, home(u)).threads ==> u == g.t && g.Drop?)
  {
    hide Gates.Apply, T.TableFits;
    T.StagesAfter(T.TableOf(tx, home(g.t)), g);
    assert T.Holds(home, tx, g.t) <==> g.t in tx.phases;
  }

  /** A change of phase. */
  lemma PhaseForward<S, C, R>(
    home: Home, path: string, rank: Rank<C>, start: C, tx: T.System<S, C, R>, e: T.Event<S, C, R>, u: Tid)
    requires T.GatesMatch(home, path, tx) && T.Enabled(home, path, tx, e)
    requires e.Lock? || e.Open? || e.Finish? || e.Unlock?
    requires e.Open? && u == e.t ==> e.body.start == start
    ensures var tx' := T.Apply(home, path, tx, e);
            && tx'.tables == tx.tables
            && (u == e.t ==>
                  TransactionWeight(home, rank, start, tx', 3, u) < TransactionWeight(home, rank, start, tx, 3, u))
            && (u != e.t ==>
                  (u in tx'.phases <==> u in tx.phases) && (u in tx.phases ==> tx'.phases[u] == tx.phases[u]))
  {
    hide T.TableFits;
    assert T.Holds(home, tx, e.t) <==> e.t in tx.phases;
  }

  /** The effect of a view operation: three steps of the operation are left, and one operation less. */
  lemma OperateForward<S(!new), C(!new), R(!new)>(
    home: Home, path: string, initial: S, bodies: Tid -> T.Body<S, C, R>, rank: Rank<C>, w: World<S, C, R>,
    t: Tid, r: R, u: Tid)
    requires Inv(home, path, initial, w) && Enabled(home, path, w, Transact(T.Operate(t, r))) && Tame(w, rank)
    ensures var after := Weight(home, bodies, rank, Apply(home, path, w, Transact(T.Operate(t, r))), u);
            if u == t then after < Weight(home, bodies, rank, w, u) else after == Weight(home, bodies, rank, w, u)
  {
    hide BlobLocks.Inv, T.TableFits;
    assert T.Holds(home, w.tx, t) && T.IsActive(w.tx, t);
    assert T.Holds(home, w.tx, u) <==> u in w.tx.phases;
  }

  lemma TransactForward<S(!new), C(!new), R(!new)>(
    home: Home, path: string, initial: S, bodies: Tid -> T.Body<S, C, R>, rank: Rank<C>, w: World<S, C, R>,
    tx: T.Event<S, C, R>, u: Tid)
    requires Inv(home, path, initial, w) && Enabled(home, path, w, Transact(tx)) && Tame(w, rank)
    requires Forward(home, bodies, w, Transact(tx))
    ensures var after := Weight(home, bodies, rank, Apply(home, path, w, Transact(tx)), u);
            if u == Actor(tx).value then after < Weight(home, bodies, rank, w, u)
            else after == Weight(home, bodies, rank, w, u)
  {
    hide BlobLocks.Inv, T.LockMatches, T.JournalMatches, T.TableFits, T.Enabled, T.Apply, Tame, AccessFits;
    match tx
    case Operate(t, r) => OperateForward(home, path, initial, bodies, rank, w, t, r, u);
    case Gate(g) =>
      GateForward(home, path, rank, bodies(u).start, w.tx, g, Cycle(w.locks, u in w.answered, u), u);
    case _ => PhaseForward(home, path, rank, bodies(u).start, w.tx, tx, u);
  }

  lemma ForwardWeighs<S(!new), C(!new), R(!new)>(
    home: Home, path: string, initial: S, bodies: Tid -> T.Body<S, C, R>, rank: Rank<C>, w: World<S, C, R>,
    e: Step<S, C, R>, u: Tid)
    requires Inv(home, path, initial, w) && Enabled(home, path, w, e) && Forward(home, bodies, w, e) && Tame(w, rank)
    ensures (e.Transact? && Actor(e.tx).Some?) || (e.Access? && !e.blob.Kill?)
    ensures var after := Weight(home, bodies, rank, Apply(home, path, w, e), u);
            if u == StepActor(e) then after < Weight(home, bodies, rank, w, u)
            else after == Weight(home, bodies, rank, w, u)
  {
    hide BlobLocks.Inv, T.Enabled, T.Apply, Weight, Tame, T.TableFits, T.LockMatches, T.JournalMatches;
    if e.Transact? {
      TransactForward(home, path, initial, bodies, rank, w, e.tx, u);
    } else {
      assert T.Holds(home, w.tx, u) <==> u in w.tx.phases;
      AccessForward(home, path, bodies, rank, w, e, u);
    }
  }

  /** Every forward step, each lock step of each operation included, brings the total down. */
  lemma ForwardShrinks<S(!new), C(!new), R(!new)>(
    home: Home, path: string, initial: S, bodies: Tid -> T.Body<S, C, R>, rank: Rank<C>, w: World<S, C, R>,
    e: Step<S, C, R>, n: nat)
    requires Inv(home, path, initial, w) && Enabled(home, path, w, e) && Forward(home, bodies, w, e) && Tame(w, rank)
    requires forall u: Tid :: u >= n ==> Weight(home, bodies, rank, w, u) == 0
    ensures forall u: Tid :: u >= n ==> Weight(home, bodies, rank, Apply(home, path, w, e), u) == 0
    ensures Total(home, bodies, rank, Apply(home, path, w, e), n) < Total(home, bodies, rank, w, n)
  {
    hide Inv, Enabled, Forward, Apply, Weight, Tame;
    var w' := Apply(home, path, w, e);
    ForwardWeighs(home, path, initial, bodies, rank, w, e, 0);
    var t := StepActor(e);
    forall u: Tid
      ensures u != t ==> Weight(home, bodies, rank, w', u) == Weight(home, bodies, rank, w, u)
      ensures u >= n ==> Weight(home, bodies, rank, w', u) == 0
    {
      ForwardWeighs(home, path, initial, bodies, rank, w, e, u);
    }
    ForwardWeighs(home, path, initial, bodies, rank, w, e, t);
    TotalMoves(home, bodies, rank, w, w', n, t);
  }

  // Completion

  ghost predicate Leads<S, C, R>(
    home: Home, path: string, bodies: Tid -> T.Body<S, C, R>, w: World<S, C, R>, events: seq<Step<S, C, R>>,
    w': World<S, C, R>)
    decreases |events|
  {
    if events == [] then w' == w
    else
      && Enabled(home, path, w, events[0]) && Forward(home, bodies, w, events[0])
      && Leads(home, path, bodies, Apply(home, path, w, events[0]), events[1..], w')
  }

  lemma UnfinishedWeighs<S, C, R>(
    home: Home, path: string, bodies: Tid -> T.Body<S, C, R>, rank: Rank<C>, w: World<S, C, R>, t: Tid)
    ensures Unfinished(home, w, t) <==> Weight(home, bodies, rank, w, t) > 0
  {
  }

  lemma {:induction false} Drain<S(!new), C(!new), R(!new)>(
    home: Home, path: string, initial: S, w: World<S, C, R>, n: nat, script: Script<S, C, R>, rank: Rank<C>)
    returns (events: seq<Step<S, C, R>>, w': World<S, C, R>)
    requires Inv(home, path, initial, w) && Tame(w, rank) && forall t: Tid :: Returns(script.bodies(t), rank, t)
    requires forall u: Tid :: u >= n ==> Weight(home, script.bodies, rank, w, u) == 0
    ensures Leads(home, path, script.bodies, w, events, w') && Inv(home, path, initial, w')
    ensures |events| <= Total(home, script.bodies, rank, w, n)
    ensures forall t: Tid :: !Unfinished(home, w', t)
    decreases Total(home, script.bodies, rank, w, n)
  {
    hide Inv, Enabled, Forward, Apply, Weight, Total, Tame, Returns, Unfinished;
    if t: Tid :| Unfinished(home, w, t) {
      var e := Moves(home, path, initial, w, t, script);
      ForwardShrinks(home, path, initial, script.bodies, rank, w, e, n);
      StepKeeps(home, path, initial, w, e);
      StaysTame(home, path, script.bodies, w, e, rank);
      var rest;
      rest, w' := Drain(home, path, initial, Apply(home, path, w, e), n, script, rank);
      events := [e] + rest;
      assert events[1..] == rest;
    } else {
      events, w' := [], w;
    }
  }

  /**
  Whatever has happened so far, all work can be completed: from every reachable state whose
  callbacks return, at most Total steps without failure, cancellation or death, in which every
  view operation takes and releases its own blob lock, lead to a state in which no thread is
  in a store operation or transaction and no gate, lock file or blob lock is held.
  */
  lemma EveryRunCompletes<S(!new), C(!new), R(!new)>(
    home: Home, path: string, states: seq<World<S, C, R>>, events: seq<Step<S, C, R>>, i: nat, n: nat,
    script: Script<S, C, R>, rank: Rank<C>)
    returns (more: seq<Step<S, C, R>>, w: World<S, C, R>)
    requires IsRun(home, path, states, events) && i < |states|
    requires forall t: Tid :: Unfinished(home, states[i], t) ==> t < n
    requires Tame(states[i], rank) && forall t: Tid :: Returns(script.bodies(t), rank, t)
    ensures Leads(home, path, script.bodies, states[i], more, w)
    ensures |more| <= Total(home, script.bodies, rank, states[i], n)
    ensures (forall t: Tid :: !Unfinished(home, w, t)) && w.tx.phases == map[] && w.tx.locked == None
    ensures w.locks == BlobLocks.State(map[], map[], map[])
  {
    hide Inv, Enabled, Forward, Apply, Weight, Tame, Returns, Unfinished;
    RunKeeps(home, path, states, events, i);
    forall u: Tid | u >= n ensures Weight(home, script.bodies, rank, states[i], u) == 0 {
      UnfinishedWeighs(home, path, script.bodies, rank, states[i], u);
    }
    more, w := Drain(home, path, states[0].tx.store, states[i], n, script, rank);
    IdleHoldsNothing(home, path, states[0].tx.store, w);
  }

  lemma IdleHoldsNothing<S, C, R>(home: Home, path: string, initial: S, w: World<S, C, R>)
    requires Inv(home, path, initial, w) && forall t: Tid :: !Unfinished(home, w, t)
    ensures w.tx.phases == map[] && w.tx.locked == None && w.locks == BlobLocks.State(map[], map[], map[])
  {
    hide T.JournalMatches, T.TableFits;
    forall t: Tid ensures t !in w.tx.phases && t !in w.locks.stages {
      assert !Unfinished(home, w, t);
      assert !T.Holds(home, w.tx, t);
    }
  }
}
