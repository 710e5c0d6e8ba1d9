/**
The reference-counted gate table of cache/transaction.go: one gate per lock path, created by
the first thread that wants it and deleted with the last one that leaves. Each atomic section
of acquireGate and of the function it returns is one step; any number of threads interleave.
*/
module Gates {
  type Tid = nat

  /** token says whether the capacity-1 channel holds its token; users counts who refers to the gate. */
  datatype Gate = Gate(token: bool, users: nat)

  /** Where a thread is: in the select, past it with the token, or about to drop its reference. */
  datatype Stage<G> = Waiting(path: string, gate: G) | Holding(path: string, gate: G) | Leaving(path: string, gate: G)

  /** values is the table, gates every gate ever made, threads who refers to which. */
  datatype Table<G> = Table(values: map<string, G>, gates: map<G, Gate>, threads: map<Tid, Stage<G>>)

  // The steps

  datatype Event<G> = Enter(t: Tid, path: string, gate: G) | Take(t: Tid) | Cancel(t: Tid) | Put(t: Tid) | Drop(t: Tid)

  /** Looks the path up, makes a gate with its token if there is none, and counts the thread in. */
  function Entered<G>(s: Table<G>, t: Tid, path: string, gate: G): Table<G> {
    var was := if gate in s.gates then s.gates[gate] else Gate(true, 0);
    Table(s.values[path := gate], s.gates[gate := Gate(was.token, was.users + 1)], s.threads[t := Waiting(path, gate)])
  }

  function Moved<G>(s: Table<G>, t: Tid, token: bool, stage: Stage<G>): Table<G> {
    var users := if stage.gate in s.gates then s.gates[stage.gate].users else 0;
    s.(gates := s.gates[stage.gate := Gate(token, users)], threads := s.threads[t := stage])
  }

  /** Counts the thread out; the last one deletes the path's entry. */
  function Dropped<G>(s: Table<G>, t: Tid, path: string, gate: G): Table<G> {
    var was := if gate in s.gates then s.gates[gate] else Gate(true, 1);
    var left := if was.users > 0 then was.users - 1 else 0;
    Table(if left == 0 then s.values - {path} else s.values, s.gates[gate := Gate(was.token, left)], s.threads - {t})
  }

  /** Whether the thread may take the step now: receiving needs the token, sending needs the channel empty. */
  predicate Enabled<G(==)>(s: Table<G>, e: Event<G>) {
    match e
    case Enter(t, path, gate) =>
      t !in s.threads && if path in s.values then gate == s.values[path] else gate !in s.gates
    case Take(t) => t in s.threads && s.threads[t].Waiting? && s.threads[t].gate in s.gates &&
        s.gates[s.threads[t].gate].token
    case Cancel(t) => t in s.threads && s.threads[t].Waiting?
    case Put(t) => t in s.threads && s.threads[t].Holding? && s.threads[t].gate in s.gates &&
        !s.gates[s.threads[t].gate].token
    case Drop(t) => t in s.threads && s.threads[t].Leaving?
  }

  function Apply<G(==)>(s: Table<G>, e: Event<G>): Table<G>
    requires Enabled(s, e)
  {
    match e
    case Enter(t, path, gate) => Entered(s, t, path, gate)
    case Take(t) => Moved(s, t, false, Holding(s.threads[t].path, s.threads[t].gate))
    case Cancel(t) => s.(threads := s.threads[t := Leaving(s.threads[t].path, s.threads[t].gate)])
    case Put(t) => Moved(s, t, true, Leaving(s.threads[t].path, s.threads[t].gate))
    case Drop(t) => Dropped(s, t, s.threads[t].path, s.threads[t].gate)
  }

  // The invariant

  function Users<G(==)>(s: Table<G>, g: G): set<Tid> { set t | t in s.threads && s.threads[t].gate == g }

  function Holders<G(==)>(s: Table<G>, g: G): set<Tid> {
    set t | t in s.threads && s.threads[t].gate == g && s.threads[t].Holding?
  }

  /** Counts and tokens add up for one gate, in use or not. */
  predicate Balanced<G(==)>(s: Table<G>, g: G)
    requires g in s.gates
  {
    s.gates[g].users == |Users(s, g)| && (if s.gates[g].token then 1 else 0) + |Holders(s, g)| == 1
  }

  /** The table and the threads agree, and no two paths share a gate. */
  ghost predicate Linked<G>(s: Table<G>) {
    && (forall t :: t in s.threads ==>
          s.threads[t].gate in s.gates && s.threads[t].path in s.values &&
              s.values[s.threads[t].path] == s.threads[t].gate)
    && (forall p :: p in s.values ==> s.values[p] in s.gates && s.gates[s.values[p]].users > 0)
    && (forall p, q :: p in s.values && q in s.values && s.values[p] == s.values[q] ==> p == q)
  }

  ghost predicate Inv<G>(s: Table<G>) {
    Linked(s) && forall g :: g in s.gates ==> Balanced(s, g)
  }

  lemma UsersWith<G>(s: Table<G>, s': Table<G>, t: Tid, g: G)
    requires t !in s.threads && t in s'.threads && s'.threads == s.threads[t := s'.threads[t]]
    ensures Users(s', g) == if s'.threads[t].gate == g then Users(s, g) + {t} else Users(s, g)
    ensures Holders(s', g) == if s'.threads[t].gate == g && s'.threads[t].Holding? then Holders(s, g) + {t}
              else Holders(s, g)
  {
  }

  lemma UsersMoved<G>(s: Table<G>, s': Table<G>, t: Tid, g: G)
    requires t in s.threads && t in s'.threads && s'.threads == s.threads[t := s'.threads[t]]
    requires s'.threads[t].gate == s.threads[t].gate
    ensures Users(s', g) == Users(s, g)
    ensures Holders(s', g) == if s.threads[t].gate != g then Holders(s, g)
                              else if s'.threads[t].Holding? then Holders(s, g) + {t} else Holders(s, g) - {t}
  {
  }

  lemma UsersWithout<G>(s: Table<G>, s': Table<G>, t: Tid, g: G)
    requires t in s.threads && !s.threads[t].Holding? && s'.threads == s.threads - {t}
    ensures Users(s', g) == Users(s, g) - {t} && Holders(s', g) == Holders(s, g)
  {
  }

  lemma EnterBalances<G>(s: Table<G>, t: Tid, path: string, gate: G, g: G)
    requires Linked(s) && (g in s.gates ==> Balanced(s, g)) && Enabled(s, Enter(t, path, gate))
    requires g in Entered(s, t, path, gate).gates
    ensures Balanced(Entered(s, t, path, gate), g)
  {
    var s' := Entered(s, t, path, gate);
    UsersWith(s, s', t, g);
    if g !in s.gates {
      assert Users(s, g) == {} && Holders(s, g) == {};
    }
  }

  lemma EnterKeeps<G>(s: Table<G>, t: Tid, path: string, gate: G)
    requires Inv(s) && Enabled(s, Enter(t, path, gate))
    ensures Inv(Entered(s, t, path, gate))
  {
    hide Balanced;
    var s' := Entered(s, t, path, gate);
    forall g | g in s'.gates ensures Balanced(s', g) {
      EnterBalances(s, t, path, gate, g);
    }
  }

  lemma MoveKeeps<G>(s: Table<G>, e: Event<G>)
    requires Inv(s) && Enabled(s, e) && (e.Take? || e.Cancel? || e.Put?)
    ensures Inv(Apply(s, e))
  {
    hide Balanced;
    var s' := Apply(s, e);
    forall g | g in s'.gates ensures Balanced(s', g) {
      MoveBalances(s, e, g);
    }
  }

  lemma MoveBalances<G>(s: Table<G>, e: Event<G>, g: G)
    requires Linked(s) && g in s.gates && Balanced(s, g) && Enabled(s, e) && (e.Take? || e.Cancel? || e.Put?)
    ensures g in Apply(s, e).gates && Balanced(Apply(s, e), g)
  {
    UsersMoved(s, Apply(s, e), e.t, g);
  }

  lemma DropBalances<G>(s: Table<G>, t: Tid, g: G)
    requires Linked(s) && g in s.gates && Balanced(s, g) && Enabled(s, Drop(t))
    ensures g in Apply(s, Drop(t)).gates && Balanced(Apply(s, Drop(t)), g)
  {
    var s', gate := Apply(s, Drop(t)), s.threads[t].gate;
    UsersWithout(s, s', t, g);
    assert gate == g ==> t in Users(s, g);
  }

  lemma DropLinks<G>(s: Table<G>, t: Tid)
    requires Linked(s) && Enabled(s, Drop(t)) && Balanced(s, s.threads[t].gate)
    requires Balanced(Apply(s, Drop(t)), s.threads[t].gate)
    ensures Linked(Apply(s, Drop(t)))
  {
    var s', gate := Apply(s, Drop(t)), s.threads[t].gate;
    if s'.gates[gate].users == 0 {
      assert Users(s', gate) == {};
      forall u | u in s'.threads ensures s'.threads[u].gate != gate {
        assert u in Users(s', gate) <==> s'.threads[u].gate == gate;
      }
    }
  }

  lemma DropKeeps<G>(s: Table<G>, t: Tid)
    requires Inv(s) && Enabled(s, Drop(t))
    ensures Inv(Apply(s, Drop(t)))
  {
    hide Balanced;
    var s' := Apply(s, Drop(t));
    forall g | g in s'.gates ensures Balanced(s', g) {
      DropBalances(s, t, g);
    }
    DropLinks(s, t);
  }

  /** Every step of every thread keeps the books, across deletion and re-creation of gates. */
  lemma StepKeeps<G>(s: Table<G>, e: Event<G>)
    requires Inv(s) && Enabled(s, e)
    ensures Inv(Apply(s, e))
  {
    match e
    case Enter(t, path, gate) => EnterKeeps(s, t, path, gate);
    case Drop(t) => DropKeeps(s, t);
    case _ => MoveKeeps(s, e);
  }

  ghost predicate IsRun<G>(states: seq<Table<G>>, events: seq<Event<G>>) {
    && |states| == |events| + 1
    && forall i :: 0 <= i < |events| ==> Enabled(states[i], events[i]) && states[i + 1] == Apply(states[i], events[i])
  }

  lemma {:induction false} RunKeeps<G>(states: seq<Table<G>>, events: seq<Event<G>>, i: nat)
    requires IsRun(states, events) && states[0] == Table(map[], map[], map[]) && i < |states|
    ensures Inv(states[i])
  {
    if i > 0 {
      RunKeeps(states, events, i - 1);
      StepKeeps(states[i - 1], events[i - 1]);
    }
  }

  // What the invariant is for

  lemma Linkage<G>(s: Table<G>)
    requires Inv(s)
    ensures forall t :: t in s.threads ==> s.threads[t].gate in s.gates
    ensures forall t :: t in s.threads ==>
              s.threads[t].path in s.values && s.values[s.threads[t].path] == s.threads[t].gate
    ensures forall p :: p in s.values ==> s.values[p] in s.gates && s.gates[s.values[p]].users > 0
    ensures forall t :: t in s.threads ==> s.gates[s.threads[t].gate].users > 0
  {
    forall t | t in s.threads ensures s.gates[s.threads[t].gate].users > 0 {
      assert s.threads[t].path in s.values;
    }
  }

  /** Entering and giving up undoes itself, even when it made and deleted the gate. */
  lemma CancelUndoesEnter<G>(s: Table<G>, t: Tid, path: string, gate: G)
    requires Inv(s) && Enabled(s, Enter(t, path, gate))
    ensures var entered := Apply(s, Enter(t, path, gate));
            && Enabled(entered, Cancel(t)) && Enabled(Apply(entered, Cancel(t)), Drop(t))
            && var left := Apply(Apply(entered, Cancel(t)), Drop(t));
            && left.values == s.values && left.threads == s.threads
            && forall g :: g in s.gates ==> g in left.gates && left.gates[g] == s.gates[g]
  {
    hide Inv, Linked, Balanced, Users, Holders;
    Linkage(s);
    var entered := Apply(s, Enter(t, path, gate));
    var cancelled := Apply(entered, Cancel(t));
    var left := Apply(cancelled, Drop(t));
    assert left.threads == s.threads;
    assert cancelled.values == s.values[path := gate] && cancelled.gates == entered.gates;
    assert left.values == s.values;
  }

  lemma TwoMembers(a: set<Tid>, t: Tid, u: Tid)
    requires t in a && u in a && |a| <= 1
    ensures t == u
  {
    assert |a - {t}| == |a| - 1;
  }

  /** Mutual exclusion per path, even though the path's gate may have been deleted and made anew. */
  lemma Exclusion<G>(states: seq<Table<G>>, events: seq<Event<G>>, i: nat, t: Tid, u: Tid)
    requires IsRun(states, events) && states[0] == Table(map[], map[], map[]) && i < |states|
    requires t in states[i].threads && states[i].threads[t].Holding?
    requires u in states[i].threads && states[i].threads[u].Holding?
    requires states[i].threads[t].path == states[i].threads[u].path
    ensures t == u
  {
    var s := states[i];
    RunKeeps(states, events, i);
    var g := s.threads[t].gate;
    assert Balanced(s, g);
    TwoMembers(Holders(s, g), t, u);
  }

  /**
  No thread waits in vain and no return blocks: a waiting thread has an available token or a
  current holder, whose return finds the channel empty, whatever was cancelled before.
  */
  lemma NoLostWaiter<G>(states: seq<Table<G>>, events: seq<Event<G>>, i: nat, t: Tid)
    requires IsRun(states, events) && states[0] == Table(map[], map[], map[]) && i < |states|
    requires t in states[i].threads
    ensures states[i].threads[t].Waiting? ==>
              Enabled(states[i], Take(t))
              || exists u :: u in states[i].threads && states[i].threads[u].Holding?
                             && states[i].threads[u].path == states[i].threads[t].path && Enabled(states[i], Put(u))
    ensures states[i].threads[t].Holding? ==> Enabled(states[i], Put(t))
  {
    RunKeeps(states, events, i);
    Available(states[i], t);
  }

  lemma Available<G>(s: Table<G>, t: Tid)
    requires Inv(s) && t in s.threads
    ensures s.threads[t].Waiting? ==>
              Enabled(s, Take(t))
              || exists u :: u in s.threads && s.threads[u].Holding? && s.threads[u].gate == s.threads[t].gate
                             && s.threads[u].path == s.threads[t].path && Enabled(s, Put(u))
    ensures s.threads[t].Holding? ==> Enabled(s, Put(t))
  {
    var g := s.threads[t].gate;
    assert Balanced(s, g);
    if s.threads[t].Holding? {
      assert t in Holders(s, g);
    } else if !s.gates[g].token {
      assert Holders(s, g) != {};
      var u :| u in Holders(s, g);
      assert s.threads[u].path == s.threads[t].path;
    }
  }

  /** When every caller has returned, no gate is left in the table. */
  lemma Cleanup<G>(states: seq<Table<G>>, events: seq<Event<G>>, i: nat)
    requires IsRun(states, events) && states[0] == Table(map[], map[], map[]) && i < |states|
    requires states[i].threads == map[]
    ensures states[i].values == map[]
  {
    var s := states[i];
    RunKeeps(states, events, i);
    forall p ensures p !in s.values {
      InTableWhileUsed(s, p);
    }
  }

  /** A path is in the table exactly while some thread refers to its gate. */
  lemma InTableWhileUsed<G>(s: Table<G>, path: string)
    requires Inv(s)
    ensures path in s.values <==> exists t :: t in s.threads && s.threads[t].path == path
  {
    if path in s.values {
      var g := s.values[path];
      assert Balanced(s, g);
      assert Users(s, g) != {};
      var t :| t in Users(s, g);
      assert s.threads[t].path == path;
    }
  }
}
