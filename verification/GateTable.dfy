/**
The gate table as its code runs: gates are heap objects that several threads point to. Each
method is one atomic section, proved to be the step of Gates on the table it changes.
*/
module GateTable {
  import opened Gates

  class TransactionGate {
    /** Whether the channel of capacity one holds its token. */
    var token: bool
    var users: nat

    constructor ()
      ensures token && users == 0
    {
      token, users := true, 0;
    }
  }

  class TransactionGates {
    var values: map<string, TransactionGate>
    ghost var made: set<TransactionGate>
    ghost var threads: map<Tid, Stage<TransactionGate>>

    ghost function State(): Table<TransactionGate>
      reads this, made
    {
      Table(values, map g | g in made :: Gate(g.token, g.users), threads)
    }

    ghost predicate Valid()
      reads this, made
    {
      Inv(State())
    }

    constructor ()
      ensures Valid() && State() == Table(map[], map[], map[]) && made == {}
    {
      values, made, threads := map[], {}, map[];
    }

    /** The path's gate, or a new one with its token in the channel. */
    method Find(path: string) returns (gate: TransactionGate)
      requires Valid()
      modifies this`values, this`made
      ensures if path in old(values) then gate == old(values[path]) && gate in old(made)
              else fresh(gate) && gate.token && gate.users == 0
      ensures values == old(values)[path := gate] && made == old(made) + {gate}
    {
      hide Inv, Linked, Balanced, Holders, Users;
      Linkage(State());
      if path in values {
        gate := values[path];
        assert gate in State().gates;
      } else {
        gate := new TransactionGate();
        values := values[path := gate];
        made := made + {gate};
      }
    }

    /** Finds or makes the path's gate and counts the thread in. */
    method Join(path: string, ghost t: Tid) returns (gate: TransactionGate)
      requires Valid() && t !in threads
      modifies this, made
      ensures Valid() && gate in made && made == old(made) + {gate}
      ensures if path in old(values) then gate == old(values[path]) && gate in old(made) else fresh(gate)
      ensures gate.token == if path in old(values) then old(values[path].token) else true
      ensures values == old(values)[path := gate] && threads == old(threads)[t := Waiting(path, gate)]
      ensures Enabled(old(State()), Enter(t, path, gate)) && State() == Apply(old(State()), Enter(t, path, gate))
    {
      hide Inv, Linked, Balanced, Holders, Users;
      ghost var before := State();
      gate := Find(path);
      gate.users := gate.users + 1;
      threads := threads[t := Waiting(path, gate)];
      MergedIn(before, State(), gate);
      assert State() == Entered(before, t, path, gate);
      StepKeeps(before, Enter(t, path, gate));
    }

    /** Receives the token; the select chooses this case only when the channel holds it. */
    method Receive(path: string, gate: TransactionGate, ghost t: Tid)
      requires Valid() && t in threads && threads[t] == Waiting(path, gate) && gate.token
      modifies this`threads, made
      ensures Valid() && State() == Apply(old(State()), Take(t))
      ensures threads == old(threads)[t := Holding(path, gate)]
    {
      hide Inv, Linked, Balanced, Holders, Users;
      ghost var before := State();
      Linkage(before);
      assert gate in before.gates;
      gate.token := false;
      threads := threads[t := Holding(path, gate)];
      assert State().gates == Apply(before, Take(t)).gates;
      StepKeeps(before, Take(t));
    }

    /** Gives up on the select because the context is done. */
    ghost method GiveUp(path: string, gate: TransactionGate, t: Tid)
      requires Valid() && t in threads && threads[t] == Waiting(path, gate)
      modifies this`threads
      ensures Valid() && State() == Apply(old(State()), Cancel(t))
      ensures threads == old(threads)[t := Leaving(path, gate)]
    {
      hide Inv, Linked, Balanced, Holders, Users;
      ghost var before := State();
      Linkage(before);
      threads := threads[t := Leaving(path, gate)];
      assert State() == Apply(before, Cancel(t));
      StepKeeps(before, Cancel(t));
    }

    /** Returns the token; the channel is empty then, so the send cannot block. */
    method Send(path: string, gate: TransactionGate, ghost t: Tid)
      requires Valid() && t in threads && threads[t] == Holding(path, gate)
      modifies this`threads, made
      ensures !old(gate.token)
      ensures Valid() && State() == Apply(old(State()), Put(t))
    {
      hide Inv, Linked, Balanced, Holders, Users;
      ghost var before := State();
      Linkage(before);
      Available(before, t);
      assert gate in before.gates;
      gate.token := true;
      threads := threads[t := Leaving(path, gate)];
      assert State().gates == Apply(before, Put(t)).gates;
      StepKeeps(before, Put(t));
    }

    /** Counts the thread out, and deletes the path's entry with the last user. */
    method Leave(path: string, gate: TransactionGate, ghost t: Tid)
      requires Valid() && t in threads && threads[t] == Leaving(path, gate)
      modifies this, made
      ensures Valid() && made == old(made) && State() == Apply(old(State()), Drop(t))
    {
      hide Inv, Linked, Balanced, Holders, Users;
      ghost var before := State();
      Linkage(before);
      assert gate in before.gates;
      gate.users := gate.users - 1;
      if gate.users == 0 {
        values := values - {path};
      }
      threads := threads - {t};
      assert State().gates == Apply(before, Drop(t)).gates;
      StepKeeps(before, Drop(t));
    }

    /**
    acquireGate, from the moment its select can proceed: the context is done, or the token is
    there. With both ready either case may be chosen. A cancelled caller leaves the table as it
    found it; the other one is the path's only holder.
    */
    method AcquireGate(path: string, done: bool, ghost t: Tid) returns (gate: TransactionGate?)
      requires Valid() && t !in threads
      requires done || path !in values || values[path].token
      modifies this, made
      ensures Valid() && fresh(made - old(made))
      ensures gate == null ==> done && values == old(values) && threads == old(threads)
      ensures gate != null ==> threads == old(threads)[t := Holding(path, gate)]
      ensures gate != null ==> path in values && values[path] == gate
      ensures gate != null ==> forall u :: u in threads && threads[u].Holding? && threads[u].path == path ==> u == t
    {
      hide Inv, Linked, Balanced, Holders, Users, Enabled, Apply;
      ghost var before := State();
      var joined := Join(path, t);
      var cancelled: bool := *;
      if done && (cancelled || !joined.token) {
        GiveUp(path, joined, t);
        Leave(path, joined, t);
        CancelUndoesEnter(before, t, path, joined);
        return null;
      }
      Receive(path, joined, t);
      SoleHolder(State(), t);
      return joined;
    }

    /** The function that acquireGate returns. */
    method ReleaseGate(path: string, gate: TransactionGate, ghost t: Tid)
      requires Valid() && t in threads && threads[t] == Holding(path, gate)
      modifies this, made
      ensures Valid() && threads == old(threads) - {t}
      ensures path in values <==> exists u :: u in threads && threads[u].path == path
    {
      hide Inv, Linked, Balanced, Holders, Users;
      Send(path, gate, t);
      Leave(path, gate, t);
      InTableWhileUsed(State(), path);
    }
  }

  /** Changing one gate, or adding it, is a map update. */
  lemma MergedIn<G>(s: Table<G>, s': Table<G>, gate: G)
    requires s'.gates.Keys == s.gates.Keys + {gate}
    requires forall g :: g in s.gates && g != gate ==> s'.gates[g] == s.gates[g]
    ensures s'.gates == s.gates[gate := s'.gates[gate]]
  {
  }

  lemma SoleHolder<G>(s: Table<G>, t: Tid)
    requires Inv(s) && t in s.threads && s.threads[t].Holding?
    ensures forall u :: u in s.threads && s.threads[u].Holding? && s.threads[u].path == s.threads[t].path ==> u == t
  {
    var g := s.threads[t].gate;
    assert Balanced(s, g);
    forall u | u in s.threads && s.threads[u].Holding? && s.threads[u].path == s.threads[t].path ensures u == t {
      assert u in Holders(s, g) && t in Holders(s, g);
      TwoMembers(Holders(s, g), t, u);
    }
  }
}
