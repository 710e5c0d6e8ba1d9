/**
runTransaction and the view it lends its callback (cache/transaction.go), as they run in one
thread: whatever the file system, the context and the callback do, gate, lock file and view
are given back, and the view reaches the store only while both locks are held.
*/
module TransactionRun {
  import opened Wrappers
  import Gates
  import opened GateTable
  import Transactions

  datatype Error =
    | NilCallback
    | Cancelled
    | FileFault
    | NotRegular
    | LockFault
    | LockChanged
    | ViewClosed
    | FromCallback

  /** One reply of the lock attempt. */
  datatype Poll = Busy | Free | Fault

  /** What the lock path turned out to be when it was inspected. */
  datatype Inspection = Regular | Missing | Irregular | Unreadable

  /**
  What file system and context answered, in the order of the calls. The context is found done
  when the polls run out.
  */
  datatype Calls = Calls(
    nilCallback: bool,
    doneFirst: bool,
    directory: bool,
    doneAtGate: bool,
    before: Inspection,
    openable: bool,
    polls: seq<Poll>,
    after: Inspection,
    sameFile: bool,
    doneLast: bool)

  /**
  A callback: what it knows at the start, when it returns and with which result, what its next
  operation does to the store and teaches it, given how the store answers, and what it makes of
  being refused.
  */
  datatype Callback<!S, !C, !R> = Callback(
    start: C, done: C -> bool, result: C -> Option<Error>, act: (S, C, R) -> (S, C), told: (C, Error) -> C)

  /** How one use of the view goes: a context is done, or the store answers somehow. */
  datatype Use<!R> = Late | Served(r: R)

  class Backend<S> {
    var value: S

    constructor (value: S)
      ensures this.value == value
    {
      this.value := value;
    }
  }

  /** The open lock file; held is the operating system's lock on this handle. */
  class Handle {
    var open: bool
    var held: bool

    constructor ()
      ensures open && !held
    {
      open, held := true, false;
    }
  }

  class View<S> {
    const backend: Backend<S>
    const handle: Handle
    ghost const gates: TransactionGates
    ghost const t: nat
    var active: bool

    /** An open view's transaction holds its gate and its lock file. */
    ghost predicate Valid()
      reads this, handle, gates
    {
      active ==> handle.open && handle.held && t in gates.threads && gates.threads[t].Holding?
    }

    constructor (backend: Backend<S>, handle: Handle, ghost gates: TransactionGates, ghost t: nat)
      requires handle.open && handle.held && t in gates.threads && gates.threads[t].Holding?
      ensures Valid() && active
      ensures this.backend == backend && this.handle == handle && this.gates == gates && this.t == t
    {
      this.backend, this.handle, this.gates, this.t, active := backend, handle, gates, t, true;
    }

    /** Load, Save or Delete on the view: refused when closed or cancelled, and otherwise under both locks. */
    method Call<C, R>(callback: Callback<S, C, R>, c: C, use: Use<R>) returns (c': C, err: Option<Error>)
      requires Valid()
      modifies backend
      ensures Valid()
      ensures err == if !active then Some(ViewClosed) else if use.Late? then Some(Cancelled) else None
      ensures (backend.value, c')
              == if err.None? then callback.act(old(backend.value), c, use.r)
                 else (old(backend.value), callback.told(c, err.value))
      ensures err.None? ==> handle.held && t in gates.threads && gates.threads[t].Holding?
    {
      if !active {
        return callback.told(c, ViewClosed), Some(ViewClosed);
      }
      if use.Late? {
        return callback.told(c, Cancelled), Some(Cancelled);
      }
      var next := callback.act(backend.value, c, use.r);
      backend.value := next.0;
      return next.1, None;
    }
  }

  /** The callback as Transactions knows it. */
  function BodyOf<S, C, R>(callback: Callback<S, C, R>): Transactions.Body<S, C, Use<R>> {
    Transactions.Body(
      callback.start, callback.done,
      (value: S, c: C, use: Use<R>) =>
        if use.Late? then (value, callback.told(c, Cancelled)) else callback.act(value, c, use.r))
  }

  function FirstUses<R>(uses: nat -> Use<R>, n: nat): seq<Use<R>> { seq(n, i requires 0 <= i < n => uses(i)) }

  /** Store and knowledge after n operations of the callback, as its journal entry has them. */
  function Ran<S, C, R>(callback: Callback<S, C, R>, uses: nat -> Use<R>, value: S, n: nat): (S, C) {
    Transactions.Exec(value, BodyOf(callback), FirstUses(uses, n))
  }

  lemma RanNext<S, C, R>(callback: Callback<S, C, R>, uses: nat -> Use<R>, value: S, n: nat)
    ensures Ran(callback, uses, value, 0) == (value, callback.start)
    ensures var before := Ran(callback, uses, value, n);
            Ran(callback, uses, value, n + 1)
            == if uses(n).Late? then (before.0, callback.told(before.1, Cancelled))
               else callback.act(before.0, before.1, uses(n).r)
  {
    assert FirstUses(uses, n + 1)[..n] == FirstUses(uses, n);
  }

  /** The callback returns after at most as many operations as its rank says. */
  ghost predicate Returns<S(!new), C(!new), R(!new)>(callback: Callback<S, C, R>, rank: C -> nat) {
    && (forall s: S, c: C, r: R :: !callback.done(c) ==> rank(callback.act(s, c, r).1) < rank(c))
    && (forall c: C, e: Error :: !callback.done(c) ==> rank(callback.told(c, e)) < rank(c))
  }

  /** The callback ran to its end: it made n operations, and was done after these and not before. */
  predicate RanToEnd<S, C, R>(callback: Callback<S, C, R>, uses: nat -> Use<R>, value: S, n: nat) {
    && callback.done(Ran(callback, uses, value, n).1)
    && forall k :: 0 <= k < n ==> !callback.done(Ran(callback, uses, value, k).1)
  }

  /** How the polling ends: with the first reply that is not Busy, or with the context. */
  function Polled(polls: seq<Poll>): Option<Error> {
    if polls == [] then Some(Cancelled)
    else match polls[0]
      case Busy => Polled(polls[1..])
      case Free => None
      case Fault => Some(LockFault)
  }

  /** The error that keeps the callback from running, if the gate is passed. */
  function Verdict(calls: Calls): Option<Error> {
    if calls.nilCallback then Some(NilCallback)
    else if calls.doneFirst then Some(Cancelled)
    else if !calls.directory then Some(FileFault)
    else if calls.before.Irregular? then Some(NotRegular)
    else if calls.before.Unreadable? || !calls.openable then Some(FileFault)
    else if Polled(calls.polls).Some? then Polled(calls.polls)
    else if calls.after.Missing? || calls.after.Unreadable? then Some(FileFault)
    else if calls.after.Irregular? || !calls.sameFile then Some(LockChanged)
    else if calls.doneLast then Some(Cancelled)
    else None
  }

  /** Polling obtains the lock, fails or runs out by the first reply that is not Busy. */
  lemma {:induction false} PolledExactly(polls: seq<Poll>)
    ensures Polled(polls).None? <==>
              exists k :: 0 <= k < |polls| && polls[k].Free? && forall j :: 0 <= j < k ==> polls[j].Busy?
    ensures Polled(polls) == Some(LockFault) <==>
              exists k :: 0 <= k < |polls| && polls[k].Fault? && forall j :: 0 <= j < k ==> polls[j].Busy?
    ensures Polled(polls) == Some(Cancelled) <==> forall k :: 0 <= k < |polls| ==> polls[k].Busy?
    ensures Polled(polls) in {None, Some(LockFault), Some(Cancelled)}
  {
    hide Polled;
    var n := 0;
    while n < |polls| && polls[n].Busy?
      invariant 0 <= n <= |polls| && forall j :: 0 <= j < n ==> polls[j].Busy?
    {
      n := n + 1;
    }
    PolledSkips(polls, n);
    PolledStarts(polls[n..]);
  }

  lemma PolledStarts(polls: seq<Poll>)
    ensures polls == [] ==> Polled(polls) == Some(Cancelled)
    ensures polls != [] && polls[0].Free? ==> Polled(polls) == None
    ensures polls != [] && polls[0].Fault? ==> Polled(polls) == Some(LockFault)
  {
  }

  lemma {:induction false} PolledSkips(polls: seq<Poll>, n: nat)
    requires n <= |polls| && forall k :: 0 <= k < n ==> polls[k].Busy?
    ensures Polled(polls) == Polled(polls[n..])
  {
    if n > 0 {
      PolledSkips(polls[1..], n - 1);
      assert polls[1..][n - 1..] == polls[n..];
    }
  }

  /** Polls until the lock is obtained, an attempt fails or the context is done. */
  method LockFile(handle: Handle, polls: seq<Poll>) returns (err: Option<Error>)
    requires handle.open && !handle.held
    modifies handle
    ensures err == Polled(polls) && handle.open && handle.held == err.None?
    ensures err.None? <==>
              exists k :: 0 <= k < |polls| && polls[k].Free? && forall j :: 0 <= j < k ==> polls[j].Busy?
    ensures err == Some(LockFault) <==>
              exists k :: 0 <= k < |polls| && polls[k].Fault? && forall j :: 0 <= j < k ==> polls[j].Busy?
    ensures err == Some(Cancelled) <==> forall k :: 0 <= k < |polls| ==> polls[k].Busy?
    ensures err in {None, Some(LockFault), Some(Cancelled)}
  {
    PolledExactly(polls);
    var i := 0;
    while i < |polls|
      invariant 0 <= i <= |polls| && forall k :: 0 <= k < i ==> polls[k].Busy?
      invariant handle.open && !handle.held
    {
      PolledSkips(polls, i);
      if polls[i].Fault? {
        return Some(LockFault);
      }
      if polls[i].Free? {
        handle.held := true;
        return None;
      }
      i := i + 1;
    }
    PolledSkips(polls, i);
    return Some(Cancelled);
  }

  /** The callback's operations on the view, each decided from what the ones before told it. */
  method RunCallback<S(!new), C(!new), R(!new)>(
    view: View<S>, callback: Callback<S, C, R>, uses: nat -> Use<R>, ghost rank: C -> nat)
    returns (result: Option<Error>, ghost n: nat)
    requires view.Valid() && view.active && Returns(callback, rank)
    modifies view.backend
    ensures view.Valid() && view.active
    ensures RanToEnd(callback, uses, old(view.backend.value), n)
    ensures view.backend.value == Ran(callback, uses, old(view.backend.value), n).0
    ensures result == callback.result(Ran(callback, uses, old(view.backend.value), n).1)
  {
    hide Ran;
    var c, i := callback.start, 0;
    RanNext(callback, uses, view.backend.value, 0);
    while !callback.done(c)
      invariant view.Valid() && view.active
      invariant (view.backend.value, c) == Ran(callback, uses, old(view.backend.value), i)
      invariant forall k :: 0 <= k < i ==> !callback.done(Ran(callback, uses, old(view.backend.value), k).1)
      decreases rank(c)
    {
      RanNext(callback, uses, old(view.backend.value), i);
      var next, _ := view.Call(callback, c, uses(i));
      c, i := next, i + 1;
    }
    return callback.result(c), i;
  }

  /** The callback may run, told by the calls alone. */
  lemma VerdictExactly(calls: Calls)
    ensures Verdict(calls).None? <==>
              && !calls.nilCallback && !calls.doneFirst && calls.directory
              && calls.before in {Regular, Missing} && calls.openable
              && (exists k :: 0 <= k < |calls.polls| && calls.polls[k].Free?
                              && forall j :: 0 <= j < k ==> calls.polls[j].Busy?)
              && calls.after == Regular && calls.sameFile && !calls.doneLast
    ensures Verdict(calls)
            == if calls.nilCallback then Some(NilCallback)
               else if calls.doneFirst then Some(Cancelled)
               else if !calls.directory then Some(FileFault)
               else if calls.before == Irregular then Some(NotRegular)
               else if calls.before == Unreadable || !calls.openable then Some(FileFault)
               else if forall k :: 0 <= k < |calls.polls| ==> calls.polls[k].Busy? then Some(Cancelled)
               else if exists k :: 0 <= k < |calls.polls| && calls.polls[k].Fault?
                                   && forall j :: 0 <= j < k ==> calls.polls[j].Busy?
               then Some(LockFault)
               else if calls.after in {Missing, Unreadable} then Some(FileFault)
               else if calls.after == Irregular || !calls.sameFile then Some(LockChanged)
               else if calls.doneLast then Some(Cancelled)
               else None
  {
    hide Polled;
    PolledExactly(calls.polls);
  }

  /**
  runTransaction from the moment its gate's select can proceed. It runs the callback, to its
  end, exactly when no call on the way failed; on every path the gate is left, the lock file
  unlocked and closed, and the view shut for good.
  */
  method RunTransaction<S(!new), C(!new), R(!new)>(
    gates: TransactionGates, path: string, backend: Backend<S>, calls: Calls,
    callback: Callback<S, C, R>, uses: nat -> Use<R>, ghost rank: C -> nat, ghost t: nat)
    returns (err: Option<Error>, handle: Handle?, view: View?<S>, ghost n: nat)
    requires gates.Valid() && t !in gates.threads && Returns(callback, rank)
    requires calls.doneAtGate || path !in gates.values || gates.values[path].token
    modifies gates, gates.made, backend
    ensures gates.Valid() && gates.threads == old(gates.threads)
    ensures handle != null ==> fresh(handle) && !handle.open && !handle.held
    ensures view != null ==> fresh(view) && view.Valid() && !view.active
    ensures view == null ==> err.Some? && backend.value == old(backend.value)
    ensures view != null || !calls.doneAtGate ==>
              (view != null <==>
               && !calls.nilCallback && !calls.doneFirst && calls.directory
               && calls.before in {Regular, Missing} && calls.openable
               && (exists k :: 0 <= k < |calls.polls| && calls.polls[k].Free?
                               && forall j :: 0 <= j < k ==> calls.polls[j].Busy?)
               && calls.after == Regular && calls.sameFile && !calls.doneLast)
    ensures view == null ==>
              err == (if calls.nilCallback then Some(NilCallback)
                      else if calls.doneFirst then Some(Cancelled)
                      else if !calls.directory then Some(FileFault)
                      else if calls.before == Irregular then Some(NotRegular)
                      else if calls.before == Unreadable || !calls.openable then Some(FileFault)
                      else if forall k :: 0 <= k < |calls.polls| ==> calls.polls[k].Busy? then Some(Cancelled)
                      else if exists k :: 0 <= k < |calls.polls| && calls.polls[k].Fault?
                                          && forall j :: 0 <= j < k ==> calls.polls[j].Busy?
                      then Some(LockFault)
                      else if calls.after in {Missing, Unreadable} then Some(FileFault)
                      else if calls.after == Irregular || !calls.sameFile then Some(LockChanged)
                      else if calls.doneLast then Some(Cancelled)
                      else None)
              || (calls.doneAtGate && !calls.nilCallback && calls.directory && err == Some(Cancelled))
    ensures view != null ==> RanToEnd(callback, uses, old(backend.value), n)
    ensures view != null ==>
              && backend.value == Ran(callback, uses, old(backend.value), n).0
              && err == callback.result(Ran(callback, uses, old(backend.value), n).1)
  {
    hide Gates.Inv, Polled, Ran, RanToEnd, Returns, Verdict;
    VerdictExactly(calls);
    handle, view, n := null, null, 0;
    if calls.nilCallback {
      err := Some(NilCallback);
      return;
    }
    if calls.doneFirst {
      err := Some(Cancelled);
      return;
    }
    if !calls.directory {
      err := Some(FileFault);
      return;
    }
    var gate := gates.AcquireGate(path, calls.doneAtGate, t);
    if gate == null {
      err := Some(Cancelled);
      return;
    }
    err, handle, view, n := Guarded(gates, backend, calls, callback, uses, rank, t);
    gates.ReleaseGate(path, gate, t);
  }

  /** The part that runs with the gate's token. */
  method Guarded<S(!new), C(!new), R(!new)>(
    gates: TransactionGates, backend: Backend<S>, calls: Calls, callback: Callback<S, C, R>,
    uses: nat -> Use<R>, ghost rank: C -> nat, ghost t: nat)
    returns (err: Option<Error>, handle: Handle?, view: View?<S>, ghost n: nat)
    requires t in gates.threads && gates.threads[t].Holding? && Returns(callback, rank)
    requires !calls.nilCallback && !calls.doneFirst && calls.directory
    modifies backend
    ensures handle != null ==> fresh(handle) && !handle.open && !handle.held
    ensures view != null ==> fresh(view) && view.Valid() && !view.active
    ensures view == null ==> err.Some? && err == Verdict(calls) && backend.value == old(backend.value)
    ensures view != null ==> Verdict(calls).None? && RanToEnd(callback, uses, old(backend.value), n)
    ensures view != null ==>
              && backend.value == Ran(callback, uses, old(backend.value), n).0
              && err == callback.result(Ran(callback, uses, old(backend.value), n).1)
  {
    hide Ran, RanToEnd, Returns, Polled;
    handle, view, n := null, null, 0;
    if calls.before.Irregular? {
      err := Some(NotRegular);
      return;
    }
    if calls.before.Unreadable? || !calls.openable {
      err := Some(FileFault);
      return;
    }
    handle := new Handle();
    err := LockFile(handle, calls.polls);
    if err.None? {
      err, view, n := Locked(gates, handle, backend, calls, callback, uses, rank, t);
      handle.held := false;
    }
    handle.open := false;
  }

  /** The part that runs with the lock file. */
  method Locked<S(!new), C(!new), R(!new)>(
    gates: TransactionGates, handle: Handle, backend: Backend<S>, calls: Calls,
    callback: Callback<S, C, R>, uses: nat -> Use<R>, ghost rank: C -> nat, ghost t: nat)
    returns (err: Option<Error>, view: View?<S>, ghost n: nat)
    requires t in gates.threads && gates.threads[t].Holding? && handle.open && handle.held && Returns(callback, rank)
    modifies backend
    ensures view != null ==> fresh(view) && view.handle == handle && view.gates == gates && !view.active
    ensures view == null ==> err.Some? && backend.value == old(backend.value)
    ensures view == null ==>
              err == if calls.after.Missing? || calls.after.Unreadable? then Some(FileFault)
                     else if calls.after.Irregular? || !calls.sameFile then Some(LockChanged) else Some(Cancelled)
    ensures view == null <==> !calls.after.Regular? || !calls.sameFile || calls.doneLast
    ensures view != null ==> RanToEnd(callback, uses, old(backend.value), n)
    ensures view != null ==>
              && backend.value == Ran(callback, uses, old(backend.value), n).0
              && err == callback.result(Ran(callback, uses, old(backend.value), n).1)
  {
    hide Ran, RanToEnd, Returns;
    view, n := null, 0;
    if calls.after.Missing? || calls.after.Unreadable? {
      return Some(FileFault), null, 0;
    }
    if calls.after.Irregular? || !calls.sameFile {
      return Some(LockChanged), null, 0;
    }
    if calls.doneLast {
      return Some(Cancelled), null, 0;
    }
    view := new View(backend, handle, gates, t);
    err, n := RunCallback(view, callback, uses, rank);
    view.active := false;
  }
}
