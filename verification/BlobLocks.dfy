/**
The lock around each keychain operation (cache/keychain_lock.go, cache/keychain_lock_unix.go):
one mutex per process and key, then one file lock per key, released in the opposite order and
on every error path, with processes dying at any step.
*/
module BlobLocks {
  type Tid = nat

  type Process = nat

  /** Which process each thread belongs to. */
  type Home = Tid -> Process

  /** The number of a service and key; mutex and lock file are both chosen by that pair alone. */
  type LockId = nat

  /** What a thread of lockKeychain waits for or holds. */
  datatype Stage = WantMutex(key: LockId) | WantFlock(key: LockId) | Inside(key: LockId) | Unlocking(key: LockId)

  datatype State = State(mutexes: map<(Process, LockId), Tid>, flocks: map<LockId, Tid>, stages: map<Tid, Stage>)

  datatype Event =
    | Want(t: Tid, key: LockId)
    | TakeMutex(t: Tid)
    | Abort(t: Tid)
    | TakeFlock(t: Tid)
    | DropFlock(t: Tid)
    | DropMutex(t: Tid)
    | Kill(p: Process)

  predicate At(s: State, t: Tid, stage: Stage) { t in s.stages && s.stages[t] == stage }

  /** Taking a lock needs it free; everything else a thread can do at once. */
  predicate Enabled(home: Home, s: State, e: Event) {
    match e
    case Want(t, _) => t !in s.stages
    case TakeMutex(t) => t in s.stages && s.stages[t].WantMutex? && (home(t), s.stages[t].key) !in s.mutexes
    case Abort(t) => t in s.stages && s.stages[t].WantFlock?
    case TakeFlock(t) => t in s.stages && s.stages[t].WantFlock? && s.stages[t].key !in s.flocks
    case DropFlock(t) => t in s.stages && s.stages[t].Inside?
    case DropMutex(t) => t in s.stages && s.stages[t].Unlocking?
    case Kill(_) => true
  }

  function Apply(home: Home, s: State, e: Event): State
    requires Enabled(home, s, e)
  {
    match e
    case Want(t, key) => s.(stages := s.stages[t := WantMutex(key)])
    case TakeMutex(t) =>
      var key := s.stages[t].key;
      s.(mutexes := s.mutexes[(home(t), key) := t], stages := s.stages[t := WantFlock(key)])
    case Abort(t) => s.(mutexes := s.mutexes - {(home(t), s.stages[t].key)}, stages := s.stages - {t})
    case TakeFlock(t) =>
      var key := s.stages[t].key;
      s.(flocks := s.flocks[key := t], stages := s.stages[t := Inside(key)])
    case DropFlock(t) =>
      var key := s.stages[t].key;
      s.(flocks := s.flocks - {key}, stages := s.stages[t := Unlocking(key)])
    case DropMutex(t) => s.(mutexes := s.mutexes - {(home(t), s.stages[t].key)}, stages := s.stages - {t})
    case Kill(p) =>
      State(map m | m in s.mutexes && m.0 != p :: s.mutexes[m],
            map k | k in s.flocks && home(s.flocks[k]) != p :: s.flocks[k],
            map t | t in s.stages && home(t) != p :: s.stages[t])
  }

  /** Every mutex has the holder its stage says, and every holder its mutex. */
  ghost predicate MutexesMatch(home: Home, s: State) {
    && (forall t: Tid :: t in s.stages && !s.stages[t].WantMutex? ==>
          (home(t), s.stages[t].key) in s.mutexes && s.mutexes[(home(t), s.stages[t].key)] == t)
    && (forall m :: m in s.mutexes ==>
          var t := s.mutexes[m]; t in s.stages && !s.stages[t].WantMutex? && s.stages[t].key == m.1 && home(t) == m.0)
  }

  /** The same for the lock files, which all processes share. */
  ghost predicate FlocksMatch(s: State) {
    && (forall t: Tid :: t in s.stages && s.stages[t].Inside? ==>
         s.stages[t].key in s.flocks && s.flocks[s.stages[t].key] == t)
    && (forall k: LockId :: k in s.flocks ==> At(s, s.flocks[k], Inside(k)))
  }

  ghost predicate Inv(home: Home, s: State) { MutexesMatch(home, s) && FlocksMatch(s) }

  lemma MutexesKeep(home: Home, s: State, e: Event)
    requires Inv(home, s) && Enabled(home, s, e) && !e.Kill?
    ensures MutexesMatch(home, Apply(home, s, e))
  {
    hide FlocksMatch;
  }

  lemma FlocksKeep(home: Home, s: State, e: Event)
    requires Inv(home, s) && Enabled(home, s, e) && !e.Kill?
    ensures FlocksMatch(Apply(home, s, e))
  {
    hide MutexesMatch;
  }

  lemma KillKeeps(home: Home, s: State, p: Process)
    requires Inv(home, s)
    ensures Inv(home, Apply(home, s, Kill(p)))
  {
  }

  /** Every acquisition, release, error and death keeps locks and stages in step. */
  lemma StepKeeps(home: Home, s: State, e: Event)
    requires Inv(home, s) && Enabled(home, s, e)
    ensures Inv(home, Apply(home, s, e))
  {
    hide MutexesMatch, FlocksMatch, Enabled, Apply;
    if e.Kill? {
      KillKeeps(home, s, e.p);
    } else {
      MutexesKeep(home, s, e);
      FlocksKeep(home, s, e);
    }
  }

  ghost predicate IsRun(home: Home, states: seq<State>, events: seq<Event>) {
    && |states| == |events| + 1 && states[0] == State(map[], map[], map[])
    && forall i :: 0 <= i < |events| ==>
         Enabled(home, states[i], events[i]) && states[i + 1] == Apply(home, states[i], events[i])
  }

  lemma {:induction false} RunKeeps(home: Home, states: seq<State>, events: seq<Event>, i: nat)
    requires IsRun(home, states, events) && i < |states|
    ensures Inv(home, states[i])
  {
    if i > 0 {
      RunKeeps(home, states, events, i - 1);
      StepKeeps(home, states[i - 1], events[i - 1]);
    }
  }

  /** One operation per key at a time, over all processes, with deaths and errors anywhere. */
  lemma Exclusion(home: Home, states: seq<State>, events: seq<Event>, i: nat, t: Tid, u: Tid, key: LockId)
    requires IsRun(home, states, events) && i < |states|
    requires At(states[i], t, Inside(key)) && At(states[i], u, Inside(key))
    ensures t == u
  {
    RunKeeps(home, states, events, i);
  }

  /** A thread that got through, or gave up, leaves no lock behind. */
  lemma NothingLeftBehind(home: Home, states: seq<State>, events: seq<Event>, i: nat)
    requires IsRun(home, states, events) && i < |states| && states[i].stages == map[]
    ensures states[i].mutexes == map[] && states[i].flocks == map[]
  {
    RunKeeps(home, states, events, i);
  }

  /** The steps that bring an operation forward on its own. */
  predicate Forward(e: Event) { e.TakeMutex? || e.TakeFlock? || e.DropFlock? || e.DropMutex? }

  /** The blocked thread's lock chain ends, after at most two holders, in a thread that can move. */
  lemma Mover(home: Home, s: State, t: Tid) returns (e: Event)
    requires Inv(home, s) && t in s.stages
    ensures Forward(e) && Enabled(home, s, e)
  {
    var holder := t;
    if s.stages[t].WantMutex? && (home(t), s.stages[t].key) in s.mutexes {
      holder := s.mutexes[(home(t), s.stages[t].key)];
    }
    match s.stages[holder]
    case WantMutex(_) => e := TakeMutex(holder);
    case WantFlock(key) => e := if key in s.flocks then DropFlock(s.flocks[key]) else TakeFlock(holder);
    case Inside(_) => e := DropFlock(holder);
    case Unlocking(_) => e := DropMutex(holder);
  }
}
