/**
lockKeychain as it runs in one thread (cache/keychain_lock.go, cache/keychain_lock_unix.go):
the process mutex of a service and key, then the file lock, both given back on every error.
*/
module KeychainLocks {
  import opened Wrappers
  import opened Text

  /** What mutex and lock file are chosen by. */
  function LockName(service: string, key: string): string { service + ['\0'] + key }

  /** Services without NUL bytes never share a mutex or a lock file between different pairs. */
  lemma LockNamesApart(service: string, key: string, service': string, key': string)
    requires '\0' !in service && '\0' !in service'
    ensures LockName(service, key) == LockName(service', key') <==> service == service' && key == key'
  {
    if LockName(service, key) == LockName(service', key') {
      CutUnique(service, key, service', key', '\0');
    }
  }

  class Mutex {
    var locked: bool

    constructor ()
      ensures !locked
    {
      locked := false;
    }
  }

  /** The open lock file; held is the operating system's lock on this handle. */
  class Handle {
    var open: bool
    var held: bool

    constructor ()
      ensures open && !held
    {
      open, held := true, false;
    }
  }

  /** What the operating system answers, in the order of the calls; a Flock that returns nil has the lock. */
  datatype Calls = Calls(cacheDir: bool, lockDir: bool, openable: bool, flock: bool)

  /** The function lockKeychain returns, with what it closes over. */
  datatype Unlocker = Unlocker(mutex: Mutex, handle: Handle)

  class KeychainMutexes {
    /** Entries are added and never removed. */
    var values: map<string, Mutex>

    /** Different names have different mutexes. */
    ghost predicate Valid()
      reads this
    {
      forall a, b :: a in values && b in values && values[a] == values[b] ==> a == b
    }

    predicate Locked(name: string)
      reads this, if name in values then {values[name]} else {}
    {
      name in values && values[name].locked
    }

    constructor ()
      ensures Valid() && values == map[]
    {
      values := map[];
    }

    /** LoadOrStore, then Lock at the moment the mutex is free. */
    method LockProcess(service: string, key: string) returns (mutex: Mutex)
      requires Valid() && !Locked(LockName(service, key))
      modifies this, if LockName(service, key) in values then {values[LockName(service, key)]} else {}
      ensures Valid() && mutex.locked && values == old(values)[LockName(service, key) := mutex]
      ensures if LockName(service, key) in old(values) then mutex == old(values[LockName(service, key)])
                else fresh(mutex)
    {
      var id := LockName(service, key);
      if id !in values {
        mutex := new Mutex();
        values := values[id := mutex];
      }
      mutex := values[id];
      mutex.locked := true;
    }

    /**
    Returns both locks, or neither: on an error the mutex is free again and no handle holds the
    file lock. The mutexes of all other names stay as they are.
    */
    method LockKeychain(service: string, key: string, calls: Calls) returns (unlock: Option<Unlocker>,
            ghost handle: Handle?)
      requires Valid() && !Locked(LockName(service, key))
      modifies this, if LockName(service, key) in values then {values[LockName(service, key)]} else {}
      ensures Valid()
      ensures forall n :: n != LockName(service, key) ==> (n in values <==> n in old(values))
      ensures forall n :: n != LockName(service, key) && n in values ==> values[n] == old(values[n])
      ensures unlock.Some? <==> calls.cacheDir && calls.lockDir && calls.openable && calls.flock
      ensures unlock.Some? ==> Locked(LockName(service, key)) && unlock.value.mutex == values[LockName(service, key)]
      ensures unlock.Some? ==> fresh(unlock.value.handle) && unlock.value.handle.open && unlock.value.handle.held
      ensures unlock.None? ==> !Locked(LockName(service, key))
      ensures unlock.None? && handle != null ==> fresh(handle) && !handle.open && !handle.held
    {
      handle := null;
      var mutex := LockProcess(service, key);
      if !calls.cacheDir {
        mutex.locked := false;
        return None, null;
      }
      if !calls.lockDir {
        mutex.locked := false;
        return None, null;
      }
      if !calls.openable {
        mutex.locked := false;
        return None, null;
      }
      var f := new Handle();
      if !calls.flock {
        f.open := false;
        mutex.locked := false;
        return None, f;
      }
      f.held := true;
      return Some(Unlocker(mutex, f)), f;
    }

    /** The lock file goes first, then the mutex. */
    method Unlock(name: string, unlock: Unlocker)
      requires Valid() && name in values && values[name] == unlock.mutex && unlock.handle.held && unlock.mutex.locked
      modifies unlock.mutex, unlock.handle
      ensures Valid() && !Locked(name) && !unlock.handle.open && !unlock.handle.held
      ensures forall n :: n in values && n != name ==> Locked(n) == old(Locked(n))
    {
      unlock.handle.held := false;
      unlock.handle.open := false;
      unlock.mutex.locked := false;
    }
  }
}
