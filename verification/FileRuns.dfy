/**
Any number of processes running Load, Save and Delete on one directory without a lock, one
file-system call at a time, with failing calls and any process dying at any step.
*/
module FileRuns {
  import opened Wrappers
  import opened FileOps
  import opened FileSteps

  type Pid = nat

  /**
  The programs under way. The last two fields only record: what each Load saw when it opened
  its blob file, and which programs had a failed call.
  */
  datatype System = System(disk: Disk, ops: map<Pid, Op>, promised: map<Pid, Outcome>, faulted: set<Pid>)

  datatype Event = Begin(p: Pid, op: Op) | Step(p: Pid, reply: Reply) | End(p: Pid) | Die(p: Pid)

  function PromiseTo(s: System, p: Pid): Outcome { if p in s.promised then s.promised[p] else Unreadable }

  ghost predicate Happens(cfg: Config, s: System, e: Event, s': System) {
    match e
    case Begin(p, op) => p !in s.ops && Initial(op) && s' == s.(ops := s.ops[p := op], faulted := s.faulted - {p})
    case Step(p, reply) =>
      && p in s.ops && Request(cfg, s.ops[p]).Some?
      && Moves(s.disk, Request(cfg, s.ops[p]).value, reply, s'.disk)
      && s' == System(s'.disk, s.ops[p := Resume(cfg, s.ops[p], reply)],
                      s.promised[p := Promise(cfg, s.disk.dir, s.ops[p], PromiseTo(s, p))],
                      if reply.Fault? then s.faulted + {p} else s.faulted)
    case End(p) => p in s.ops && Request(cfg, s.ops[p]).None? && s' == s.(ops := s.ops - {p})
    case Die(p) => p in s.ops && s' == s.(ops := s.ops - {p})
  }

  /** A run starts in an empty directory, before any program. */
  ghost predicate IsRun(cfg: Config, states: seq<System>, events: seq<Event>) {
    && |states| == |events| + 1
    && states[0] == System(Disk(Dir(map[], map[]), {}), map[], map[], {})
    && forall i :: 0 <= i < |events| ==> Happens(cfg, states[i], events[i], states[i + 1])
  }

  ghost predicate Knows(cfg: Config, s: System, p: Pid) {
    p in s.ops ==> Facts(cfg, s.disk, s.ops[p], PromiseTo(s, p)) && (Failed(s.ops[p]) ==> p in s.faulted)
  }

  ghost predicate Inv(cfg: Config, s: System) {
    && DirSound(cfg.cipher, s.disk)
    && (forall p: Pid :: Knows(cfg, s, p))
    && (forall p: Pid, q: Pid :: p in s.ops && q in s.ops && p != q ==> Apart(TempOf(s.ops[p]), TempOf(s.ops[q])))
  }

  /** A program's temporary file exists, so a new one differs from it. */
  lemma TempExists(cfg: Config, disk: Disk, op: Op, promise: Outcome)
    requires Facts(cfg, disk, op, promise)
    ensures TempOf(op).Some? ==> Owns(disk.dir, TempOf(op).value)
  {
    hide Sealed, Decrypt;
  }

  lemma CallKeeps(cfg: Config, s: System, p: Pid, reply: Reply, s': System)
    requires Inv(cfg, s) && Inverts(cfg.cipher) && Happens(cfg, s, Step(p, reply), s')
    ensures Inv(cfg, s')
  {
    hide Facts, DirSound, Request, Resume, TempOf, Failed, Steady, Owns;
    var op := s.ops[p];
    var call := Request(cfg, op).value;
    assert Knows(cfg, s, p);
    OpStep(cfg, s.disk, op, PromiseTo(s, p), call, reply, s'.disk);
    forall q: Pid ensures Knows(cfg, s', q) {
      assert Knows(cfg, s, q);
      if q in s.ops && q != p {
        OthersSteady(cfg.cipher, s.disk, TempOf(op), call, reply, s'.disk, TempOf(s.ops[q]));
        KeySoundHere(cfg.cipher, s.disk);
        FactsFrame(cfg, s.disk, s'.disk, s.ops[q], PromiseTo(s, q));
      }
    }
    forall q: Pid | q in s.ops && q != p ensures Apart(TempOf(s'.ops[p]), TempOf(s.ops[q])) {
      assert Knows(cfg, s, q);
      TempApart(cfg, s, p, q, call, reply, s'.disk);
    }
  }

  lemma TempApart(cfg: Config, s: System, p: Pid, q: Pid, call: Call, reply: Reply, disk': Disk)
    requires p in s.ops && q in s.ops && Facts(cfg, s.disk, s.ops[q], PromiseTo(s, q))
    requires Apart(TempOf(s.ops[p]), TempOf(s.ops[q])) && Moves(s.disk, call, reply, disk')
    requires TempMoves(TempOf(s.ops[p]), call, reply, TempOf(Resume(cfg, s.ops[p], reply)))
    ensures Apart(TempOf(Resume(cfg, s.ops[p], reply)), TempOf(s.ops[q]))
  {
    hide Facts, Resume, TempOf;
    TempExists(cfg, s.disk, s.ops[q], PromiseTo(s, q));
  }

  lemma InitialFacts(cfg: Config, disk: Disk, op: Op, promise: Outcome)
    requires Initial(op)
    ensures Facts(cfg, disk, op, promise) && TempOf(op) == None && !Failed(op)
  {
  }

  lemma StepKeeps(cfg: Config, s: System, e: Event, s': System)
    requires Inv(cfg, s) && Inverts(cfg.cipher) && Happens(cfg, s, e, s')
    ensures Inv(cfg, s')
  {
    hide Facts, DirSound, Request, Resume, TempOf, Failed, Initial;
    match e
    case Step(p, reply) => CallKeeps(cfg, s, p, reply, s');
    case Begin(p, op) =>
      InitialFacts(cfg, s.disk, op, PromiseTo(s, p));
      forall q: Pid ensures Knows(cfg, s', q) {
        assert Knows(cfg, s, q);
      }
    case _ =>
      forall q: Pid ensures Knows(cfg, s', q) {
        assert Knows(cfg, s, q);
      }
  }

  lemma {:induction false} RunKeeps(cfg: Config, states: seq<System>, events: seq<Event>, i: nat)
    requires IsRun(cfg, states, events) && Inverts(cfg.cipher) && i < |states|
    ensures Inv(cfg, states[i])
  {
    if i > 0 {
      RunKeeps(cfg, states, events, i - 1);
      StepKeeps(cfg, states[i - 1], events[i - 1], states[i]);
    }
  }

  // Key agreement

  lemma {:induction false} KeyNeverChanges(cfg: Config, states: seq<System>, events: seq<Event>, i: nat, j: nat)
    requires IsRun(cfg, states, events) && Inverts(cfg.cipher) && i <= j < |states|
    requires KeyFile in states[i].disk.dir.names
    ensures KeySound(states[i].disk)
    ensures KeyIs(states[j].disk.dir, states[i].disk.dir.data[states[i].disk.dir.names[KeyFile]])
  {
    RunKeeps(cfg, states, events, i);
    if i < j {
      KeyNeverChanges(cfg, states, events, i, j - 1);
      RunKeeps(cfg, states, events, j - 1);
      KeyKept(cfg, states[j - 1], events[j - 1], states[j]);
    }
  }

  lemma KeyKept(cfg: Config, s: System, e: Event, s': System)
    requires Inv(cfg, s) && Inverts(cfg.cipher) && Happens(cfg, s, e, s') && KeyFile in s.disk.dir.names
    ensures KeySound(s.disk) && KeyIs(s'.disk.dir, s.disk.dir.data[s.disk.dir.names[KeyFile]])
  {
    hide Facts, Request, Resume, TempOf, Failed;
    if e.Step? {
      var op := s.ops[e.p];
      assert Knows(cfg, s, e.p);
      OpStep(cfg, s.disk, op, PromiseTo(s, e.p), Request(cfg, op).value, e.reply, s'.disk);
      OthersSteady(cfg.cipher, s.disk, TempOf(op), Request(cfg, op).value, e.reply, s'.disk, None);
    }
  }

  function KeyResult(ks: KeyState): Option<Bytes> {
    if ks.DropTemp? || ks.KeyDone? then ks.r else None
  }

  /** The key a program's keyBytes has returned or is about to return. */
  function KeyObtained(op: Op): Option<Bytes> {
    match op
    case Load(_, _, st) => if st.LoadKey? then KeyResult(st.ks) else None
    case Save(_, _, _, st) =>
      (match st
       case SaveKey(ks) => KeyResult(ks)
       case SaveDir(k) => Some(k)
       case SaveTemp(k) => Some(k)
       case SaveMode(k, _) => Some(k)
       case SaveFill(k, _, _) => Some(k)
       case SaveFlush(k, _) => Some(k)
       case SaveRename(k, _) => Some(k)
       case _ => None)
    case Delete(_, _) => None
  }

  lemma ObtainedIsPublished(cfg: Config, disk: Disk, op: Op, promise: Outcome)
    requires Facts(cfg, disk, op, promise) && KeyObtained(op).Some?
    ensures KeyIs(disk.dir, KeyObtained(op).value)
  {
    hide Sealed, Decrypt;
  }

  /**
  However many first writers race, and whoever dies, every keyBytes that succeeds, at any time
  in any process, gets the same whole key, and it is what the key file holds from then on.
  */
  lemma KeyAgreement(cfg: Config, states: seq<System>, events: seq<Event>, i: nat, j: nat, p: Pid, q: Pid)
    requires IsRun(cfg, states, events) && Inverts(cfg.cipher) && i <= j < |states|
    requires p in states[i].ops && KeyObtained(states[i].ops[p]).Some?
    ensures |KeyObtained(states[i].ops[p]).value| == KEY_SIZE
    ensures KeyIs(states[j].disk.dir, KeyObtained(states[i].ops[p]).value)
    ensures q in states[j].ops && KeyObtained(states[j].ops[q]).Some? ==>
              KeyObtained(states[j].ops[q]) == KeyObtained(states[i].ops[p])
  {
    hide Facts, KeyObtained, Failed;
    RunKeeps(cfg, states, events, i);
    assert Knows(cfg, states[i], p);
    ObtainedIsPublished(cfg, states[i].disk, states[i].ops[p], PromiseTo(states[i], p));
    KeyNeverChanges(cfg, states, events, i, j);
    if q in states[j].ops && KeyObtained(states[j].ops[q]).Some? {
      RunKeeps(cfg, states, events, j);
      assert Knows(cfg, states[j], q);
      ObtainedIsPublished(cfg, states[j].disk, states[j].ops[q], PromiseTo(states[j], q));
    }
  }

  // Every key is an atomic register

  function EffectIn(cfg: Config, s: System, e: Event, key: string): Effect {
    if e.Step? && e.p in s.ops then EffectOn(cfg, s.ops[e.p], e.reply, key) else NoEffect
  }

  /**
  The file store refines an atomic register per key without a lock: what Load would yield
  changes only when a Save renames its ciphertext into place and when a Delete removes it.
  */
  lemma AtomicRegister(cfg: Config, states: seq<System>, events: seq<Event>, key: string, i: nat)
    requires IsRun(cfg, states, events) && Inverts(cfg.cipher) && i < |events|
    ensures View(cfg, states[i + 1].disk.dir, key)
            == Register(View(cfg, states[i].disk.dir, key), EffectIn(cfg, states[i], events[i], key))
    ensures View(cfg, states[i].disk.dir, key).Loaded?
  {
    hide Facts, Request, Failed, Decrypt, TempOf;
    RunKeeps(cfg, states, events, i);
    var s, e := states[i], events[i];
    assert Happens(cfg, s, e, states[i + 1]);
    if e.Step? {
      assert Knows(cfg, s, e.p);
      RegisterStep(cfg, s.disk, s.ops[e.p], PromiseTo(s, e.p), Request(cfg, s.ops[e.p]).value, e.reply,
          states[i + 1].disk, key);
    }
    ViewLoads(cfg, s.disk, key);
  }

  lemma ViewLoads(cfg: Config, disk: Disk, key: string)
    requires DirSound(cfg.cipher, disk) && Inverts(cfg.cipher)
    ensures View(cfg, disk.dir, key).Loaded?
  {
    hide Decrypt, Whole;
    var h := cfg.hash(key);
    assert BlobSound(cfg.cipher, disk, h);
    if Blob(h) in disk.dir.names {
      WholeOpens(cfg.cipher, disk.dir.data[disk.dir.names[KeyFile]], disk.dir.data[disk.dir.names[Blob(h)]]);
    }
  }

  /** At every instant each blob file is absent or one writer's whole ciphertext under the published key. */
  lemma BlobsWhole(cfg: Config, states: seq<System>, events: seq<Event>, i: nat, h: string)
    requires IsRun(cfg, states, events) && Inverts(cfg.cipher) && i < |states|
    ensures BlobSound(cfg.cipher, states[i].disk, h)
  {
    RunKeeps(cfg, states, events, i);
  }

  /** Program p neither starts, ends nor dies strictly between states i and j. */
  predicate Continues(events: seq<Event>, p: Pid, i: nat, j: nat) {
    j <= |events| && forall k :: i <= k < j ==> events[k].p != p || events[k].Step?
  }

  predicate PastOpen(op: Op) { op.Load? && !op.load.LoadOpen? }

  lemma {:induction false} PromiseKept(cfg: Config, states: seq<System>, events: seq<Event>, i: nat, j: nat, p: Pid)
    requires IsRun(cfg, states, events) && i <= j < |states| && Continues(events, p, i, j)
    requires p in states[i].ops && PastOpen(states[i].ops[p])
    ensures p in states[j].ops && PastOpen(states[j].ops[p]) && PromiseTo(states[j], p) == PromiseTo(states[i], p)
  {
    hide LoadResume, LoadRequest, SaveRequest;
    if i < j {
      PromiseKept(cfg, states, events, i, j - 1, p);
      var s := states[j - 1];
      if events[j - 1].p == p {
        StaysOpen(cfg, s.ops[p], events[j - 1].reply);
      }
    }
  }

  lemma StaysOpen(cfg: Config, op: Op, reply: Reply)
    requires op.Load?
    ensures PastOpen(Resume(cfg, op, reply))
  {
  }

  /** A Load that returns a value returns the register's value at the moment it opened the blob file. */
  lemma LoadReturnsTheValue(cfg: Config, states: seq<System>, events: seq<Event>, i: nat, j: nat, p: Pid, blob: Bytes)
    requires IsRun(cfg, states, events) && Inverts(cfg.cipher) && i < j < |states| && Continues(events, p, i, j)
    requires p in states[i].ops && states[i].ops[p].Load? && states[i].ops[p].load.LoadOpen? && events[i].p == p
    requires p in states[j].ops && states[j].ops[p].Load? && states[j].ops[p].load == LoadDone(Loaded(blob))
    ensures View(cfg, states[i].disk.dir, states[i].ops[p].key) == Loaded(blob)
  {
    hide LoadResume, LoadRequest, SaveRequest, View;
    assert events[i].Step?;
    StaysOpen(cfg, states[i].ops[p], events[i].reply);
    PromiseKept(cfg, states, events, i + 1, j, p);
    RunKeeps(cfg, states, events, j);
    assert Knows(cfg, states[j], p);
  }

  /** A program fails only if one of its own file-system calls failed; losing a race is no failure. */
  lemma {:induction false} FailsOnlyOnFault(cfg: Config, states: seq<System>, events: seq<Event>, j: nat, i: nat,
      p: Pid)
    requires IsRun(cfg, states, events) && Inverts(cfg.cipher) && j < i < |states|
    requires events[j].Begin? && events[j].p == p && forall k :: j < k < i ==> events[k] != Step(p, Fault)
    ensures p !in states[i].faulted
    ensures p in states[i].ops ==> !Failed(states[i].ops[p])
  {
    hide Facts, Failed, Request, Resume;
    if j + 1 < i {
      FailsOnlyOnFault(cfg, states, events, j, i - 1, p);
    }
    RunKeeps(cfg, states, events, i);
    assert Happens(cfg, states[i - 1], events[i - 1], states[i]);
    assert Knows(cfg, states[i], p);
  }

  // Temporary files

  ghost predicate OwnedTemp(s: System, id: nat) {
    exists p: Pid :: p in s.ops && TempOf(s.ops[p]).Some? && TempOf(s.ops[p]).value.id == id
  }

  /** No program dies and no removal fails. */
  predicate Tidy(cfg: Config, s: System, e: Event) {
    !e.Die? && (e.Step? && e.p in s.ops && e.reply.Fault? ==>
        Request(cfg, s.ops[e.p]).Some? && !Request(cfg, s.ops[e.p]).value.Unlink?)
  }

  lemma KeyLetsGo(nk: Bytes, ks: KeyState, reply: Reply)
    requires KeyTemp(ks).Some? && KeyTemp(KeyResume(nk, ks, reply)) == None
    ensures KeyRequest(nk, ks) == Some(Unlink(Temp(KeyTemp(ks).value.id)))
  {
  }

  /** A program lets go of its temporary file only when it removes or renames it. */
  lemma LetsGo(cfg: Config, op: Op, reply: Reply)
    requires TempOf(op).Some? && TempOf(Resume(cfg, op, reply)) == None
    ensures var temp := Temp(TempOf(op).value.id);
            || Request(cfg, op) == Some(Unlink(temp))
            || (Request(cfg, op) == Some(Rename(temp, Blob(cfg.hash(op.key)))) && reply.Done?)
  {
    hide Sealed, Decrypt, KeyResume, KeyRequest, KeyTemp;
    if op.Load? && op.load.LoadKey? {
      DoneHasNoTemp(op.draw.key, op.load.ks, reply);
      KeyLetsGo(op.draw.key, op.load.ks, reply);
    } else if op.Save? && op.save.SaveKey? {
      DoneHasNoTemp(op.draw.key, op.save.ks, reply);
      KeyLetsGo(op.draw.key, op.save.ks, reply);
    }
  }

  lemma DoneHasNoTemp(nk: Bytes, ks: KeyState, reply: Reply)
    ensures KeyResume(nk, ks, reply).KeyDone? ==> KeyTemp(KeyResume(nk, ks, reply)) == None
  {
  }

  lemma EndedOwnsNothing(cfg: Config, op: Op)
    requires Request(cfg, op).None?
    ensures TempOf(op) == None
  {
  }

  lemma TempsStayOwned(cfg: Config, s: System, e: Event, s': System, id: nat)
    requires Inv(cfg, s) && Inverts(cfg.cipher) && Happens(cfg, s, e, s') && Tidy(cfg, s, e)
    requires Temp(id) in s.disk.dir.names ==> OwnedTemp(s, id)
    requires Temp(id) in s'.disk.dir.names
    ensures OwnedTemp(s', id)
  {
    hide Facts, Failed, Request, Resume, TempOf, DirSound, Promise;
    if e.Step? {
      var op, call := s.ops[e.p], Request(cfg, s.ops[e.p]).value;
      assert Knows(cfg, s, e.p);
      OpStep(cfg, s.disk, op, PromiseTo(s, e.p), call, e.reply, s'.disk);
      var op' := Resume(cfg, op, e.reply);
      if Temp(id) in s.disk.dir.names {
        var p: Pid :| p in s.ops && TempOf(s.ops[p]).Some? && TempOf(s.ops[p]).value.id == id;
        if p == e.p && TempOf(op') == None {
          LetsGo(cfg, op, e.reply);
        }
        assert p in s'.ops && TempOf(s'.ops[p]) == TempOf(s.ops[p]);
      } else {
        assert e.p in s'.ops && TempOf(s'.ops[e.p]).value.id == id;
      }
    } else {
      var p: Pid :| p in s.ops && TempOf(s.ops[p]).Some? && TempOf(s.ops[p]).value.id == id;
      if e.End? {
        EndedOwnsNothing(cfg, s.ops[e.p]);
      }
      assert p in s'.ops && TempOf(s'.ops[p]) == TempOf(s.ops[p]);
    }
  }

  /** Without deaths and failed removals every temporary file belongs to a program under way. */
  lemma {:induction false} NoLitter(cfg: Config, states: seq<System>, events: seq<Event>, i: nat, id: nat)
    requires IsRun(cfg, states, events) && Inverts(cfg.cipher) && i < |states|
    requires forall k :: 0 <= k < i ==> Tidy(cfg, states[k], events[k])
    ensures Temp(id) in states[i].disk.dir.names ==> OwnedTemp(states[i], id)
  {
    hide Happens, Inv, OwnedTemp, Tidy;
    if i > 0 && Temp(id) in states[i].disk.dir.names {
      NoLitter(cfg, states, events, i - 1, id);
      RunKeeps(cfg, states, events, i - 1);
      TempsStayOwned(cfg, states[i - 1], events[i - 1], states[i], id);
    }
  }
}
