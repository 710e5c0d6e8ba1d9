/**
The encrypted-file store as its code runs (cache/file.go): methods that change a directory one
call at a time, each proved to follow its program of FileOps from its first call to its result.
*/
module FileStore {
  import opened Wrappers
  import opened FileOps
  import opened FileSteps
  import FileReads

  /** What Load of the program's own key sees by the time the program has got there. */
  function Expected(op: Op, before: Outcome): Outcome {
    match op
    case Save(_, blob, _, st) => if st == SaveDone(true) then Loaded(blob) else before
    case Delete(_, st) => if st == DeleteDone(true) then Loaded("") else before
    case Load(_, _, _) => before
  }

  lemma ExpectedStep(cfg: Config, op: Op, reply: Reply, before: Outcome)
    requires Request(cfg, op).Some?
    ensures Register(Expected(op, before), EffectOf(op, reply)) == Expected(Resume(cfg, op, reply), before)
  {
    hide Sealed, Decrypt;
  }

  /** Every key, sharing the program's file or not, loads as it should by the time the program has got to op. */
  ghost predicate LoadsAsExpected(cfg: Config, op: Op, was: Dir, dir: Dir) {
    forall key: string ::
      View(cfg, dir, key)
      == if SharesFile(cfg, op.key, key) then Expected(op, View(cfg, was, key)) else View(cfg, was, key)
  }

  lemma ViewsStep(cfg: Config, was: Dir, disk: Disk, op: Op, promise: Outcome, call: Call, reply: Reply, disk': Disk)
    requires DirSound(cfg.cipher, disk) && Facts(cfg, disk, op, promise) && Inverts(cfg.cipher)
    requires Request(cfg, op) == Some(call) && Moves(disk, call, reply, disk')
    requires LoadsAsExpected(cfg, op, was, disk.dir)
    ensures LoadsAsExpected(cfg, Resume(cfg, op, reply), was, disk'.dir)
  {
    hide DirSound, Facts, View, Resume, Request, EffectOf, Expected, Moves;
    SameKey(cfg, op, reply);
    forall key: string
      ensures View(cfg, disk'.dir, key)
              == if SharesFile(cfg, op.key, key) then Expected(Resume(cfg, op, reply), View(cfg, was, key))
                 else View(cfg, was, key)
    {
      ExpectedStep(cfg, op, reply, View(cfg, was, key));
      RegisterStep(cfg, disk, op, promise, call, reply, disk', key);
    }
  }

  /** What a program knows at op: a Load of any directory that it began with, any program of a sound one. */
  ghost predicate Known(cfg: Config, was: Disk, disk: Disk, op: Op, promise: Outcome, faulted: bool) {
    && (if op.Load? then Witnesses(cfg, was.dir, disk.dir, op, faulted) else DiskSound(cfg, was))
    && (DiskSound(cfg, was) ==> DiskSound(cfg, disk) && Refines(cfg, was, disk, op, promise, faulted))
  }

  ghost predicate DiskSound(cfg: Config, disk: Disk) { DirSound(cfg.cipher, disk) && Inverts(cfg.cipher) }

  ghost predicate Witnesses(cfg: Config, was: Dir, dir: Dir, op: Op, faulted: bool)
    requires op.Load?
  {
    && FileReads.Named(was) && FileReads.Kept(was, dir) && DrawOk(op.draw)
    && FileReads.LoadKnows(cfg, was, dir, op.key, op.draw, op.load, faulted)
  }

  ghost predicate Refines(cfg: Config, was: Disk, disk: Disk, op: Op, promise: Outcome, faulted: bool) {
    Facts(cfg, disk, op, promise) && (Failed(op) ==> faulted) && LoadsAsExpected(cfg, op, was.dir, disk.dir)
  }

  lemma WitnessStep(cfg: Config, was: Dir, dir: Dir, op: Op, call: Call, reply: Reply, dir': Dir, faulted: bool)
    requires op.Load? && Witnesses(cfg, was, dir, op, faulted) && FileReads.Named(dir)
    requires Request(cfg, op) == Some(call) && Answers(dir, call, reply, dir')
    ensures var op' := Resume(cfg, op, reply); op'.Load? && Witnesses(cfg, was, dir', op', faulted || reply.Fault?)
  {
    hide FileReads.LoadKnows, FileReads.Kept, FileReads.Named, Answers, LoadResume, LoadRequest;
    FileReads.LoadStep(cfg, was, dir, op.key, op.draw, op.load, call, reply, dir', faulted);
  }

  lemma KnownStep(cfg: Config, was: Disk, disk: Disk, op: Op, promise: Outcome, faulted: bool, call: Call, reply: Reply,
          disk': Disk)
    requires Known(cfg, was, disk, op, promise, faulted) && FileReads.Named(disk.dir)
    requires Request(cfg, op) == Some(call) && Moves(disk, call, reply, disk')
    ensures Known(cfg, was, disk', Resume(cfg, op, reply), Promise(cfg, disk.dir, op, promise), faulted || reply.Fault?)
  {
    hide DirSound, Facts, Failed, Resume, Request, Answers, Promise, Witnesses, LoadsAsExpected, Inverts;
    SameKey(cfg, op, reply);
    if op.Load? {
      WitnessStep(cfg, was.dir, disk.dir, op, call, reply, disk'.dir, faulted);
    }
    if DiskSound(cfg, was) {
      OpStep(cfg, disk, op, promise, call, reply, disk');
      ViewsStep(cfg, was.dir, disk, op, promise, call, reply, disk');
    }
  }

  /** What a program asks for makes sense to the operating system. */
  lemma CallFits(cfg: Config, was: Disk, disk: Disk, op: Op, promise: Outcome, faulted: bool, call: Call)
    requires Known(cfg, was, disk, op, promise, faulted) && Request(cfg, op) == Some(call)
    ensures call.ReadAll? ==> call.inode in disk.dir.data
    ensures call.Write? ==> call.inode in disk.dir.data
    ensures call.Rename? ==> call.from != call.to && call.to.Blob?
    ensures call.Link? ==> call.to == KeyFile
  {
    hide DirSound, Facts, Failed, LoadsAsExpected, Inverts, Request;
    if op.Load? {
      LoadCallFits(cfg, was.dir, disk.dir, op, call, faulted);
    } else {
      SoundCallFits(cfg, disk, op, promise, call);
    }
  }

  lemma LoadCallFits(cfg: Config, was: Dir, dir: Dir, op: Op, call: Call, faulted: bool)
    requires op.Load? && Witnesses(cfg, was, dir, op, faulted) && Request(cfg, op) == Some(call)
    ensures call.ReadAll? ==> call.inode in dir.data
    ensures call.Write? ==> call.inode in dir.data
    ensures !call.Rename? && (call.Link? ==> call.to == KeyFile)
  {
    hide Decrypt;
  }

  lemma SoundCallFits(cfg: Config, disk: Disk, op: Op, promise: Outcome, call: Call)
    requires DirSound(cfg.cipher, disk) && Facts(cfg, disk, op, promise) && Request(cfg, op) == Some(call)
    ensures call.ReadAll? ==> call.inode in disk.dir.data
    ensures call.Write? ==> call.inode in disk.dir.data
    ensures call.Rename? ==> call.from != call.to && call.to.Blob?
    ensures call.Link? ==> call.to == KeyFile
  {
    hide BlobSound, Decrypt, Sealed;
  }

  /**
  The directory, with the numbers the system gives out next. The ghost fields are the inodes
  ever published, all this when the program began, and whether a call has failed since.
  */
  class Directory {
    var dir: Dir
    var nextTemp: nat
    var nextInode: nat
    ghost var published: set<nat>
    ghost var began: Disk
    ghost var faulted: bool

    ghost predicate Valid()
      reads this
    {
      && (forall n :: n in dir.names ==> dir.names[n] in dir.data)
      && (forall n :: n in dir.names && n.Temp? ==> n.id < nextTemp)
      && (forall i :: i in dir.data ==> i < nextInode)
    }

    ghost predicate Sound(cfg: Config)
      reads this
    {
      Valid() && DiskSound(cfg, Disk(dir, published))
    }

    /** The running program is at op. */
    ghost predicate At(cfg: Config, op: Op, promise: Outcome)
      reads this
    {
      Valid() && Known(cfg, began, Disk(dir, published), op, promise, faulted)
    }

    constructor (ghost cfg: Config)
      requires Inverts(cfg.cipher)
      ensures Sound(cfg) && dir == Dir(map[], map[])
    {
      dir, nextTemp, nextInode, published := Dir(map[], map[]), 0, 0, {};
    }

    ghost method Begin(cfg: Config, op: Op)
      requires Valid() && Initial(op) && (op.Load? || Sound(cfg))
      modifies this`began, this`faulted
      ensures At(cfg, op, Unreadable) && began == Disk(dir, published) && !faulted
    {
      began, faulted := Disk(dir, published), false;
    }

    /** The operating system answers one call. */
    method Answer(call: Call) returns (reply: Reply)
      requires Valid() && (call.ReadAll? ==> call.inode in dir.data)
      requires (call.Write? ==> call.inode in dir.data) && (call.Rename? ==> call.from != call.to && call.to.Blob?)
      requires call.Link? ==> call.to == KeyFile
      modifies this`dir, this`nextTemp, this`nextInode
      ensures Valid() && Answers(old(dir), call, reply, dir)
    {
      if * {
        return Fault;
      }
      match call
      case Stat(n) => reply := if n in dir.names then Done else Missing;
      case EnsureDir => reply := Done;
      case Chmod(n) => reply := if n in dir.names then Done else Missing;
      case Open(n) => reply := if n in dir.names then Opened(dir.names[n]) else Missing;
      case ReadAll(i) => reply := Content(dir.data[i]);
      case CreateTemp =>
        reply := Made(nextTemp, nextInode);
        dir := Dir(dir.names[Temp(nextTemp) := nextInode], dir.data[nextInode := ""]);
        nextTemp, nextInode := nextTemp + 1, nextInode + 1;
      case Write(i, b) =>
        var n: nat := *;
        n := if 0 < n <= |b| then n else |b|;
        dir := dir.(data := dir.data[i := dir.data[i] + b[..n]]);
        reply := Wrote(n);
      case Flush(_) => reply := Done;
      case Link(from, to) =>
        if to in dir.names {
          return Exists;
        }
        if from !in dir.names {
          return Missing;
        }
        dir := dir.(names := dir.names[to := dir.names[from]]);
        reply := Done;
      case Rename(from, to) =>
        if from !in dir.names {
          return Missing;
        }
        dir := dir.(names := dir.names[to := dir.names[from]] - {from});
        reply := Done;
      case Unlink(n) =>
        reply := if n in dir.names then Done else Missing;
        dir := dir.(names := dir.names - {n});
    }

    /** The program's next call, and so the next point at which it can be cut short. */
    method Do(call: Call, ghost cfg: Config, ghost op: Op, ghost promise: Outcome) returns (reply: Reply)
      requires At(cfg, op, promise) && Request(cfg, op) == Some(call)
      modifies this
      ensures Answers(old(dir), call, reply, dir) && began == old(began)
      ensures At(cfg, Resume(cfg, op, reply), Promise(cfg, old(dir), op, promise))
    {
      hide Known, Answers, Request, Resume, Promise;
      ghost var disk, before := Disk(dir, published), faulted;
      CallFits(cfg, began, disk, op, promise, before, call);
      reply := Answer(call);
      published := published + Published(disk.dir, call, reply);
      faulted := faulted || reply.Fault?;
      KnownStep(cfg, began, disk, op, promise, before, call, reply, Disk(dir, published));
    }
  }

  lemma SameKey(cfg: Config, op: Op, reply: Reply)
    ensures Resume(cfg, op, reply).key == op.key && Resume(cfg, op, reply).Load? == op.Load?
  {
  }

  // keyBytes and writeSyncClose run inside Load and Save

  /** Whose keyBytes runs, with what its caller has done and been promised. */
  datatype Asker =
    | ForLoad(key: string, draw: Draw, ct: Bytes, promise: Outcome)
    | ForSave(key: string, blob: Bytes, draw: Draw)

  function Asking(cfg: Config, who: Asker, ks: KeyState): Op {
    match who
    case ForLoad(key, draw, ct, _) => Load(key, draw, AfterLoadKey(cfg, ct, ks))
    case ForSave(key, blob, draw) => Save(key, blob, draw, AfterSaveKey(ks))
  }

  function PromiseOf(who: Asker): Outcome { if who.ForLoad? then who.promise else Unreadable }

  lemma AskingResumes(cfg: Config, who: Asker, ks: KeyState, reply: Reply, dir: Dir)
    requires !ks.KeyDone?
    ensures Request(cfg, Asking(cfg, who, ks)) == KeyRequest(who.draw.key, ks)
    ensures Resume(cfg, Asking(cfg, who, ks), reply) == Asking(cfg, who, KeyResume(who.draw.key, ks, reply))
    ensures Promise(cfg, dir, Asking(cfg, who, ks), PromiseOf(who)) == PromiseOf(who)
  {
  }

  /** Whose bytes writeSyncClose writes, and to which temporary file. */
  datatype Writer =
    | KeyWriter(who: Asker, f: TempFile)
    | TextWriter(key: string, blob: Bytes, draw: Draw, k: Bytes, f: TempFile)

  function Payload(cfg: Config, w: Writer): Bytes {
    match w
    case KeyWriter(who, _) => who.draw.key
    case TextWriter(_, blob, draw, k, _) => Text(cfg, k, draw, blob)
  }

  datatype WriteStage = Writing(n: nat) | Flushing | Written | Abandoned

  function Stage(cfg: Config, w: Writer, stage: WriteStage): Op {
    match w
    case KeyWriter(who, f) =>
      Asking(cfg, who, match stage
                       case Writing(n) => Fill(f, n)
                       case Flushing => FlushTemp(f)
                       case Written => LinkKey(f)
                       case Abandoned => DropTemp(f, None))
    case TextWriter(key, blob, draw, k, f) =>
      Save(key, blob, draw, match stage
                            case Writing(n) => SaveFill(k, f, n)
                            case Flushing => SaveFlush(k, f)
                            case Written => SaveRename(k, f)
                            case Abandoned => SaveDrop(f))
  }

  function WriterPromise(w: Writer): Outcome { if w.KeyWriter? then PromiseOf(w.who) else Unreadable }

  function Onward(cfg: Config, w: Writer, n: nat): WriteStage { if n < |Payload(cfg, w)| then Writing(n) else Flushing }

  lemma WritingResumes(cfg: Config, w: Writer, n: nat, reply: Reply, dir: Dir)
    requires n < |Payload(cfg, w)|
    ensures Request(cfg, Stage(cfg, w, Writing(n))) == Some(Call.Write(w.f.inode, Payload(cfg, w)[n..]))
    ensures Resume(cfg, Stage(cfg, w, Writing(n)), reply)
            == Stage(cfg, w, if reply.Wrote? then Onward(cfg, w, n + reply.n) else Abandoned)
    ensures Promise(cfg, dir, Stage(cfg, w, Writing(n)), WriterPromise(w)) == WriterPromise(w)
  {
  }

  lemma FlushingResumes(cfg: Config, w: Writer, reply: Reply, dir: Dir)
    ensures Request(cfg, Stage(cfg, w, Flushing)) == Some(Call.Flush(w.f.inode))
    ensures Resume(cfg, Stage(cfg, w, Flushing), reply) == Stage(cfg, w, if reply.Done? then Written else Abandoned)
    ensures Promise(cfg, dir, Stage(cfg, w, Flushing), WriterPromise(w)) == WriterPromise(w)
  {
  }

  /** How readKey ends: with the key, without a key file, or with an error. */
  datatype Answer = Key(k: Bytes) | NoFile | Broken

  function Answered(tmp: Option<TempFile>, a: Answer): KeyState {
    match a
    case Key(k) => Settle(tmp, Some(k))
    case NoFile => NoKey(tmp, Missing)
    case Broken => Settle(tmp, None)
  }

  class Store {
    const directory: Directory
    const cfg: Config

    constructor (directory: Directory, cfg: Config)
      ensures this.directory == directory && this.cfg == cfg
    {
      this.directory, this.cfg := directory, cfg;
    }

    /** One call of keyBytes. */
    method Do(call: Call, ghost who: Asker, ghost ks: KeyState) returns (reply: Reply)
      requires directory.At(cfg, Asking(cfg, who, ks), PromiseOf(who)) && KeyRequest(who.draw.key, ks) == Some(call)
      modifies directory
      ensures Answers(old(directory.dir), call, reply, directory.dir) && directory.began == old(directory.began)
      ensures directory.At(cfg, Asking(cfg, who, KeyResume(who.draw.key, ks, reply)), PromiseOf(who))
    {
      hide Directory.At, Asking, Request, Resume, Promise;
      AskingResumes(cfg, who, ks, Done, directory.dir);
      reply := directory.Do(call, cfg, Asking(cfg, who, ks), PromiseOf(who));
      AskingResumes(cfg, who, ks, reply, old(directory.dir));
    }

    /** The published key, if there is one and it is whole. */
    method ReadKey(ghost who: Asker, ghost tmp: Option<TempFile>) returns (a: Answer)
      requires directory.At(cfg, Asking(cfg, who, Look(tmp)), PromiseOf(who))
      modifies directory
      ensures directory.At(cfg, Asking(cfg, who, Answered(tmp, a)), PromiseOf(who))
      ensures directory.began == old(directory.began)
    {
      hide Directory.At, Asking;
      var reply := Do(Stat(KeyFile), who, Look(tmp));
      if !reply.Done? {
        return if reply.Missing? then NoFile else Broken;
      }
      reply := Do(Chmod(KeyFile), who, Mode(tmp));
      if !reply.Done? {
        return if reply.Missing? then NoFile else Broken;
      }
      reply := Do(Call.Open(KeyFile), who, OpenKey(tmp));
      if !reply.Opened? {
        return if reply.Missing? then NoFile else Broken;
      }
      reply := Do(ReadAll(reply.inode), who, KeyState.ReadKey(tmp, reply.inode));
      return if reply.Content? && |reply.bytes| == KEY_SIZE then Key(reply.bytes) else Broken;
    }

    /** The key everybody uses: the published one, or nk if this writer's link comes first. */
    method KeyBytes(nk: Bytes, ghost who: Asker) returns (r: Option<Bytes>)
      requires nk == who.draw.key && |nk| == KEY_SIZE
      requires directory.At(cfg, Asking(cfg, who, Validate), PromiseOf(who))
      modifies directory
      ensures directory.At(cfg, Asking(cfg, who, KeyDone(r)), PromiseOf(who)) && directory.began == old(directory.began)
    {
      hide Directory.At, Asking;
      var reply := Do(Stat(KeyFile), who, Validate);
      if !reply.Done? && !reply.Missing? {
        return None;
      }
      reply := Do(EnsureDir, who, PrepareDir);
      if !reply.Done? {
        return None;
      }
      var a := ReadKey(who, None);
      match a
      case Key(k) => return Some(k);
      case Broken => return None;
      case NoFile =>
      reply := Do(CreateTemp, who, MakeTemp);
      if !reply.Made? {
        return None;
      }
      var f := TempFile(reply.id, reply.inode);
      r := Publish(nk, f, who);
      reply := Do(Unlink(Temp(f.id)), who, DropTemp(f, r));
    }

    /** From the new temporary file to its removal: the key to return, if any. */
    method Publish(nk: Bytes, f: TempFile, ghost who: Asker) returns (r: Option<Bytes>)
      requires nk == who.draw.key && |nk| == KEY_SIZE
      requires directory.At(cfg, Asking(cfg, who, TempMode(f)), PromiseOf(who))
      modifies directory
      ensures directory.At(cfg, Asking(cfg, who, DropTemp(f, r)), PromiseOf(who))
      ensures directory.began == old(directory.began)
    {
      hide Directory.At, Asking;
      var reply := Do(Chmod(Temp(f.id)), who, TempMode(f));
      if !reply.Done? {
        return None;
      }
      var ok := WriteSyncClose(f.inode, nk, KeyWriter(who, f));
      if !ok {
        return None;
      }
      reply := Do(Call.Link(Temp(f.id), KeyFile), who, LinkKey(f));
      if reply.Exists? {
        var a := ReadKey(who, Some(f));
        return if a.Key? then Some(a.k) else None;
      }
      return if reply.Done? then Some(nk) else None;
    }

    /** Writes all the bytes, however the system splits them, then syncs and closes. */
    method WriteSyncClose(inode: nat, data: Bytes, ghost w: Writer) returns (ok: bool)
      requires data == Payload(cfg, w) && data != "" && inode == w.f.inode
      requires directory.At(cfg, Stage(cfg, w, Writing(0)), WriterPromise(w))
      modifies directory
      ensures directory.At(cfg, Stage(cfg, w, if ok then Written else Abandoned), WriterPromise(w))
      ensures directory.began == old(directory.began)
    {
      hide Directory.At, Stage, Payload, Request, Resume, Promise;
      var n := 0;
      while n < |data|
        invariant directory.At(cfg, Stage(cfg, w, Onward(cfg, w, n)), WriterPromise(w))
        invariant directory.began == old(directory.began)
      {
        ghost var was := directory.dir;
        WritingResumes(cfg, w, n, Done, was);
        var reply := directory.Do(Call.Write(inode, data[n..]), cfg, Stage(cfg, w, Writing(n)), WriterPromise(w));
        WritingResumes(cfg, w, n, reply, was);
        if !reply.Wrote? {
          return false;
        }
        n := n + reply.n;
      }
      ghost var was := directory.dir;
      FlushingResumes(cfg, w, Done, was);
      var reply := directory.Do(Call.Flush(inode), cfg, Stage(cfg, w, Flushing), WriterPromise(w));
      FlushingResumes(cfg, w, reply, was);
      return reply.Done?;
    }

    /**
    Load opens the blob file, reads it, gets the key and decrypts. Whatever is in the directory,
    it leaves every file as it is, returns nothing only for a missing file or an empty blob, and
    fails without a failed call exactly for a key of the wrong length, a text too short for a
    nonce and a text that does not open. From a sound directory it returns the value of the key.
    */
    method Load(key: string, draw: Draw) returns (outcome: Outcome)
      requires directory.Valid() && DrawOk(draw)
      modifies directory
      ensures directory.Valid() && FileReads.Kept(old(directory.dir), directory.dir)
      ensures var was, dir, name := old(directory.dir), directory.dir, Blob(cfg.hash(key));
              || (outcome == Loaded("") && name !in was.names)
              || (outcome == Unreadable && directory.faulted)
              || (&& name in was.names && was.names[name] in was.data
                  && KeyFile in dir.names && dir.names[KeyFile] in dir.data
                  && var k, ct := dir.data[dir.names[KeyFile]], was.data[was.names[name]];
                     outcome == if |k| == 32 && |ct| >= 12 && cfg.cipher.open(k, ct[..12], ct[12..]).Some?
                                then Loaded(cfg.cipher.open(k, ct[..12], ct[12..]).value) else Unreadable)
      ensures old(directory.Sound(cfg)) ==>
                && directory.Sound(cfg)
                && (forall k: string :: View(cfg, directory.dir, k) == View(cfg, old(directory.dir), k))
                && (outcome == View(cfg, old(directory.dir), key) || (outcome == Unreadable && directory.faulted))
    {
      ghost var promise, was := View(cfg, directory.dir, key), Disk(directory.dir, directory.published);
      outcome := LoadCalls(key, draw);
      if DiskSound(cfg, was) {
        LoadTells(cfg, Disk(directory.dir, directory.published), key, draw, outcome, promise);
      }
    }

    method LoadCalls(key: string, draw: Draw) returns (outcome: Outcome)
      requires directory.Valid() && DrawOk(draw)
      modifies directory
      ensures directory.At(cfg, Op.Load(key, draw, LoadDone(outcome)), View(cfg, old(directory.dir), key))
      ensures directory.began == Disk(old(directory.dir), old(directory.published))
    {
      hide Directory.At, View, Decrypt;
      ghost var op := Op.Load(key, draw, LoadOpen);
      directory.Begin(cfg, op);
      ghost var promise := View(cfg, directory.dir, key);
      var reply := directory.Do(Call.Open(Blob(cfg.hash(key))), cfg, op, Unreadable);
      if reply.Missing? {
        return Loaded("");
      }
      if !reply.Opened? {
        return Unreadable;
      }
      reply := directory.Do(ReadAll(reply.inode), cfg, Op.Load(key, draw, LoadRead(reply.inode)), promise);
      if !reply.Content? {
        return Unreadable;
      }
      var ct := reply.bytes;
      var k := KeyBytes(draw.key, ForLoad(key, draw, ct, promise));
      return if k.None? then Unreadable else Decrypt(cfg.cipher, k.value, ct);
    }

    /** Save publishes its ciphertext with one rename; until then, and on an error, nothing changes. */
    method Save(key: string, blob: Bytes, draw: Draw) returns (ok: bool)
      requires directory.Sound(cfg) && DrawOk(draw)
      modifies directory
      ensures directory.Sound(cfg) && (!ok ==> directory.faulted)
      ensures forall k: string ::
                View(cfg, directory.dir, k)
                == if ok && SharesFile(cfg, key, k) then Loaded(blob) else View(cfg, old(directory.dir), k)
    {
      directory.Begin(cfg, Op.Save(key, blob, draw, SaveKey(Validate)));
      ok := SaveCalls(key, blob, draw);
    }

    method SaveCalls(key: string, blob: Bytes, draw: Draw) returns (ok: bool)
      requires directory.At(cfg, Op.Save(key, blob, draw, SaveKey(Validate)), Unreadable) && DrawOk(draw)
      modifies directory
      ensures directory.At(cfg, Op.Save(key, blob, draw, SaveDone(ok)), Unreadable)
      ensures directory.began == old(directory.began)
    {
      hide Directory.At, Sealed;
      var k := KeyBytes(draw.key, ForSave(key, blob, draw));
      if k.None? {
        return false;
      }
      var ct := Text(cfg, k.value, draw, blob);
      SealedWhole(cfg, k.value, draw, blob);
      var reply := directory.Do(EnsureDir, cfg, Op.Save(key, blob, draw, SaveDir(k.value)), Unreadable);
      if !reply.Done? {
        return false;
      }
      reply := directory.Do(CreateTemp, cfg, Op.Save(key, blob, draw, SaveTemp(k.value)), Unreadable);
      if !reply.Made? {
        return false;
      }
      var f := TempFile(reply.id, reply.inode);
      ok := PublishText(key, blob, draw, k.value, ct, f);
      if !ok {
        reply := directory.Do(Unlink(Temp(f.id)), cfg, Op.Save(key, blob, draw, SaveDrop(f)), Unreadable);
      }
    }

    /** Fills the temporary file and renames it into place. */
    method PublishText(key: string, ghost blob: Bytes, ghost draw: Draw, ghost k: Bytes, ct: Bytes,
            f: TempFile) returns (ok: bool)
      requires ct == Text(cfg, k, draw, blob) && ct != ""
      requires directory.At(cfg, Op.Save(key, blob, draw, SaveMode(k, f)), Unreadable)
      modifies directory
      ensures directory.At(cfg, Op.Save(key, blob, draw, if ok then SaveDone(true) else SaveDrop(f)), Unreadable)
      ensures directory.began == old(directory.began)
    {
      hide Directory.At, Sealed;
      var reply := directory.Do(Chmod(Temp(f.id)), cfg, Op.Save(key, blob, draw, SaveMode(k, f)), Unreadable);
      if !reply.Done? {
        return false;
      }
      ok := WriteSyncClose(f.inode, ct, TextWriter(key, blob, draw, k, f));
      if !ok {
        return false;
      }
      reply := directory.Do(Rename(Temp(f.id), Blob(cfg.hash(key))), cfg, Op.Save(key, blob, draw, SaveRename(k, f)),
          Unreadable);
      return reply.Done?;
    }

    /** Delete removes the blob file; a missing one is no error. */
    method Delete(key: string) returns (ok: bool)
      requires directory.Sound(cfg)
      modifies directory
      ensures directory.Sound(cfg) && (!ok ==> directory.faulted)
      ensures forall k: string ::
                View(cfg, directory.dir, k)
                == if ok && SharesFile(cfg, key, k) then Loaded("") else View(cfg, old(directory.dir), k)
    {
      directory.Begin(cfg, Op.Delete(key, RemoveBlob));
      var reply := directory.Do(Unlink(Blob(cfg.hash(key))), cfg, Op.Delete(key, RemoveBlob), Unreadable);
      return reply.Done? || reply.Missing?;
    }
  }

  lemma LoadTells(cfg: Config, disk: Disk, key: string, draw: Draw, outcome: Outcome, promise: Outcome)
    requires Facts(cfg, disk, Load(key, draw, LoadDone(outcome)), promise)
    ensures outcome == promise || outcome == Unreadable
  {
  }
}
