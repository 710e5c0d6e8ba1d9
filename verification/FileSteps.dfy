/**
What every program of the file store knows at each of its steps, and that no step of another
program takes it away: the key never changes, drafts are private, published bytes are final.
*/
module FileSteps {
  import opened Wrappers
  import opened FileOps

  /** The directory with the inodes that were ever linked under a final name. */
  datatype Disk = Disk(dir: Dir, published: set<nat>)

  function Published(dir: Dir, call: Call, reply: Reply): set<nat> {
    if reply.Done? && call.Link? && call.from in dir.names then {dir.names[call.from]}
    else if reply.Done? && call.Rename? && call.from in dir.names then {dir.names[call.from]}
    else {}
  }

  ghost predicate Moves(disk: Disk, call: Call, reply: Reply, disk': Disk) {
    Answers(disk.dir, call, reply, disk'.dir) && disk'.published == disk.published + Published(disk.dir, call, reply)
  }

  // Facts

  predicate KeyIs(dir: Dir, k: Bytes) {
    KeyFile in dir.names && dir.names[KeyFile] in dir.data && dir.data[dir.names[KeyFile]] == k
  }

  predicate Owns(dir: Dir, f: TempFile) {
    Temp(f.id) in dir.names && dir.names[Temp(f.id)] == f.inode && f.inode in dir.data
  }

  /** The temporary file holds these bytes and no other name of it was ever given out. */
  predicate Drafts(disk: Disk, f: TempFile, bytes: Bytes) {
    Owns(disk.dir, f) && f.inode !in disk.published && disk.dir.data[f.inode] == bytes
  }

  /** One writer's whole ciphertext. */
  ghost predicate Whole(c: Cipher, k: Bytes, ct: Bytes) {
    exists nonce, blob :: |nonce| == NONCE_SIZE && ct == Sealed(c, k, nonce, blob)
  }

  ghost predicate KeySound(disk: Disk) {
    KeyFile in disk.dir.names ==>
      && disk.dir.names[KeyFile] in disk.published
      && disk.dir.names[KeyFile] in disk.dir.data && |disk.dir.data[disk.dir.names[KeyFile]]| == KEY_SIZE
  }

  ghost predicate BlobSound(c: Cipher, disk: Disk, h: string) {
    Blob(h) in disk.dir.names ==>
      && disk.dir.names[Blob(h)] in disk.published && disk.dir.names[Blob(h)] in disk.dir.data
      && KeyFile in disk.dir.names && disk.dir.names[KeyFile] in disk.dir.data
      && Whole(c, disk.dir.data[disk.dir.names[KeyFile]], disk.dir.data[disk.dir.names[Blob(h)]])
  }

  ghost predicate DirSound(c: Cipher, disk: Disk) {
    && KeySound(disk)
    && (forall h :: BlobSound(c, disk, h))
    && (forall i :: i in disk.published ==> i in disk.dir.data)
  }

  predicate MayOwn(dir: Dir, tmp: Option<TempFile>) { tmp.Some? ==> Owns(dir, tmp.value) }

  predicate KeyFacts(disk: Disk, nk: Bytes, ks: KeyState) {
    match ks
    case Validate => true
    case PrepareDir => true
    case Look(tmp) => tmp.Some? ==> Owns(disk.dir, tmp.value) && KeyFile in disk.dir.names
    case Mode(tmp) => MayOwn(disk.dir, tmp) && KeyFile in disk.dir.names
    case OpenKey(tmp) => MayOwn(disk.dir, tmp) && KeyFile in disk.dir.names
    case ReadKey(tmp, i) => MayOwn(disk.dir, tmp) && KeyFile in disk.dir.names && disk.dir.names[KeyFile] == i
    case MakeTemp => true
    case TempMode(f) => Drafts(disk, f, "")
    case Fill(f, n) => n < |nk| && Drafts(disk, f, nk[..n])
    case FlushTemp(f) => Drafts(disk, f, nk)
    case LinkKey(f) => Drafts(disk, f, nk)
    case DropTemp(f, r) => Owns(disk.dir, f) && (r.Some? ==> KeyIs(disk.dir, r.value))
    case KeyDone(r) => r.Some? ==> KeyIs(disk.dir, r.value)
  }

  predicate SaveFacts(cfg: Config, disk: Disk, blob: Bytes, draw: Draw, st: SaveState) {
    match st
    case SaveKey(ks) => KeyFacts(disk, draw.key, ks)
    case SaveDir(k) => KeyIs(disk.dir, k)
    case SaveTemp(k) => KeyIs(disk.dir, k)
    case SaveMode(k, f) => KeyIs(disk.dir, k) && Drafts(disk, f, "")
    case SaveFill(k, f, n) =>
      var ct := Text(cfg, k, draw, blob);
      KeyIs(disk.dir, k) && n < |ct| && Drafts(disk, f, ct[..n])
    case SaveFlush(k, f) => KeyIs(disk.dir, k) && Drafts(disk, f, Text(cfg, k, draw, blob))
    case SaveRename(k, f) => KeyIs(disk.dir, k) && Drafts(disk, f, Text(cfg, k, draw, blob))
    case SaveDrop(f) => Owns(disk.dir, f)
    case SaveDone(_) => true
  }

  /** Ciphertext ct opens under the published key to what was promised when its file was opened. */
  predicate Opens(cfg: Config, dir: Dir, ct: Bytes, promise: Outcome) {
    && KeyFile in dir.names && dir.names[KeyFile] in dir.data
    && Decrypt(cfg.cipher, dir.data[dir.names[KeyFile]], ct) == promise && promise.Loaded?
  }

  predicate LoadFacts(cfg: Config, disk: Disk, draw: Draw, st: LoadState, promise: Outcome) {
    match st
    case LoadOpen => true
    case LoadRead(i) => i in disk.published && i in disk.dir.data && Opens(cfg, disk.dir, disk.dir.data[i], promise)
    case LoadKey(ct, ks) => KeyFacts(disk, draw.key, ks) && Opens(cfg, disk.dir, ct, promise)
    case LoadDone(outcome) => outcome.Loaded? ==> outcome == promise
  }

  /** A program's knowledge; promise is what its Load saw when it opened the blob file. */
  predicate Facts(cfg: Config, disk: Disk, op: Op, promise: Outcome) {
    match op
    case Load(_, draw, st) => DrawOk(draw) && LoadFacts(cfg, disk, draw, st, promise)
    case Save(_, blob, draw, st) => DrawOk(draw) && SaveFacts(cfg, disk, blob, draw, st)
    case Delete(_, _) => true
  }

  function KeyTemp(ks: KeyState): Option<TempFile> {
    match ks
    case Look(tmp) => tmp
    case Mode(tmp) => tmp
    case OpenKey(tmp) => tmp
    case ReadKey(tmp, _) => tmp
    case TempMode(f) => Some(f)
    case Fill(f, _) => Some(f)
    case FlushTemp(f) => Some(f)
    case LinkKey(f) => Some(f)
    case DropTemp(f, _) => Some(f)
    case _ => None
  }

  function SaveTempFile(st: SaveState): Option<TempFile> {
    match st
    case SaveKey(ks) => KeyTemp(ks)
    case SaveMode(_, f) => Some(f)
    case SaveFill(_, f, _) => Some(f)
    case SaveFlush(_, f) => Some(f)
    case SaveRename(_, f) => Some(f)
    case SaveDrop(f) => Some(f)
    case _ => None
  }

  /** The temporary file a program has made and not yet removed or renamed. */
  function TempOf(op: Op): Option<TempFile> {
    match op
    case Load(_, _, st) => if st.LoadKey? then KeyTemp(st.ks) else None
    case Save(_, _, _, st) => SaveTempFile(st)
    case Delete(_, _) => None
  }

  // What other programs' steps leave alone

  /** Nothing a program with temporary file tmp relies on has changed. */
  ghost predicate Steady(disk: Disk, disk': Disk, tmp: Option<TempFile>) {
    && (KeyFile in disk.dir.names ==>
          KeyFile in disk'.dir.names && disk'.dir.names[KeyFile] == disk.dir.names[KeyFile])
    && (forall i :: i in disk.published ==> i in disk'.published)
    && (forall i :: i in disk.published && i in disk.dir.data ==>
          i in disk'.dir.data && disk'.dir.data[i] == disk.dir.data[i])
    && (tmp.Some? && Owns(disk.dir, tmp.value) ==>
          && Owns(disk'.dir, tmp.value) && disk'.dir.data[tmp.value.inode] == disk.dir.data[tmp.value.inode]
          && (tmp.value.inode in disk'.published ==> tmp.value.inode in disk.published))
  }

  lemma FactsFrame(cfg: Config, disk: Disk, disk': Disk, op: Op, promise: Outcome)
    requires KeySound(disk) && Facts(cfg, disk, op, promise) && Steady(disk, disk', TempOf(op))
    ensures Facts(cfg, disk', op, promise)
  {
    hide Decrypt, Sealed;
  }

  /**
  The calls a program may make, by what it knows: it writes to, links and renames only its own
  draft, links only a whole key and renames only a whole ciphertext under the published key.
  */
  ghost predicate OwnCall(c: Cipher, disk: Disk, tmp: Option<TempFile>, call: Call) {
    match call
    case Write(i, _) => tmp.Some? && Owns(disk.dir, tmp.value) && tmp.value.inode == i && i !in disk.published
    case Link(from, to) =>
      && to == KeyFile && tmp.Some? && from == Temp(tmp.value.id) && Owns(disk.dir, tmp.value)
      && |disk.dir.data[tmp.value.inode]| == KEY_SIZE
    case Rename(from, to) =>
      && to.Blob? && tmp.Some? && from == Temp(tmp.value.id) && Owns(disk.dir, tmp.value)
      && KeyFile in disk.dir.names && disk.dir.names[KeyFile] in disk.dir.data
      && Whole(c, disk.dir.data[disk.dir.names[KeyFile]], disk.dir.data[tmp.value.inode])
    case Unlink(n) => n.Blob? || (tmp.Some? && n == Temp(tmp.value.id))
    case _ => true
  }

  predicate Apart(a: Option<TempFile>, b: Option<TempFile>) {
    a.Some? && b.Some? ==> a.value.id != b.value.id && a.value.inode != b.value.inode
  }

  /** A step leaves every other program's ground alone. */
  lemma OthersSteady(c: Cipher, disk: Disk, tmp: Option<TempFile>, call: Call, reply: Reply, disk': Disk,
          other: Option<TempFile>)
    requires Moves(disk, call, reply, disk') && OwnCall(c, disk, tmp, call) && Apart(tmp, other)
    ensures Steady(disk, disk', other)
  {
    hide Whole;
  }

  lemma DirKeeps(c: Cipher, disk: Disk, tmp: Option<TempFile>, call: Call, reply: Reply, disk': Disk)
    requires DirSound(c, disk) && Moves(disk, call, reply, disk') && OwnCall(c, disk, tmp, call)
    ensures DirSound(c, disk')
  {
    hide Whole;
    OthersSteady(c, disk, tmp, call, reply, disk', None);
    forall h ensures BlobSound(c, disk', h) {
      assert BlobSound(c, disk, h);
    }
  }

  /** A step keeps the program's temporary file, lets go of it, or makes its only one. */
  predicate TempMoves(before: Option<TempFile>, call: Call, reply: Reply, after: Option<TempFile>) {
    if call.CreateTemp? && reply.Made? then before.None? && after == Some(TempFile(reply.id, reply.inode))
    else after.Some? ==> after == before
  }

  // keyBytes

  /** The program is about to fail or has failed. */
  predicate KeyFailed(ks: KeyState) { ks == KeyDone(None) || (ks.DropTemp? && ks.r.None?) }

  /** What a step of keyBytes keeps. */
  ghost predicate KeyKept(c: Cipher, disk: Disk, nk: Bytes, ks: KeyState, call: Call, reply: Reply, disk': Disk) {
    var ks' := KeyResume(nk, ks, reply);
    && OwnCall(c, disk, KeyTemp(ks), call)
    && KeyFacts(disk', nk, ks')
    && TempMoves(KeyTemp(ks), call, reply, KeyTemp(ks'))
    && (!KeyFailed(ks) && !reply.Fault? ==> !KeyFailed(ks'))
  }

  ghost predicate KeyCalls(c: Cipher, disk: Disk, nk: Bytes, ks: KeyState, call: Call, reply: Reply, disk': Disk) {
    && DirSound(c, disk) && KeyFacts(disk, nk, ks) && |nk| == KEY_SIZE
    && KeyRequest(nk, ks) == Some(call) && Moves(disk, call, reply, disk')
  }

  predicate Reads(ks: KeyState) { ks.Validate? || ks.PrepareDir? || ks.Look? || ks.Mode? || ks.OpenKey? || ks.ReadKey? }

  lemma ReadingStep(c: Cipher, disk: Disk, nk: Bytes, ks: KeyState, call: Call, reply: Reply, disk': Disk)
    requires KeyCalls(c, disk, nk, ks, call, reply, disk') && Reads(ks)
    ensures KeyKept(c, disk, nk, ks, call, reply, disk')
  {
    hide Whole, BlobSound;
  }

  lemma FillStep(c: Cipher, disk: Disk, nk: Bytes, ks: KeyState, call: Call, reply: Reply, disk': Disk)
    requires KeyCalls(c, disk, nk, ks, call, reply, disk') && ks.Fill?
    ensures KeyKept(c, disk, nk, ks, call, reply, disk')
  {
    hide Whole, BlobSound;
    if reply.Wrote? {
      assert nk[..ks.n] + nk[ks.n..][..reply.n] == nk[..ks.n + reply.n];
      assert ks.n + reply.n >= |nk| ==> nk[..ks.n + reply.n] == nk;
    }
  }

  lemma PublishingStep(c: Cipher, disk: Disk, nk: Bytes, ks: KeyState, call: Call, reply: Reply, disk': Disk)
    requires KeyCalls(c, disk, nk, ks, call, reply, disk') && !Reads(ks) && !ks.Fill?
    ensures KeyKept(c, disk, nk, ks, call, reply, disk')
  {
    hide Whole, BlobSound;
  }

  lemma KeyStep(c: Cipher, disk: Disk, nk: Bytes, ks: KeyState, call: Call, reply: Reply, disk': Disk)
    requires KeyCalls(c, disk, nk, ks, call, reply, disk')
    ensures KeyKept(c, disk, nk, ks, call, reply, disk')
  {
    hide KeyCalls, KeyKept;
    if Reads(ks) {
      ReadingStep(c, disk, nk, ks, call, reply, disk');
    } else if ks.Fill? {
      FillStep(c, disk, nk, ks, call, reply, disk');
    } else {
      PublishingStep(c, disk, nk, ks, call, reply, disk');
    }
  }

  // Load, Save and Delete

  lemma SealedWhole(cfg: Config, k: Bytes, draw: Draw, blob: Bytes)
    requires DrawOk(draw)
    ensures Whole(cfg.cipher, k, Text(cfg, k, draw, blob)) && |Text(cfg, k, draw, blob)| > 0
  {
  }

  lemma SealedOpens(c: Cipher, k: Bytes, nonce: Bytes, blob: Bytes)
    requires |nonce| == NONCE_SIZE && Inverts(c)
    ensures Decrypt(c, k, Sealed(c, k, nonce, blob)) == Loaded(blob)
  {
    var ct := Sealed(c, k, nonce, blob);
    assert ct[..NONCE_SIZE] == nonce && ct[NONCE_SIZE..] == c.seal(k, nonce, blob);
  }

  lemma WholeOpens(c: Cipher, k: Bytes, ct: Bytes)
    requires Whole(c, k, ct) && Inverts(c)
    ensures Decrypt(c, k, ct).Loaded?
  {
    var nonce, blob :| |nonce| == NONCE_SIZE && ct == Sealed(c, k, nonce, blob);
    SealedOpens(c, k, nonce, blob);
  }

  predicate SaveFailed(st: SaveState) {
    st == SaveDone(false) || st.SaveDrop? || (st.SaveKey? && KeyFailed(st.ks))
  }

  /** What a step of Save keeps. */
  ghost predicate SaveKept(cfg: Config, disk: Disk, blob: Bytes, draw: Draw, st: SaveState, call: Call, reply: Reply,
          disk': Disk) {
    var st' := SaveResume(cfg, blob, draw, st, reply);
    && OwnCall(cfg.cipher, disk, SaveTempFile(st), call)
    && SaveFacts(cfg, disk', blob, draw, st')
    && TempMoves(SaveTempFile(st), call, reply, SaveTempFile(st'))
    && (!SaveFailed(st) && !reply.Fault? ==> !SaveFailed(st'))
  }

  ghost predicate SaveCalls(cfg: Config, disk: Disk, key: string, blob: Bytes, draw: Draw, st: SaveState, call: Call,
          reply: Reply, disk': Disk) {
    && DirSound(cfg.cipher, disk) && SaveFacts(cfg, disk, blob, draw, st) && DrawOk(draw)
    && SaveRequest(cfg, key, blob, draw, st) == Some(call) && Moves(disk, call, reply, disk')
  }

  lemma SaveKeyStep(cfg: Config, disk: Disk, key: string, blob: Bytes, draw: Draw, st: SaveState, call: Call,
          reply: Reply, disk': Disk)
    requires SaveCalls(cfg, disk, key, blob, draw, st, call, reply, disk') && st.SaveKey?
    ensures SaveKept(cfg, disk, blob, draw, st, call, reply, disk')
  {
    hide DirSound, Sealed, KeyFacts, KeyResume, KeyRequest, Answers, OwnCall;
    KeyStep(cfg.cipher, disk, draw.key, st.ks, call, reply, disk');
    KeyDoneIs(disk', draw.key, KeyResume(draw.key, st.ks, reply));
  }

  lemma SaveFillStep(cfg: Config, disk: Disk, key: string, blob: Bytes, draw: Draw, st: SaveState, call: Call,
          reply: Reply, disk': Disk)
    requires SaveCalls(cfg, disk, key, blob, draw, st, call, reply, disk') && st.SaveFill?
    ensures SaveKept(cfg, disk, blob, draw, st, call, reply, disk')
  {
    hide Whole, BlobSound, Sealed;
    var ct := Text(cfg, st.k, draw, blob);
    if reply.Wrote? {
      assert ct[..st.n] + ct[st.n..][..reply.n] == ct[..st.n + reply.n];
      assert st.n + reply.n >= |ct| ==> ct[..st.n + reply.n] == ct;
    }
  }

  lemma SaveOtherStep(cfg: Config, disk: Disk, key: string, blob: Bytes, draw: Draw, st: SaveState, call: Call,
          reply: Reply, disk': Disk)
    requires SaveCalls(cfg, disk, key, blob, draw, st, call, reply, disk') && !st.SaveKey? && !st.SaveFill?
    ensures SaveKept(cfg, disk, blob, draw, st, call, reply, disk')
  {
    hide Whole, BlobSound, Sealed;
    if st.SaveMode? || st.SaveRename? {
      SealedWhole(cfg, st.k, draw, blob);
    }
  }

  lemma SaveStep(cfg: Config, disk: Disk, key: string, blob: Bytes, draw: Draw, st: SaveState, call: Call,
          reply: Reply, disk': Disk)
    requires SaveCalls(cfg, disk, key, blob, draw, st, call, reply, disk')
    ensures SaveKept(cfg, disk, blob, draw, st, call, reply, disk')
  {
    hide SaveCalls, SaveKept;
    match st
    case SaveKey(_) => SaveKeyStep(cfg, disk, key, blob, draw, st, call, reply, disk');
    case SaveFill(_, _, _) => SaveFillStep(cfg, disk, key, blob, draw, st, call, reply, disk');
    case _ => SaveOtherStep(cfg, disk, key, blob, draw, st, call, reply, disk');
  }

  /** What a Load is promised: the register's value at the moment it opens the blob file. */
  function Promise(cfg: Config, dir: Dir, op: Op, promise: Outcome): Outcome {
    if op.Load? && op.load.LoadOpen? then View(cfg, dir, op.key) else promise
  }

  predicate LoadFailed(st: LoadState) { st == LoadDone(Unreadable) || (st.LoadKey? && KeyFailed(st.ks)) }

  /** What a step of Load keeps. */
  ghost predicate LoadKept(cfg: Config, disk: Disk, key: string, draw: Draw, st: LoadState, promise: Outcome,
          call: Call, reply: Reply, disk': Disk) {
    var op, st' := Load(key, draw, st), LoadResume(cfg, draw, st, reply);
    && OwnCall(cfg.cipher, disk, TempOf(op), call)
    && LoadFacts(cfg, disk', draw, st', Promise(cfg, disk.dir, op, promise))
    && TempMoves(TempOf(op), call, reply, TempOf(Load(key, draw, st')))
    && (!LoadFailed(st) && !reply.Fault? ==> !LoadFailed(st'))
  }

  ghost predicate LoadCalls(cfg: Config, disk: Disk, key: string, draw: Draw, st: LoadState, promise: Outcome,
          call: Call, reply: Reply, disk': Disk) {
    && DirSound(cfg.cipher, disk) && LoadFacts(cfg, disk, draw, st, promise) && DrawOk(draw) && Inverts(cfg.cipher)
    && LoadRequest(cfg, key, draw, st) == Some(call) && Moves(disk, call, reply, disk')
  }

  lemma LoadKeyStep(cfg: Config, disk: Disk, key: string, draw: Draw, st: LoadState, promise: Outcome, call: Call,
          reply: Reply, disk': Disk)
    requires LoadCalls(cfg, disk, key, draw, st, promise, call, reply, disk') && st.LoadKey?
    ensures LoadKept(cfg, disk, key, draw, st, promise, call, reply, disk')
  {
    hide DirSound, Decrypt, KeyFacts, KeyResume, KeyRequest, Answers, OwnCall;
    KeyStep(cfg.cipher, disk, draw.key, st.ks, call, reply, disk');
    OthersSteady(cfg.cipher, disk, KeyTemp(st.ks), call, reply, disk', None);
    KeySoundHere(cfg.cipher, disk);
    KeyDoneIs(disk', draw.key, KeyResume(draw.key, st.ks, reply));
  }

  lemma KeySoundHere(c: Cipher, disk: Disk)
    requires DirSound(c, disk)
    ensures KeySound(disk)
  {
  }

  lemma LoadOtherStep(cfg: Config, disk: Disk, key: string, draw: Draw, st: LoadState, promise: Outcome, call: Call,
          reply: Reply, disk': Disk)
    requires LoadCalls(cfg, disk, key, draw, st, promise, call, reply, disk') && !st.LoadKey?
    ensures LoadKept(cfg, disk, key, draw, st, promise, call, reply, disk')
  {
    hide Whole, Decrypt;
    if st.LoadOpen? {
      var h := cfg.hash(key);
      assert BlobSound(cfg.cipher, disk, h);
      if Blob(h) in disk.dir.names {
        WholeOpens(cfg.cipher, disk.dir.data[disk.dir.names[KeyFile]], disk.dir.data[disk.dir.names[Blob(h)]]);
      }
    }
  }

  lemma LoadStep(cfg: Config, disk: Disk, key: string, draw: Draw, st: LoadState, promise: Outcome, call: Call,
          reply: Reply, disk': Disk)
    requires LoadCalls(cfg, disk, key, draw, st, promise, call, reply, disk')
    ensures LoadKept(cfg, disk, key, draw, st, promise, call, reply, disk')
  {
    hide LoadCalls, LoadKept;
    if st.LoadKey? {
      LoadKeyStep(cfg, disk, key, draw, st, promise, call, reply, disk');
    } else {
      LoadOtherStep(cfg, disk, key, draw, st, promise, call, reply, disk');
    }
  }

  lemma KeyDoneIs(disk: Disk, nk: Bytes, ks: KeyState)
    requires KeyFacts(disk, nk, ks)
    ensures ks.KeyDone? && ks.r.Some? ==> KeyIs(disk.dir, ks.r.value)
  {
  }

  predicate Failed(op: Op) {
    match op
    case Load(_, _, st) => LoadFailed(st)
    case Save(_, _, _, st) => SaveFailed(st)
    case Delete(_, st) => st == DeleteDone(false)
  }

  /**
  One call of one program: it keeps its own knowledge and the directory sound, its temporary
  file stays its own or is new, and it comes to fail only if the call failed.
  */
  lemma OpStep(cfg: Config, disk: Disk, op: Op, promise: Outcome, call: Call, reply: Reply, disk': Disk)
    requires DirSound(cfg.cipher, disk) && Facts(cfg, disk, op, promise) && Inverts(cfg.cipher)
    requires Request(cfg, op) == Some(call) && Moves(disk, call, reply, disk')
    ensures OwnCall(cfg.cipher, disk, TempOf(op), call)
    ensures DirSound(cfg.cipher, disk')
    ensures Facts(cfg, disk', Resume(cfg, op, reply), Promise(cfg, disk.dir, op, promise))
    ensures TempMoves(TempOf(op), call, reply, TempOf(Resume(cfg, op, reply)))
    ensures !Failed(op) && !reply.Fault? ==> !Failed(Resume(cfg, op, reply))
  {
    hide DirSound, LoadFacts, SaveFacts, LoadResume, SaveResume, LoadRequest, SaveRequest;
    match op {
      case Load(key, draw, st) => LoadStep(cfg, disk, key, draw, st, promise, call, reply, disk');
      case Save(key, blob, draw, st) => SaveStep(cfg, disk, key, blob, draw, st, call, reply, disk');
      case Delete(_, _) =>
    }
    DirKeeps(cfg.cipher, disk, TempOf(op), call, reply, disk');
  }

  /** Keys with equal file names share one file, and so one register. */
  predicate SharesFile(cfg: Config, a: string, b: string) { cfg.hash(a) == cfg.hash(b) }

  function EffectOn(cfg: Config, op: Op, reply: Reply, key: string): Effect {
    if SharesFile(cfg, op.key, key) then EffectOf(op, reply) else NoEffect
  }

  /** A call that renames or removes no blob file of the key leaves what Load sees. */
  lemma ViewFrame(cfg: Config, disk: Disk, tmp: Option<TempFile>, call: Call, reply: Reply, disk': Disk, key: string)
    requires DirSound(cfg.cipher, disk) && Moves(disk, call, reply, disk') && OwnCall(cfg.cipher, disk, tmp, call)
    requires !(call.Rename? && reply.Done? && call.to == Blob(cfg.hash(key)))
    requires !(call.Unlink? && call.n == Blob(cfg.hash(key)) && !reply.Fault?)
    ensures View(cfg, disk'.dir, key) == View(cfg, disk.dir, key)
  {
    hide Whole, Decrypt;
    assert BlobSound(cfg.cipher, disk, cfg.hash(key));
    OthersSteady(cfg.cipher, disk, tmp, call, reply, disk', None);
  }

  /** Which programs rename and remove blob files. */
  lemma BlobCalls(cfg: Config, op: Op, call: Call)
    requires Request(cfg, op) == Some(call)
    ensures call.Rename? <==> op.Save? && op.save.SaveRename?
    ensures call.Rename? ==> call.from == Temp(op.save.f.id) && call.to == Blob(cfg.hash(op.key))
    ensures call.Unlink? && call.n.Blob? <==> op.Delete?
    ensures op.Delete? ==> op.remove.RemoveBlob? && call.n == Blob(cfg.hash(op.key))
  {
  }

  lemma PutStep(cfg: Config, disk: Disk, op: Op, promise: Outcome, reply: Reply, disk': Disk)
    requires KeySound(disk) && Facts(cfg, disk, op, promise) && Inverts(cfg.cipher)
    requires op.Save? && op.save.SaveRename? && reply.Done?
    requires Moves(disk, Rename(Temp(op.save.f.id), Blob(cfg.hash(op.key))), reply, disk')
    ensures View(cfg, disk'.dir, op.key) == Loaded(op.blob)
  {
    hide Decrypt, Sealed;
    SealedOpens(cfg.cipher, op.save.k, op.draw.nonce, op.blob);
    assert KeyIs(disk.dir, op.save.k) && Drafts(disk, op.save.f, Text(cfg, op.save.k, op.draw, op.blob));
  }

  /** Only a Save's rename and a Delete's removal change what Load sees, and only for keys that share their file. */
  lemma RegisterStep(cfg: Config, disk: Disk, op: Op, promise: Outcome, call: Call, reply: Reply, disk': Disk,
          key: string)
    requires DirSound(cfg.cipher, disk) && Facts(cfg, disk, op, promise) && Inverts(cfg.cipher)
    requires Request(cfg, op) == Some(call) && Moves(disk, call, reply, disk')
    ensures View(cfg, disk'.dir, key) == Register(View(cfg, disk.dir, key), EffectOn(cfg, op, reply, key))
  {
    hide Decrypt, Sealed, DirSound, Facts, Request, OwnCall, KeySound;
    KeySoundHere(cfg.cipher, disk);
    OpStep(cfg, disk, op, promise, call, reply, disk');
    BlobCalls(cfg, op, call);
    if op.Save? && op.save.SaveRename? && reply.Done? && SharesFile(cfg, op.key, key) {
      PutStep(cfg, disk, op, promise, reply, disk');
    } else if op.Delete? && SharesFile(cfg, op.key, key) && !reply.Fault? {
      assert call.n !in disk'.dir.names;
    } else {
      ViewFrame(cfg, disk, TempOf(op), call, reply, disk', key);
    }
  }
}
