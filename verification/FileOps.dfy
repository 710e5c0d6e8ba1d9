/**
Load, Save and Delete of the encrypted-file store (cache/file.go) as programs over one
directory. Request says which file-system call a program makes next and Resume what it
becomes after the reply, so every call is one step and a crash is a program never resumed.
*/
module FileOps {
  import opened Wrappers

  /** One character stands for one byte. */
  type Bytes = string

  const KEY_SIZE := 32

  const NONCE_SIZE := 12

  // The directory

  datatype Name = KeyFile | Blob(hash: string) | Temp(id: nat)

  /** Several names may denote one inode; an inode without a name can still be open. */
  datatype Dir = Dir(names: map<Name, nat>, data: map<nat, Bytes>)

  datatype Call =
    | Stat(n: Name)
    | EnsureDir
    | Chmod(n: Name)
    | Open(n: Name)
    | ReadAll(inode: nat)
    | CreateTemp
    | Write(inode: nat, bytes: Bytes)
    | Flush(inode: nat)
    | Link(from: Name, to: Name)
    | Rename(from: Name, to: Name)
    | Unlink(n: Name)

  datatype Reply =
    | Done
    | Missing
    | Exists
    | Fault
    | Opened(inode: nat)
    | Content(bytes: Bytes)
    | Made(id: nat, inode: nat)
    | Wrote(n: nat)

  /**
  Any call may fail and then changes nothing. A write may take only part of its bytes; a new
  temporary file has an unused name and an unused inode; link and rename are atomic.
  */
  ghost predicate Answers(dir: Dir, call: Call, reply: Reply, dir': Dir) {
    if reply.Fault? then dir' == dir
    else match call
      case Stat(n) => dir' == dir && reply == if n in dir.names then Done else Missing
      case EnsureDir => dir' == dir && reply == Done
      case Chmod(n) => dir' == dir && reply == if n in dir.names then Done else Missing
      case Open(n) => dir' == dir && reply == if n in dir.names then Opened(dir.names[n]) else Missing
      case ReadAll(i) => dir' == dir && i in dir.data && reply == Content(dir.data[i])
      case CreateTemp =>
        && reply.Made? && Temp(reply.id) !in dir.names && reply.inode !in dir.data
        && dir' == Dir(dir.names[Temp(reply.id) := reply.inode], dir.data[reply.inode := ""])
      case Write(i, b) =>
        && reply.Wrote? && reply.n <= |b| && (b != "" ==> reply.n > 0) && i in dir.data
        && dir' == dir.(data := dir.data[i := dir.data[i] + b[..reply.n]])
      case Flush(_) => dir' == dir && reply == Done
      case Link(from, to) =>
        if to in dir.names then dir' == dir && reply == Exists
        else if from !in dir.names then dir' == dir && reply == Missing
        else reply == Done && dir' == dir.(names := dir.names[to := dir.names[from]])
      case Rename(from, to) =>
        if from !in dir.names then dir' == dir && reply == Missing
        else reply == Done && dir' == dir.(names := dir.names[to := dir.names[from]] - {from})
      case Unlink(n) =>
        if n in dir.names then reply == Done && dir' == dir.(names := dir.names - {n})
        else dir' == dir && reply == Missing
  }

  // The cipher

  /** An authenticated cipher: key, nonce and text. */
  datatype Cipher = Cipher(seal: (Bytes, Bytes, Bytes) -> Bytes, open: (Bytes, Bytes, Bytes) -> Option<Bytes>)

  ghost predicate Inverts(c: Cipher) {
    forall k, nonce, blob :: c.open(k, nonce, c.seal(k, nonce, blob)) == Some(blob)
  }

  function Sealed(c: Cipher, k: Bytes, nonce: Bytes, blob: Bytes): Bytes { nonce + c.seal(k, nonce, blob) }

  /** What a caller of Load sees; an absent file and an empty blob both load as nothing. */
  datatype Outcome = Loaded(blob: Bytes) | Unreadable

  function Decrypt(c: Cipher, k: Bytes, ct: Bytes): Outcome {
    if |ct| < NONCE_SIZE then Unreadable
    else match c.open(k, ct[..NONCE_SIZE], ct[NONCE_SIZE..])
      case Some(blob) => Loaded(blob)
      case None => Unreadable
  }

  // keyBytes

  datatype TempFile = TempFile(id: nat, inode: nat)

  /**
  Look, Mode, OpenKey and ReadKey are one readKey; it runs once on the fast path and again,
  then with a temporary file to remove, when another writer's link came first.
  */
  datatype KeyState =
    | Validate
    | PrepareDir
    | Look(tmp: Option<TempFile>)
    | Mode(tmp: Option<TempFile>)
    | OpenKey(tmp: Option<TempFile>)
    | ReadKey(tmp: Option<TempFile>, inode: nat)
    | MakeTemp
    | TempMode(f: TempFile)
    | Fill(f: TempFile, n: nat)
    | FlushTemp(f: TempFile)
    | LinkKey(f: TempFile)
    | DropTemp(f: TempFile, r: Option<Bytes>)
    | KeyDone(r: Option<Bytes>)

  function KeyRequest(nk: Bytes, ks: KeyState): Option<Call> {
    match ks
    case Validate => Some(Stat(KeyFile))
    case PrepareDir => Some(EnsureDir)
    case Look(_) => Some(Stat(KeyFile))
    case Mode(_) => Some(Chmod(KeyFile))
    case OpenKey(_) => Some(Open(KeyFile))
    case ReadKey(_, inode) => Some(ReadAll(inode))
    case MakeTemp => Some(CreateTemp)
    case TempMode(f) => Some(Chmod(Temp(f.id)))
    case Fill(f, n) => Some(Write(f.inode, if n <= |nk| then nk[n..] else ""))
    case FlushTemp(f) => Some(Flush(f.inode))
    case LinkKey(f) => Some(Link(Temp(f.id), KeyFile))
    case DropTemp(f, _) => Some(Unlink(Temp(f.id)))
    case KeyDone(_) => None
  }

  /** keyBytes ends with a result; a temporary file is removed first. */
  function Settle(tmp: Option<TempFile>, r: Option<Bytes>): KeyState {
    if tmp.Some? then DropTemp(tmp.value, r) else KeyDone(r)
  }

  /** readKey found no key: the fast path goes on to make one. */
  function NoKey(tmp: Option<TempFile>, reply: Reply): KeyState {
    if reply.Missing? && tmp.None? then MakeTemp else Settle(tmp, None)
  }

  function KeyResume(nk: Bytes, ks: KeyState, reply: Reply): KeyState {
    match ks
    case Validate => if reply.Done? || reply.Missing? then PrepareDir else KeyDone(None)
    case PrepareDir => if reply.Done? then Look(None) else KeyDone(None)
    case Look(tmp) => if reply.Done? then Mode(tmp) else NoKey(tmp, reply)
    case Mode(tmp) => if reply.Done? then OpenKey(tmp) else NoKey(tmp, reply)
    case OpenKey(tmp) => if reply.Opened? then ReadKey(tmp, reply.inode) else NoKey(tmp, reply)
    case ReadKey(tmp, _) =>
      Settle(tmp, if reply.Content? && |reply.bytes| == KEY_SIZE then Some(reply.bytes) else None)
    case MakeTemp => if reply.Made? then TempMode(TempFile(reply.id, reply.inode)) else KeyDone(None)
    case TempMode(f) => if reply.Done? then Fill(f, 0) else DropTemp(f, None)
    case Fill(f, n) =>
      if !reply.Wrote? then DropTemp(f, None) else if n + reply.n < |nk| then Fill(f, n + reply.n) else FlushTemp(f)
    case FlushTemp(f) => if reply.Done? then LinkKey(f) else DropTemp(f, None)
    case LinkKey(f) =>
      if reply.Done? then DropTemp(f, Some(nk)) else if reply.Exists? then Look(Some(f)) else DropTemp(f, None)
    case DropTemp(_, r) => KeyDone(r)
    case KeyDone(_) => ks
  }

  // Load, Save and Delete

  /** The random bytes an operation may need: a key, should it be the first writer, and a nonce. */
  datatype Draw = Draw(key: Bytes, nonce: Bytes)

  predicate DrawOk(draw: Draw) { |draw.key| == KEY_SIZE && |draw.nonce| == NONCE_SIZE }

  datatype LoadState = LoadOpen | LoadRead(inode: nat) | LoadKey(ct: Bytes, ks: KeyState) | LoadDone(outcome: Outcome)

  datatype SaveState =
    | SaveKey(ks: KeyState)
    | SaveDir(k: Bytes)
    | SaveTemp(k: Bytes)
    | SaveMode(k: Bytes, f: TempFile)
    | SaveFill(k: Bytes, f: TempFile, n: nat)
    | SaveFlush(k: Bytes, f: TempFile)
    | SaveRename(k: Bytes, f: TempFile)
    | SaveDrop(f: TempFile)
    | SaveDone(ok: bool)

  datatype DeleteState = RemoveBlob | DeleteDone(ok: bool)

  datatype Op =
    | Load(key: string, draw: Draw, load: LoadState)
    | Save(key: string, blob: Bytes, draw: Draw, save: SaveState)
    | Delete(key: string, remove: DeleteState)

  /** Cipher and file naming of one store. */
  datatype Config = Config(cipher: Cipher, hash: string -> string)

  function Text(cfg: Config, k: Bytes, draw: Draw, blob: Bytes): Bytes { Sealed(cfg.cipher, k, draw.nonce, blob) }

  function LoadRequest(cfg: Config, key: string, draw: Draw, st: LoadState): Option<Call> {
    match st
    case LoadOpen => Some(Open(Blob(cfg.hash(key))))
    case LoadRead(inode) => Some(ReadAll(inode))
    case LoadKey(_, ks) => KeyRequest(draw.key, ks)
    case LoadDone(_) => None
  }

  function SaveRequest(cfg: Config, key: string, blob: Bytes, draw: Draw, st: SaveState): Option<Call> {
    match st
    case SaveKey(ks) => KeyRequest(draw.key, ks)
    case SaveDir(_) => Some(EnsureDir)
    case SaveTemp(_) => Some(CreateTemp)
    case SaveMode(_, f) => Some(Chmod(Temp(f.id)))
    case SaveFill(k, f, n) =>
      var ct := Text(cfg, k, draw, blob);
      Some(Write(f.inode, if n <= |ct| then ct[n..] else ""))
    case SaveFlush(_, f) => Some(Flush(f.inode))
    case SaveRename(_, f) => Some(Rename(Temp(f.id), Blob(cfg.hash(key))))
    case SaveDrop(f) => Some(Unlink(Temp(f.id)))
    case SaveDone(_) => None
  }

  function Request(cfg: Config, op: Op): Option<Call> {
    match op
    case Load(key, draw, st) => LoadRequest(cfg, key, draw, st)
    case Save(key, blob, draw, st) => SaveRequest(cfg, key, blob, draw, st)
    case Delete(key, st) => if st.RemoveBlob? then Some(Unlink(Blob(cfg.hash(key)))) else None
  }

  function AfterLoadKey(cfg: Config, ct: Bytes, ks: KeyState): LoadState {
    if !ks.KeyDone? then LoadKey(ct, ks)
    else if ks.r.None? then LoadDone(Unreadable)
    else LoadDone(Decrypt(cfg.cipher, ks.r.value, ct))
  }

  function LoadResume(cfg: Config, draw: Draw, st: LoadState, reply: Reply): LoadState {
    match st
    case LoadOpen =>
      if reply.Missing? then LoadDone(Loaded("")) else if reply.Opened? then LoadRead(reply.inode)
          else LoadDone(Unreadable)
    case LoadRead(_) => if reply.Content? then LoadKey(reply.bytes, Validate) else LoadDone(Unreadable)
    case LoadKey(ct, ks) => AfterLoadKey(cfg, ct, KeyResume(draw.key, ks, reply))
    case LoadDone(_) => st
  }

  function AfterSaveKey(ks: KeyState): SaveState {
    if !ks.KeyDone? then SaveKey(ks) else if ks.r.None? then SaveDone(false) else SaveDir(ks.r.value)
  }

  function SaveResume(cfg: Config, blob: Bytes, draw: Draw, st: SaveState, reply: Reply): SaveState {
    match st
    case SaveKey(ks) => AfterSaveKey(KeyResume(draw.key, ks, reply))
    case SaveDir(k) => if reply.Done? then SaveTemp(k) else SaveDone(false)
    case SaveTemp(k) => if reply.Made? then SaveMode(k, TempFile(reply.id, reply.inode)) else SaveDone(false)
    case SaveMode(k, f) => if reply.Done? then SaveFill(k, f, 0) else SaveDrop(f)
    case SaveFill(k, f, n) =>
      if !reply.Wrote? then SaveDrop(f)
      else if n + reply.n < |Text(cfg, k, draw, blob)| then SaveFill(k, f, n + reply.n)
      else SaveFlush(k, f)
    case SaveFlush(k, f) => if reply.Done? then SaveRename(k, f) else SaveDrop(f)
    case SaveRename(k, f) => if reply.Done? then SaveDone(true) else SaveDrop(f)
    case SaveDrop(_) => SaveDone(false)
    case SaveDone(_) => st
  }

  function Resume(cfg: Config, op: Op, reply: Reply): Op {
    match op
    case Load(key, draw, st) => Load(key, draw, LoadResume(cfg, draw, st, reply))
    case Save(key, blob, draw, st) => Save(key, blob, draw, SaveResume(cfg, blob, draw, st, reply))
    case Delete(key, st) =>
      if st.RemoveBlob? then Delete(key, DeleteDone(reply.Done? || reply.Missing?)) else op
  }

  predicate Initial(op: Op) {
    match op
    case Load(_, draw, st) => DrawOk(draw) && st == LoadOpen
    case Save(_, _, draw, st) => DrawOk(draw) && st == SaveKey(Validate)
    case Delete(_, st) => st == RemoveBlob
  }

  // What Load sees, and the atomic register it refines

  function View(cfg: Config, dir: Dir, key: string): Outcome {
    var name := Blob(cfg.hash(key));
    if name !in dir.names then Loaded("")
    else if KeyFile !in dir.names || dir.names[KeyFile] !in dir.data || dir.names[name] !in dir.data then Unreadable
    else Decrypt(cfg.cipher, dir.data[dir.names[KeyFile]], dir.data[dir.names[name]])
  }

  datatype Effect = NoEffect | Put(blob: Bytes) | Clear

  /** A Save takes effect with its rename, a Delete when the file is gone. */
  function EffectOf(op: Op, reply: Reply): Effect {
    match op
    case Save(_, blob, _, SaveRename(_, _)) => if reply.Done? then Put(blob) else NoEffect
    case Delete(_, RemoveBlob) => if reply.Done? || reply.Missing? then Clear else NoEffect
    case _ => NoEffect
  }

  function Register(value: Outcome, effect: Effect): Outcome {
    match effect
    case NoEffect => value
    case Put(blob) => Loaded(blob)
    case Clear => Loaded("")
  }

  function KeyOf(op: Op): string { op.key }
}
