/**
What a Load of the encrypted-file store returns, told by the bytes it was given, whatever else
happens to the directory and whatever is in it (cache/file.go).
*/
module FileReads {
  import opened Wrappers
  import opened FileOps

  // Whatever the calls answer

  datatype Entry = Entry(call: Call, reply: Reply)

  function After(cfg: Config, op: Op, log: seq<Entry>): Op {
    if log == [] then op else Resume(cfg, After(cfg, op, log[..|log| - 1]), log[|log| - 1].reply)
  }

  /** The program made these calls, and got any replies at all. */
  predicate Asked(cfg: Config, op: Op, log: seq<Entry>) {
    forall i :: 0 <= i < |log| ==> Request(cfg, After(cfg, op, log[..i])) == Some(log[i].call)
  }

  /** The key that the last entries settle on: the 32 bytes of the key file, or one's own once linked. */
  function Got(nk: Bytes, log: seq<Entry>): Option<Bytes> {
    var n := |log|;
    if n == 0 then None
    else if n > 1 && log[n - 2].call == Call.Open(KeyFile) && log[n - 2].reply.Opened?
            && log[n - 1].call == ReadAll(log[n - 2].reply.inode)
    then if log[n - 1].reply.Content? && |log[n - 1].reply.bytes| == 32 then Some(log[n - 1].reply.bytes) else None
    else if log[n - 1].call.Link? && log[n - 1].call.to == KeyFile && log[n - 1].reply.Done? then Some(nk)
    else None
  }

  /** Without the removal of a temporary file at the end. */
  function Untidied(log: seq<Entry>): seq<Entry> {
    if log != [] && log[|log| - 1].call.Unlink? then log[..|log| - 1] else log
  }

  predicate KeyLog(nk: Bytes, log: seq<Entry>, ks: KeyState) {
    match ks
    case ReadKey(_, inode) => log != [] && log[|log| - 1] == Entry(Call.Open(KeyFile), Opened(inode))
    case DropTemp(_, r) => r == Got(nk, log)
    case KeyDone(r) => r == Got(nk, Untidied(log))
    case _ => true
  }

  lemma KeyLogStep(nk: Bytes, log: seq<Entry>, ks: KeyState, e: Entry)
    requires KeyLog(nk, log, ks) && KeyRequest(nk, ks) == Some(e.call)
    ensures KeyLog(nk, log + [e], KeyResume(nk, ks, e.reply))
  {
    assert (log + [e])[..|log|] == log;
  }

  predicate BlobRead(cfg: Config, key: string, log: seq<Entry>, ct: Bytes) {
    && |log| > 1 && log[0].call == Call.Open(Blob(cfg.hash(key))) && log[0].reply.Opened?
    && log[1] == Entry(ReadAll(log[0].reply.inode), Content(ct))
  }

  ghost predicate LoadLog(cfg: Config, key: string, draw: Draw, log: seq<Entry>, st: LoadState) {
    match st
    case LoadOpen => log == []
    case LoadRead(inode) => log == [Entry(Call.Open(Blob(cfg.hash(key))), Opened(inode))]
    case LoadKey(ct, ks) => BlobRead(cfg, key, log, ct) && KeyLog(draw.key, log, ks) && !ks.KeyDone?
    case LoadDone(outcome) =>
      || (log == [Entry(Call.Open(Blob(cfg.hash(key))), Missing)] && outcome == Loaded(""))
      || (0 < |log| < 3 && outcome == Unreadable && log[0].reply != Missing)
      || (|log| > 2 && exists ct :: BlobRead(cfg, key, log, ct)
                                    && outcome == AfterLoadKey(cfg, ct, KeyDone(Got(draw.key, Untidied(log)))).outcome)
  }

  lemma LoadLogStep(cfg: Config, key: string, draw: Draw, log: seq<Entry>, st: LoadState, e: Entry)
    requires LoadLog(cfg, key, draw, log, st) && LoadRequest(cfg, key, draw, st) == Some(e.call)
    ensures LoadLog(cfg, key, draw, log + [e], LoadResume(cfg, draw, st, e.reply))
  {
    hide KeyResume, KeyRequest, Decrypt, Got, Untidied;
    if st.LoadKey? {
      KeyLogStep(draw.key, log, st.ks, e);
      assert BlobRead(cfg, key, log + [e], st.ct);
      KeyLogEnds(draw.key, log + [e], KeyResume(draw.key, st.ks, e.reply));
    }
  }

  lemma KeyLogEnds(nk: Bytes, log: seq<Entry>, ks: KeyState)
    requires KeyLog(nk, log, ks)
    ensures ks.KeyDone? ==> ks.r == Got(nk, Untidied(log))
  {
  }

  lemma {:induction false} LoadLogged(cfg: Config, key: string, draw: Draw, log: seq<Entry>)
    requires Asked(cfg, Load(key, draw, LoadOpen), log)
    ensures var op := After(cfg, Load(key, draw, LoadOpen), log);
            op.Load? && op.key == key && op.draw == draw && LoadLog(cfg, key, draw, log, op.load)
  {
    hide LoadLog, LoadResume, LoadRequest;
    if log == [] {
      LoadLogStarts(cfg, key, draw);
    } else {
      var n := |log| - 1;
      forall i | 0 <= i < n ensures log[..n][..i] == log[..i] {
      }
      LoadLogged(cfg, key, draw, log[..n]);
      LoadLogStep(cfg, key, draw, log[..n], After(cfg, Load(key, draw, LoadOpen), log[..n]).load, log[n]);
      assert log == log[..n] + [log[n]];
    }
  }

  lemma LoadLogStarts(cfg: Config, key: string, draw: Draw)
    ensures LoadLog(cfg, key, draw, [], LoadOpen)
  {
  }

  /**
  Load returns a blob exactly when its file is missing, and the blob empty, or when the content
  read, at least 12 bytes of it, opens to the blob under the key obtained: 32 bytes read from
  the key file, or one's own key once linked. Otherwise it ends in an error.
  */
  lemma LoadAnswers(cfg: Config, key: string, draw: Draw, log: seq<Entry>, outcome: Outcome, blob: Bytes)
    requires Asked(cfg, Load(key, draw, LoadOpen), log)
    requires After(cfg, Load(key, draw, LoadOpen), log) == Load(key, draw, LoadDone(outcome))
    ensures log != []
    ensures var n := if log[|log| - 1].call.Unlink? then |log| - 1 else |log|;
            outcome == Loaded(blob) <==>
              || (log == [Entry(Call.Open(Blob(cfg.hash(key))), Missing)] && blob == "")
              || (&& n > 2
                  && log[0].call == Call.Open(Blob(cfg.hash(key))) && log[0].reply.Opened?
                  && log[1].call == ReadAll(log[0].reply.inode) && log[1].reply.Content?
                  && |log[1].reply.bytes| >= 12
                  && exists k ::
                       && cfg.cipher.open(k, log[1].reply.bytes[..12], log[1].reply.bytes[12..]) == Some(blob)
                       && (|| (&& log[n - 2].call == Call.Open(KeyFile) && log[n - 2].reply.Opened?
                               && log[n - 1] == Entry(ReadAll(log[n - 2].reply.inode), Content(k)) && |k| == 32)
                           || (&& log[n - 1].call.Link? && log[n - 1].call.to == KeyFile && log[n - 1].reply.Done?
                               && k == draw.key)))
  {
    hide Asked, After, Resume, Request;
    LoadLogged(cfg, key, draw, log);
  }

  /** A text that is cut short or does not open, or a key of the wrong length, is reported, not taken for nothing. */
  lemma DamageIsReported(cfg: Config, key: string, draw: Draw, log: seq<Entry>, outcome: Outcome)
    requires Asked(cfg, Load(key, draw, LoadOpen), log)
    requires After(cfg, Load(key, draw, LoadOpen), log) == Load(key, draw, LoadDone(outcome))
    requires |log| > 2 && log[1].reply.Content?
    requires var n, ct := if log[|log| - 1].call.Unlink? then |log| - 1 else |log|, log[1].reply.bytes;
             || |ct| < 12
             || (log[n - 1].call.Link? && cfg.cipher.open(draw.key, ct[..12], ct[12..]).None?)
             || (log[n - 1].call.ReadAll? && log[n - 1].reply.Content?
                 && (|log[n - 1].reply.bytes| != 32
                     || cfg.cipher.open(log[n - 1].reply.bytes, ct[..12], ct[12..]).None?))
    ensures outcome == Unreadable
  {
    hide Asked, After, Resume, Request;
    if outcome.Loaded? {
      LoadAnswers(cfg, key, draw, log, outcome, outcome.blob);
    }
  }

  // Alone on any directory

  ghost predicate Named(dir: Dir) { forall n :: n in dir.names ==> dir.names[n] in dir.data }

  /** Every file of the directory before is still there as it was. */
  ghost predicate Kept(was: Dir, dir: Dir) {
    && (forall n :: n in was.names ==> n in dir.names && dir.names[n] == was.names[n])
    && (forall i :: i in was.data ==> i in dir.data && dir.data[i] == was.data[i])
  }

  /** The program's own temporary file. */
  predicate NewFile(was: Dir, dir: Dir, f: TempFile) {
    && Temp(f.id) !in was.names && f.inode !in was.data
    && Temp(f.id) in dir.names && dir.names[Temp(f.id)] == f.inode && f.inode in dir.data
  }

  predicate MayHave(was: Dir, dir: Dir, tmp: Option<TempFile>) { tmp.Some? ==> NewFile(was, dir, tmp.value) }

  predicate Present(dir: Dir, n: Name) { n in dir.names && dir.names[n] in dir.data }

  function ContentOf(dir: Dir, n: Name): Bytes
    requires Present(dir, n)
  {
    dir.data[dir.names[n]]
  }

  /** A key is that of the key file, and without a failed call there is one unless that has a wrong length. */
  predicate Result(dir: Dir, r: Option<Bytes>, faulted: bool) {
    match r
    case Some(k) => Present(dir, KeyFile) && ContentOf(dir, KeyFile) == k && |k| == 32
    case None => faulted || (Present(dir, KeyFile) && |ContentOf(dir, KeyFile)| != 32)
  }

  predicate KeyKnows(was: Dir, dir: Dir, nk: Bytes, ks: KeyState, faulted: bool) {
    match ks
    case Look(tmp) => MayHave(was, dir, tmp) && (tmp.Some? ==> KeyFile in dir.names)
    case Mode(tmp) => MayHave(was, dir, tmp) && KeyFile in dir.names
    case OpenKey(tmp) => MayHave(was, dir, tmp) && KeyFile in dir.names
    case ReadKey(tmp, i) => MayHave(was, dir, tmp) && Present(dir, KeyFile) && dir.names[KeyFile] == i
    case TempMode(f) => NewFile(was, dir, f) && dir.data[f.inode] == ""
    case Fill(f, n) => NewFile(was, dir, f) && n < |nk| && dir.data[f.inode] == nk[..n]
    case FlushTemp(f) => NewFile(was, dir, f) && dir.data[f.inode] == nk
    case LinkKey(f) => NewFile(was, dir, f) && dir.data[f.inode] == nk
    case DropTemp(f, r) => NewFile(was, dir, f) && Result(dir, r, faulted)
    case KeyDone(r) => Result(dir, r, faulted)
    case _ => true
  }

  /** What a Load has learned of the directory it began with, and of the key file as it is now. */
  predicate LoadKnows(cfg: Config, was: Dir, dir: Dir, key: string, draw: Draw, st: LoadState, faulted: bool) {
    var name := Blob(cfg.hash(key));
    match st
    case LoadOpen => name in dir.names ==> name in was.names
    case LoadRead(i) => Present(was, name) && was.names[name] == i
    case LoadKey(ct, ks) =>
      Present(was, name) && ContentOf(was, name) == ct && KeyKnows(was, dir, draw.key, ks, faulted)
    case LoadDone(outcome) =>
      if outcome == Loaded("") && name !in was.names then true
      else if faulted && outcome == Unreadable then true
      else
        && Present(was, name) && Present(dir, KeyFile)
        && outcome == if |ContentOf(dir, KeyFile)| != 32 then Unreadable
                      else Decrypt(cfg.cipher, ContentOf(dir, KeyFile), ContentOf(was, name))
  }

  ghost predicate KeyCall(was: Dir, dir: Dir, nk: Bytes, ks: KeyState, call: Call, reply: Reply, dir': Dir,
          faulted: bool) {
    && Named(dir) && Kept(was, dir) && KeyKnows(was, dir, nk, ks, faulted) && |nk| == 32
    && KeyRequest(nk, ks) == Some(call) && Answers(dir, call, reply, dir')
  }

  lemma ReadingStep(was: Dir, dir: Dir, nk: Bytes, ks: KeyState, call: Call, reply: Reply, dir': Dir, faulted: bool)
    requires KeyCall(was, dir, nk, ks, call, reply, dir', faulted)
    requires ks.Validate? || ks.PrepareDir? || ks.Look? || ks.Mode? || ks.OpenKey? || ks.ReadKey?
    ensures Kept(was, dir') && KeyKnows(was, dir', nk, KeyResume(nk, ks, reply), faulted || reply.Fault?)
  {
  }

  lemma FillingStep(was: Dir, dir: Dir, nk: Bytes, ks: KeyState, call: Call, reply: Reply, dir': Dir, faulted: bool)
    requires KeyCall(was, dir, nk, ks, call, reply, dir', faulted) && ks.Fill?
    ensures Kept(was, dir') && KeyKnows(was, dir', nk, KeyResume(nk, ks, reply), faulted || reply.Fault?)
  {
    if reply.Wrote? {
      assert nk[..ks.n] + nk[ks.n..][..reply.n] == nk[..ks.n + reply.n];
      assert ks.n + reply.n >= |nk| ==> nk[..ks.n + reply.n] == nk;
    }
  }

  lemma DraftingStep(was: Dir, dir: Dir, nk: Bytes, ks: KeyState, call: Call, reply: Reply, dir': Dir, faulted: bool)
    requires KeyCall(was, dir, nk, ks, call, reply, dir', faulted) && (ks.MakeTemp? || ks.TempMode? || ks.FlushTemp?)
    ensures Kept(was, dir') && KeyKnows(was, dir', nk, KeyResume(nk, ks, reply), faulted || reply.Fault?)
  {
  }

  lemma LinkingStep(was: Dir, dir: Dir, nk: Bytes, ks: KeyState, call: Call, reply: Reply, dir': Dir, faulted: bool)
    requires KeyCall(was, dir, nk, ks, call, reply, dir', faulted) && (ks.LinkKey? || ks.DropTemp?)
    ensures Kept(was, dir') && KeyKnows(was, dir', nk, KeyResume(nk, ks, reply), faulted || reply.Fault?)
  {
  }

  lemma KeyStep(was: Dir, dir: Dir, nk: Bytes, ks: KeyState, call: Call, reply: Reply, dir': Dir, faulted: bool)
    requires KeyCall(was, dir, nk, ks, call, reply, dir', faulted)
    ensures Kept(was, dir') && KeyKnows(was, dir', nk, KeyResume(nk, ks, reply), faulted || reply.Fault?)
  {
    hide Kept, KeyKnows, KeyResume, Answers, Named;
    if ks.Fill? {
      FillingStep(was, dir, nk, ks, call, reply, dir', faulted);
    } else if ks.MakeTemp? || ks.TempMode? || ks.FlushTemp? {
      DraftingStep(was, dir, nk, ks, call, reply, dir', faulted);
    } else if ks.LinkKey? || ks.DropTemp? {
      LinkingStep(was, dir, nk, ks, call, reply, dir', faulted);
    } else {
      ReadingStep(was, dir, nk, ks, call, reply, dir', faulted);
    }
  }

  /** One call of a Load that is alone on any directory with names of its files. */
  lemma LoadStep(cfg: Config, was: Dir, dir: Dir, key: string, draw: Draw, st: LoadState, call: Call, reply: Reply,
          dir': Dir, faulted: bool)
    requires Named(was) && Named(dir) && Kept(was, dir) && LoadKnows(cfg, was, dir, key, draw, st, faulted)
    requires DrawOk(draw) && LoadRequest(cfg, key, draw, st) == Some(call) && Answers(dir, call, reply, dir')
    ensures Kept(was, dir')
    ensures LoadKnows(cfg, was, dir', key, draw, LoadResume(cfg, draw, st, reply), faulted || reply.Fault?)
  {
    hide KeyKnows, KeyResume, KeyRequest, Decrypt;
    if st.LoadKey? {
      hide Answers, Named, Kept;
      KeyStep(was, dir, draw.key, st.ks, call, reply, dir', faulted);
      KeyEnds(was, dir', draw.key, KeyResume(draw.key, st.ks, reply), faulted || reply.Fault?);
    } else {
      KeyStarts(was, dir', draw.key, faulted || reply.Fault?);
    }
  }

  lemma KeyStarts(was: Dir, dir: Dir, nk: Bytes, faulted: bool)
    ensures KeyKnows(was, dir, nk, Validate, faulted)
  {
  }

  lemma KeyEnds(was: Dir, dir: Dir, nk: Bytes, ks: KeyState, faulted: bool)
    requires KeyKnows(was, dir, nk, ks, faulted)
    ensures ks.KeyDone? ==> Result(dir, ks.r, faulted)
  {
  }
}
