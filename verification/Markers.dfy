/** Chunk markers and keyring item names (cache/keychain.go). */
module Markers {
  import opened Wrappers
  import opened Text

  /** Bytes stored per keyring item. */
  const CHUNK_SIZE: nat := 2048

  /** A v2 marker names immutable chunks; a legacy marker, with an empty generation, is only a count. */
  datatype Marker = Marker(generation: string, count: nat, digest: string)

  predicate IsGeneration(s: string) { |s| == 32 && AllHex(s) }

  predicate IsDigest(s: string) { |s| == 64 && AllHex(s) }

  const ZERO_DIGEST := seq(64, _ => '0')

  type HexDigest = s: string | IsDigest(s) witness ZERO_DIGEST

  /** SHA-256 followed by hexadecimal spelling: any total function with results of that shape. */
  type Digest = string -> HexDigest

  /** Two texts that the digest cannot tell apart. */
  predicate Clashes(d: Digest, a: string, b: string) { a != b && d(a) == d(b) }

  function Legacy(count: nat): Marker { Marker("", count, "") }

  predicate WellFormed(m: Marker) {
    && 1 <= m.count <= MAX_INT
    && ((m.generation == "" && m.digest == "") || (IsGeneration(m.generation) && IsDigest(m.digest)))
  }

  function Encode(m: Marker): string {
    if m.generation == "" then Itoa(m.count)
    else "v2:" + m.generation + ":" + Itoa(m.count) + ":" + m.digest
  }

  /** None stands for the parse error. */
  function Parse(raw: string): (r: Option<Marker>)
    ensures r.Some? ==> WellFormed(r.value)
  {
    if !("v2:" <= raw) then
      var n := Atoi(raw);
      if n.None? || n.value < 1 then None else Some(Legacy(n.value))
    else
      var parts := Split(raw[3..], ':');
      if |parts| != 3 || |parts[0]| != 32 || |parts[2]| != 64 then None
      else if !AllHex(parts[0]) || !AllHex(parts[2]) then None
      else
        var n := Atoi(parts[1]);
        if n.None? || n.value < 1 then None else Some(Marker(parts[0], n.value, parts[2]))
  }

  lemma HexHasNo(s: string, c: char)
    requires AllHex(s) && !IsHex(c)
    ensures c !in s
  {
  }

  /** Encoding then parsing is the identity on well-formed markers. */
  lemma ParseEncode(m: Marker)
    requires WellFormed(m)
    ensures Parse(Encode(m)) == Some(m)
  {
    var count := Itoa(m.count);
    AtoiItoa(m.count);
    if m.generation == "" {
      assert count[0] != 'v';
    } else {
      var raw := Encode(m);
      var body := m.generation + [':'] + count + [':'] + m.digest;
      assert raw == "v2:" + body;
      assert raw[3..] == body;
      HexHasNo(m.generation, ':');
      HexHasNo(m.digest, ':');
      assert ':' !in count;
      SplitThree(m.generation, count, m.digest, ':');
    }
  }

  /** One parse normalises: whatever text was accepted, its re-encoding parses to the same marker. */
  lemma ParseStable(raw: string)
    requires Parse(raw).Some?
    ensures Parse(Encode(Parse(raw).value)) == Parse(raw)
  {
    ParseEncode(Parse(raw).value);
  }

  /** Several texts name one marker, so the encoding is not the inverse of parsing. */
  lemma ParseIsNotInjective()
    ensures Parse("+3") == Parse("003") == Parse("3") == Some(Legacy(3))
    ensures Encode(Legacy(3)) == "3"
  {
    assert DecimalValue("3") == 3 by { assert "3"[..0] == ""; }
    assert DecimalValue("0") == 0 by { assert "0"[..0] == ""; }
    assert DecimalValue("00") == 0 by { assert "00"[..1] == "0"; }
    assert DecimalValue("003") == 3 by { assert "003"[..2] == "00"; }
    assert "+3"[1..] == "3";
  }

  // Which texts are markers

  /** An unversioned count. */
  predicate IsLegacy(raw: string, n: int) { !("v2:" <= raw) && n >= 1 && Atoi(raw) == Some(n) }

  /** The version, 32 hexadecimal characters, a count and 64 hexadecimal characters, separated by colons. */
  predicate IsV2(raw: string, generation: string, n: int, digest: string) {
    && |generation| == 32 && AllHex(generation) && |digest| == 64 && AllHex(digest) && n >= 1
    && |raw| >= 101 && raw[..36] == "v2:" + generation + ":" && raw[|raw| - 65..] == ":" + digest
    && Atoi(raw[36..|raw| - 65]) == Some(n)
  }

  lemma NumbersHaveNo(s: string, c: char)
    requires Atoi(s).Some? && !IsDigit(c) && c != '+' && c != '-'
    ensures c !in s
  {
    if s[0] == '+' || s[0] == '-' {
      assert s == [s[0]] + s[1..];
    }
  }

  lemma V2Parses(raw: string, m: Marker)
    requires IsV2(raw, m.generation, m.count, m.digest)
    ensures Parse(raw) == Some(m)
  {
    hide Split, Atoi;
    var count := raw[36..|raw| - 65];
    assert raw == raw[..36] + count + raw[|raw| - 65..];
    assert raw[3..] == m.generation + [':'] + count + [':'] + m.digest;
    assert raw[..3] == raw[..36][..3] == "v2:";
    HexHasNo(m.generation, ':');
    HexHasNo(m.digest, ':');
    NumbersHaveNo(count, ':');
    SplitThree(m.generation, count, m.digest, ':');
  }

  lemma ParsesV2(raw: string, m: Marker)
    requires Parse(raw) == Some(m) && m.generation != ""
    ensures IsV2(raw, m.generation, m.count, m.digest)
  {
    hide Split, Atoi;
    var parts := Split(raw[3..], ':');
    SplitJoins(raw[3..], ':');
    var tail := parts[0] + [':'] + parts[1] + [':'] + parts[2];
    assert raw == "v2:" + tail;
    assert raw[..36] == "v2:" + parts[0] + ":";
    assert raw[36..|raw| - 65] == parts[1];
    assert raw[|raw| - 65..] == ":" + parts[2];
  }

  /** A text is accepted, and as which marker, exactly by its form. */
  lemma ParseExactly(raw: string, m: Marker)
    ensures Parse(raw) == Some(m) <==>
              if m.generation == "" then m.digest == "" && IsLegacy(raw, m.count)
              else IsV2(raw, m.generation, m.count, m.digest)
  {
    if m.generation != "" {
      if Parse(raw) == Some(m) {
        ParsesV2(raw, m);
      }
      if IsV2(raw, m.generation, m.count, m.digest) {
        V2Parses(raw, m);
      }
    }
  }

  // Item names

  function PreviousName(key: string): string { key + "#previous" }

  function LegacyCountName(key: string): string { key + "#legacy-count" }

  function ChunkName(key: string, m: Marker, i: nat): string {
    if m.generation == "" then key + "#" + Itoa(i)
    else key + "#" + m.generation + "#" + Itoa(i)
  }

  /** The store key an item name belongs to: everything before the first '#'. */
  function Owner(name: string): string { name[..IndexOf(name, '#')] }

  lemma OwnerOfSuffixed(key: string, rest: string)
    requires '#' !in key
    ensures Owner(key + "#" + rest) == key
  {
    IndexOfCut(key, rest, '#');
  }

  /** Every item of a key is owned by that key, so distinct keys never share an item. */
  lemma ItemsOwned(key: string, m: Marker, i: nat)
    requires '#' !in key
    ensures Owner(key) == Owner(PreviousName(key)) == Owner(LegacyCountName(key)) == Owner(ChunkName(key, m, i)) == key
  {
    OwnerOfSuffixed(key, "previous");
    OwnerOfSuffixed(key, "legacy-count");
    if m.generation == "" {
      OwnerOfSuffixed(key, Itoa(i));
    } else {
      assert ChunkName(key, m, i) == key + "#" + (m.generation + "#" + Itoa(i));
      OwnerOfSuffixed(key, m.generation + "#" + Itoa(i));
    }
  }

  /** What follows the key and its '#' in a chunk name. */
  function ChunkTail(m: Marker, i: nat): string {
    if m.generation == "" then Itoa(i) else m.generation + "#" + Itoa(i)
  }

  lemma ChunkNameTail(key: string, m: Marker, i: nat)
    ensures ChunkName(key, m, i) == key + "#" + ChunkTail(m, i)
  {
  }

  /** The three marker items are distinct from each other and from every chunk. */
  lemma MarkerItemsApart(key: string, m: Marker, i: nat)
    requires WellFormed(m)
    ensures key != PreviousName(key) && key != LegacyCountName(key) && PreviousName(key) != LegacyCountName(key)
    ensures ChunkName(key, m, i) !in {key, PreviousName(key), LegacyCountName(key)}
  {
    var tail := ChunkTail(m, i);
    ChunkNameTail(key, m, i);
    assert |key| < |PreviousName(key)| < |LegacyCountName(key)|;
    assert |ChunkName(key, m, i)| > |key|;
    assert IsHex(tail[0]);
    var at := |key| + 1;
    assert ChunkName(key, m, i)[at] == tail[0];
    assert PreviousName(key)[at] == 'p' && LegacyCountName(key)[at] == 'l';
  }

  /** Chunk names determine generation and index. */
  lemma ChunkNamesApart(key: string, m: Marker, i: nat, n: Marker, j: nat)
    requires WellFormed(m) && WellFormed(n)
    ensures ChunkName(key, m, i) == ChunkName(key, n, j) <==> m.generation == n.generation && i == j
  {
    if ChunkName(key, m, i) == ChunkName(key, n, j) {
      ChunkNameTail(key, m, i);
      ChunkNameTail(key, n, j);
      var s, t := ChunkTail(m, i), ChunkTail(n, j);
      assert (key + "#" + s)[|key| + 1..] == s && (key + "#" + t)[|key| + 1..] == t;
      assert s == t;
      assert m.generation != "" ==> s[|m.generation|] == '#';
      assert n.generation != "" ==> t[|n.generation|] == '#';
      if m.generation == "" && n.generation == "" {
        ItoaInjective(i, j);
      } else if m.generation != "" && n.generation != "" {
        HexHasNo(m.generation, '#');
        HexHasNo(n.generation, '#');
        CutUnique(m.generation, Itoa(i), n.generation, Itoa(j), '#');
        ItoaInjective(i, j);
      }
    }
  }
}
