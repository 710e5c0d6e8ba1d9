/**
The string conversions the marker codec relies on: decimal numbers, hexadecimal
digits, splitting at a separator, and ASCII case. A Go string is a sequence of bytes;
one character here stands for one byte.
*/
module Text {
  import opened Wrappers

  /** The largest value of Go's 64-bit int. */
  const MAX_INT: int := 0x7fff_ffff_ffff_ffff

  predicate IsDigit(c: char) { '0' <= c <= '9' }

  predicate IsHex(c: char) { IsDigit(c) || 'a' <= c <= 'f' || 'A' <= c <= 'F' }

  predicate AllDigits(s: string) { forall i :: 0 <= i < |s| ==> IsDigit(s[i]) }

  predicate AllHex(s: string) { forall i :: 0 <= i < |s| ==> IsHex(s[i]) }

  function DigitChar(n: nat): (c: char)
    requires n < 10
    ensures IsDigit(c) && c as int - '0' as int == n
  {
    (n + '0' as int) as char
  }

  /** Decimal spelling without sign or leading zeros. */
  function Itoa(n: nat): (s: string)
    ensures |s| > 0 && AllDigits(s)
  {
    if n < 10 then [DigitChar(n)] else Itoa(n / 10) + [DigitChar(n % 10)]
  }

  function DecimalValue(s: string): nat
    requires AllDigits(s)
  {
    if s == "" then 0
    else 10 * DecimalValue(s[..|s| - 1]) + (s[|s| - 1] as int - '0' as int)
  }

  /** An optional sign, at least one digit and nothing else; None when the value leaves a 64-bit int. */
  function Atoi(s: string): (r: Option<int>)
    ensures r.Some? ==> -MAX_INT - 1 <= r.value <= MAX_INT
  {
    var signed := s != "" && (s[0] == '+' || s[0] == '-');
    var digits := if signed then s[1..] else s;
    if digits == "" || !AllDigits(digits) then None
    else
      var v: int := if signed && s[0] == '-' then 0 - DecimalValue(digits) else DecimalValue(digits);
      if -MAX_INT - 1 <= v <= MAX_INT then Some(v) else None
  }

  lemma {:induction false} DecimalValueItoa(n: nat)
    ensures DecimalValue(Itoa(n)) == n
  {
    if n >= 10 {
      DecimalValueItoa(n / 10);
      assert Itoa(n)[..|Itoa(n)| - 1] == Itoa(n / 10);
    } else {
      assert Itoa(n)[..0] == "";
    }
  }

  lemma ItoaInjective(m: nat, n: nat)
    requires Itoa(m) == Itoa(n)
    ensures m == n
  {
    DecimalValueItoa(m);
    DecimalValueItoa(n);
  }

  lemma AtoiItoa(n: nat)
    requires n <= MAX_INT
    ensures Atoi(Itoa(n)) == Some(n)
  {
    DecimalValueItoa(n);
    assert IsDigit(Itoa(n)[0]);
  }

  // Which texts are numbers

  function Zeros(k: nat): (s: string)
    ensures |s| == k && AllDigits(s)
  {
    seq(k, _ => '0')
  }

  lemma {:induction false} DigitsSpell(s: string)
    requires s != "" && AllDigits(s)
    ensures |Itoa(DecimalValue(s))| <= |s| && s == Zeros(|s| - |Itoa(DecimalValue(s))|) + Itoa(DecimalValue(s))
  {
    hide Itoa, Zeros;
    var p, c := s[..|s| - 1], s[|s| - 1];
    var d := c as int - '0' as int;
    assert s == p + [c] && DigitChar(d) == c;
    AppendDigit(DecimalValue(p), d);
    if p == "" {
      assert Zeros(0) == "";
    } else {
      DigitsSpell(p);
      if DecimalValue(p) == 0 {
        ZerosEnd(|p|);
        AppendDigit(0, 0);
      }
    }
  }

  lemma AppendDigit(n: nat, d: nat)
    requires d < 10
    ensures Itoa(10 * n + d) == if n == 0 then [DigitChar(d)] else Itoa(n) + [DigitChar(d)]
  {
  }

  lemma ZerosEnd(k: nat)
    requires k > 0
    ensures Zeros(k) == Zeros(k - 1) + "0"
  {
  }

  lemma {:induction false} ZerosAddNothing(k: nat, s: string)
    requires AllDigits(s)
    ensures DecimalValue(Zeros(k) + s) == DecimalValue(s)
  {
    if s != "" {
      assert (Zeros(k) + s)[..k + |s| - 1] == Zeros(k) + s[..|s| - 1];
      ZerosAddNothing(k, s[..|s| - 1]);
    } else {
      assert Zeros(k) + s == Zeros(k);
      if k > 0 {
        assert Zeros(k)[..k - 1] == Zeros(k - 1) == Zeros(k - 1) + "";
        ZerosAddNothing(k - 1, "");
      }
    }
  }

  /** The text is the number's decimal spelling after an optional sign and any zeros. */
  predicate Spelling(s: string, v: int, k: nat) {
    || (v >= 0 && s in {Zeros(k) + Itoa(v), "+" + Zeros(k) + Itoa(v)})
    || (v <= 0 && s == "-" + Zeros(k) + Itoa(-v))
  }

  lemma SpellingReads(s: string, v: int, k: nat)
    requires Spelling(s, v, k) && -MAX_INT - 1 <= v <= MAX_INT
    ensures Atoi(s) == Some(v)
  {
    hide Itoa, Zeros, DecimalValue;
    var n := if v >= 0 then v else -v;
    var digits := Zeros(k) + Itoa(n);
    ZerosAddNothing(k, Itoa(n));
    DecimalValueItoa(n);
    assert IsDigit(digits[0]) && AllDigits(digits);
    if s != digits {
      assert s[1..] == digits;
    }
  }

  lemma ReadsSpelling(s: string, v: int) returns (k: nat)
    requires Atoi(s) == Some(v)
    ensures Spelling(s, v, k)
  {
    hide Itoa, Zeros, DecimalValue;
    var digits := if s[0] == '+' || s[0] == '-' then s[1..] else s;
    DigitsSpell(digits);
    k := |digits| - |Itoa(DecimalValue(digits))|;
    if s != digits {
      assert s == [s[0]] + digits;
      assert [s[0]] + Zeros(k) + Itoa(DecimalValue(digits)) == [s[0]] + digits;
    }
  }

  /** Atoi accepts exactly the spellings of the numbers of a 64-bit int, with a sign or leading zeros if need be. */
  lemma AtoiExactly(s: string, v: int)
    ensures Atoi(s) == Some(v) <==>
              -0x8000_0000_0000_0000 <= v <= 0x7fff_ffff_ffff_ffff && exists k :: Spelling(s, v, k)
  {
    hide Atoi, Spelling;
    if Atoi(s) == Some(v) {
      var k := ReadsSpelling(s, v);
    }
    forall k | -0x8000_0000_0000_0000 <= v <= 0x7fff_ffff_ffff_ffff && Spelling(s, v, k) ensures Atoi(s) == Some(v) {
      SpellingReads(s, v, k);
    }
  }

  /** The decimal spelling ends with the last digit, and begins with a zero for zero alone. */
  lemma {:induction false} ItoaByDigits(n: nat)
    ensures var s := Itoa(n);
            && s[|s| - 1] == "0123456789"[n % 10] && (|s| == 1 <==> n < 10) && (s[0] == '0' <==> n == 0)
            && (n >= 10 ==> s[..|s| - 1] == Itoa(n / 10))
  {
    if n >= 10 {
      ItoaByDigits(n / 10);
      assert Itoa(n)[0] == Itoa(n / 10)[0];
    }
  }

  lemma HexExactly(s: string)
    ensures AllHex(s) <==> forall i :: 0 <= i < |s| ==> s[i] in "0123456789abcdefABCDEF"
  {
    forall c: char ensures IsHex(c) <==> c in "0123456789abcdefABCDEF" {
      HexDigit(c);
    }
  }

  lemma HexDigit(c: char)
    ensures IsHex(c) <==> c in "0123456789abcdefABCDEF"
  {
    var all := "0123456789abcdefABCDEF";
    if IsHex(c) {
      var i := if c <= '9' then c as int - '0' as int
               else if c <= 'F' then c as int - 'A' as int + 16 else c as int - 'a' as int + 10;
      assert all[i] == c;
    }
  }

  /** The position of the first separator, or the length of the text. */
  function IndexOf(s: string, sep: char): (i: nat)
    ensures i <= |s| && sep !in s[..i]
    ensures i < |s| ==> s[i] == sep
    ensures i == |s| ==> sep !in s
  {
    if s == "" then 0
    else if s[0] == sep then 0
    else
      var rest := IndexOf(s[1..], sep);
      assert s[..rest + 1] == [s[0]] + s[1..][..rest];
      assert s == [s[0]] + s[1..];
      rest + 1
  }

  /** The parts between separators; always at least one. */
  function Split(s: string, sep: char): (parts: seq<string>)
    ensures |parts| >= 1
    decreases |s|
  {
    var i := IndexOf(s, sep);
    if i == |s| then [s] else [s[..i]] + Split(s[i + 1..], sep)
  }

  lemma {:induction false} IndexOfCut(a: string, b: string, sep: char)
    requires sep !in a
    ensures IndexOf(a + [sep] + b, sep) == |a|
  {
    var s := a + [sep] + b;
    if a == "" {
      assert s[0] == sep;
    } else {
      assert s[0] == a[0] && a[0] in a;
      assert s[1..] == a[1..] + [sep] + b;
      IndexOfCut(a[1..], b, sep);
    }
  }

  /** A text is cut at the first separator in exactly one way. */
  lemma CutUnique(a: string, b: string, c: string, e: string, sep: char)
    requires sep !in a && sep !in c
    requires a + [sep] + b == c + [sep] + e
    ensures a == c && b == e
  {
    var s := a + [sep] + b;
    IndexOfCut(a, b, sep);
    IndexOfCut(c, e, sep);
    assert s[..|a|] == a && s[..|c|] == c;
    assert s[|a| + 1..] == b && s[|c| + 1..] == e;
  }

  lemma SplitCut(a: string, tail: string, sep: char)
    requires sep !in a
    ensures Split(a + [sep] + tail, sep) == [a] + Split(tail, sep)
  {
    var s := a + [sep] + tail;
    IndexOfCut(a, tail, sep);
    assert s[..|a|] == a && s[|a| + 1..] == tail;
  }

  lemma SplitHead(s: string, sep: char)
    ensures |Split(s, sep)| == 1 ==> Split(s, sep) == [s] && sep !in s
    ensures |Split(s, sep)| > 1 ==>
              var p := Split(s, sep);
              && sep !in p[0] && |p[0]| < |s| && s == p[0] + [sep] + s[|p[0]| + 1..]
              && p[1..] == Split(s[|p[0]| + 1..], sep)
  {
    var i := IndexOf(s, sep);
    if i < |s| {
      assert Split(s, sep)[0] == s[..i];
    }
  }

  /** Three parts come from a text with exactly two separators. */
  lemma SplitJoins(s: string, sep: char)
    requires |Split(s, sep)| == 3
    ensures var p := Split(s, sep);
            sep !in p[0] && sep !in p[1] && sep !in p[2] && s == p[0] + [sep] + p[1] + [sep] + p[2]
  {
    hide Split;
    var p := Split(s, sep);
    SplitHead(s, sep);
    var rest := s[|p[0]| + 1..];
    SplitHead(rest, sep);
    var last := rest[|p[1]| + 1..];
    SplitHead(last, sep);
    assert last == p[2] && rest == p[1] + [sep] + p[2];
    assert p[0] + [sep] + rest == p[0] + [sep] + p[1] + [sep] + p[2];
  }

  lemma SplitThree(a: string, b: string, c: string, sep: char)
    requires sep !in a && sep !in b && sep !in c
    ensures Split(a + [sep] + b + [sep] + c, sep) == [a, b, c]
  {
    var tail := b + [sep] + c;
    assert a + [sep] + tail == a + [sep] + b + [sep] + c;
    SplitCut(a, tail, sep);
    SplitCut(b, c, sep);
    assert Split(c, sep) == [c];
  }

  // ASCII case and white space

  function Lower(c: char): char { if 'A' <= c <= 'Z' then (c as int - 'A' as int + 'a' as int) as char else c }

  function ToLower(s: string): (r: string)
    ensures |r| == |s| && forall i :: 0 <= i < |s| ==> r[i] == Lower(s[i])
  {
    seq(|s|, i requires 0 <= i < |s| => Lower(s[i]))
  }

  lemma LowerFixed(s: string)
    requires forall i :: 0 <= i < |s| ==> !('A' <= s[i] <= 'Z')
    ensures ToLower(s) == s
  {
  }

  /** Equality of ASCII texts up to case. */
  predicate EqualFold(a: string, b: string) {
    |a| == |b| && forall i :: 0 <= i < |a| ==> Lower(a[i]) == Lower(b[i])
  }

  /** The code folds in two ways, which agree on ASCII. */
  lemma FoldsAgree(a: string, b: string)
    ensures EqualFold(a, b) <==> ToLower(a) == ToLower(b)
  {
    if ToLower(a) == ToLower(b) {
      forall i | 0 <= i < |a| ensures Lower(a[i]) == Lower(b[i]) {
        assert ToLower(a)[i] == ToLower(b)[i];
      }
    }
  }

  /** Up to case, texts agree in length and in every character, a letter with itself or its other case. */
  lemma FoldsLetters(a: string, b: string)
    ensures EqualFold(a, b) <==>
              && |a| == |b|
              && forall i :: 0 <= i < |a| ==>
                   || a[i] == b[i]
                   || ('A' <= a[i] <= 'Z' && b[i] as int == a[i] as int + 32)
                   || ('A' <= b[i] <= 'Z' && a[i] as int == b[i] as int + 32)
  {
    assert forall c: char, e: char :: Lower(c) == Lower(e) <==>
        || c == e || ('A' <= c <= 'Z' && e as int == c as int + 32) || ('A' <= e <= 'Z' && c as int == e as int + 32);
  }

  predicate IsSpace(c: char) { 9 <= c as int <= 13 || c == ' ' }

  function TrimLeft(s: string): string { if s != "" && IsSpace(s[0]) then TrimLeft(s[1..]) else s }

  function TrimRight(s: string): string {
    if s != "" && IsSpace(s[|s| - 1]) then TrimRight(s[..|s| - 1]) else s
  }

  function TrimSpace(s: string): string { TrimRight(TrimLeft(s)) }

  lemma {:induction false} TrimLeftFixed(s: string)
    ensures |TrimLeft(s)| <= |s| && (TrimLeft(s) == s <==> s == "" || !IsSpace(s[0]))
    ensures TrimLeft(s) != s ==> |TrimLeft(s)| < |s|
  {
    if s != "" && IsSpace(s[0]) {
      TrimLeftFixed(s[1..]);
    }
  }

  lemma {:induction false} TrimRightFixed(s: string)
    ensures |TrimRight(s)| <= |s| && (TrimRight(s) == s <==> s == "" || !IsSpace(s[|s| - 1]))
  {
    if s != "" && IsSpace(s[|s| - 1]) {
      TrimRightFixed(s[..|s| - 1]);
    }
  }

  /** A text is trimmed exactly when neither end is one of the six ASCII spaces. */
  lemma TrimmedExactly(s: string)
    ensures TrimSpace(s) == s <==> s == "" || (s[0] as int !in {9, 10, 11, 12, 13, 32}
                                               && s[|s| - 1] as int !in {9, 10, 11, 12, 13, 32})
  {
    TrimLeftFixed(s);
    TrimRightFixed(TrimLeft(s));
  }
}
