/**
The listing order of accounts (accounts.go): compareAccounts is a total preorder, and exactly
the ties between different entries let the order of the cache show in the listing.
*/
module AccountOrder {
  import opened Text
  import opened Accounts

  /** cmp.Compare on byte strings. */
  function CompareText(a: string, b: string): (r: int)
    ensures -1 <= r <= 1
  {
    if a == "" then if b == "" then 0 else -1
    else if b == "" then 1
    else if a[0] < b[0] then -1
    else if a[0] > b[0] then 1
    else CompareText(a[1..], b[1..])
  }

  lemma {:induction false} CompareTextLaws(a: string, b: string)
    ensures CompareText(a, b) == 0 <==> a == b
    ensures CompareText(b, a) == -CompareText(a, b)
  {
    if a != "" && b != "" && a[0] == b[0] {
      CompareTextLaws(a[1..], b[1..]);
      assert a == [a[0]] + a[1..] && b == [b[0]] + b[1..];
    }
  }

  lemma {:induction false} CompareTextTransitive(a: string, b: string, c: string)
    requires CompareText(a, b) <= 0 && CompareText(b, c) <= 0
    ensures CompareText(a, c) <= 0
    ensures CompareText(a, b) < 0 || CompareText(b, c) < 0 ==> CompareText(a, c) < 0
  {
    if a != "" && b != "" && c != "" && a[0] == b[0] && b[0] == c[0] {
      CompareTextTransitive(a[1..], b[1..], c[1..]);
    }
  }

  /** The order of bytes: a is before b if it is a proper prefix, or smaller at the first difference. */
  lemma {:induction false} CompareTextIsByteOrder(a: string, b: string)
    ensures CompareText(a, b) < 0 <==>
              exists k :: 0 <= k <= |a| && k <= |b| && a[..k] == b[..k]
                          && ((k == |a| && k < |b|) || (k < |a| && k < |b| && a[k] as int < b[k] as int))
  {
    if a == "" || b == "" || a[0] != b[0] {
      assert a[..0] == b[..0];
      forall k | 0 < k <= |a| && k <= |b| ensures a[..k][0] == a[0] && b[..k][0] == b[0] {
      }
    } else {
      var c, e := a[1..], b[1..];
      CompareTextIsByteOrder(c, e);
      forall k | 0 <= k <= |c| && k <= |e| ensures c[..k] == e[..k] <==> a[..k + 1] == b[..k + 1] {
        assert a[..k + 1] == [a[0]] + c[..k] && b[..k + 1] == [b[0]] + e[..k];
        assert a[..k + 1][1..] == c[..k] && b[..k + 1][1..] == e[..k];
      }
      if CompareText(a, b) < 0 {
        var k :| 0 <= k <= |c| && k <= |e| && c[..k] == e[..k]
                 && ((k == |c| && k < |e|) || (k < |c| && k < |e| && c[k] as int < e[k] as int));
        assert a[..k + 1] == b[..k + 1];
      }
      if k :| 0 <= k <= |a| && k <= |b| && a[..k] == b[..k]
              && ((k == |a| && k < |b|) || (k < |a| && k < |b| && a[k] as int < b[k] as int)) {
        assert k > 0;
        assert c[..k - 1] == e[..k - 1];
      }
    }
  }

  /** The five fields that decide, in their order. */
  function SortKey(info: Info): seq<string> {
    [info.ref.home, ToLower(info.ref.environment), info.ref.tenant, info.ref.local, info.cacheRealm]
  }

  /** The first difference decides. */
  function CompareKeys(a: seq<string>, b: seq<string>): int
    requires |a| == |b|
  {
    if a == [] then 0
    else if CompareText(a[0], b[0]) != 0 then CompareText(a[0], b[0])
    else CompareKeys(a[1..], b[1..])
  }

  function CompareAccounts(a: Info, b: Info): int { CompareKeys(SortKey(a), SortKey(b)) }

  /** Home id, environment up to case, tenant, local id and cache realm decide, in that order. */
  lemma FieldsInOrder(a: Info, b: Info)
    ensures CompareAccounts(a, b)
            == if a.ref.home != b.ref.home then CompareText(a.ref.home, b.ref.home)
               else if ToLower(a.ref.environment) != ToLower(b.ref.environment)
               then CompareText(ToLower(a.ref.environment), ToLower(b.ref.environment))
               else if a.ref.tenant != b.ref.tenant then CompareText(a.ref.tenant, b.ref.tenant)
               else if a.ref.local != b.ref.local then CompareText(a.ref.local, b.ref.local)
               else CompareText(a.cacheRealm, b.cacheRealm)
  {
    hide ToLower, CompareText, CompareKeys;
    var s, t := SortKey(a), SortKey(b);
    forall i | 0 <= i < 5 ensures CompareText(s[i], t[i]) == 0 <==> s[i] == t[i] {
      CompareTextLaws(s[i], t[i]);
    }
    CompareFive(s, t);
  }

  lemma CompareFive(s: seq<string>, t: seq<string>)
    requires |s| == |t| == 5
    ensures CompareKeys(s, t)
            == if CompareText(s[0], t[0]) != 0 then CompareText(s[0], t[0])
               else if CompareText(s[1], t[1]) != 0 then CompareText(s[1], t[1])
               else if CompareText(s[2], t[2]) != 0 then CompareText(s[2], t[2])
               else if CompareText(s[3], t[3]) != 0 then CompareText(s[3], t[3])
               else CompareText(s[4], t[4])
  {
    hide CompareText, CompareKeys;
    CompareFrom(s, t, 0);
    CompareFrom(s, t, 1);
    CompareFrom(s, t, 2);
    CompareFrom(s, t, 3);
    CompareFrom(s, t, 4);
    assert s[0..] == s && t[0..] == t;
  }

  lemma CompareFrom(s: seq<string>, t: seq<string>, i: nat)
    requires i < |s| == |t|
    ensures CompareKeys(s[i..], t[i..])
            == if CompareText(s[i], t[i]) != 0 then CompareText(s[i], t[i])
               else if i + 1 == |s| then 0 else CompareKeys(s[i + 1..], t[i + 1..])
  {
    hide CompareText;
    assert s[i..][1..] == s[i + 1..] && t[i..][1..] == t[i + 1..];
  }

  lemma {:induction false} CompareKeysLaws(a: seq<string>, b: seq<string>)
    requires |a| == |b|
    ensures CompareKeys(a, b) == 0 <==> a == b
    ensures CompareKeys(b, a) == -CompareKeys(a, b)
  {
    if a != [] {
      CompareTextLaws(a[0], b[0]);
      CompareKeysLaws(a[1..], b[1..]);
      assert a == [a[0]] + a[1..] && b == [b[0]] + b[1..];
    }
  }

  lemma {:induction false} CompareKeysTransitive(a: seq<string>, b: seq<string>, c: seq<string>)
    requires |a| == |b| == |c| && CompareKeys(a, b) <= 0 && CompareKeys(b, c) <= 0
    ensures CompareKeys(a, c) <= 0
  {
    if a != [] {
      CompareTextLaws(a[0], b[0]);
      CompareTextLaws(b[0], c[0]);
      CompareTextTransitive(a[0], b[0], c[0]);
      if a[0] == b[0] == c[0] {
        CompareKeysTransitive(a[1..], b[1..], c[1..]);
      }
    }
  }

  /**
  compareAccounts orders any two entries one way round, consistently, and ties exactly those
  that differ at most in the case of the environment or in the display fields.
  */
  lemma CompareIsPreorder(a: Info, b: Info, c: Info)
    ensures CompareAccounts(a, b) == 0 <==>
              && a.ref.(environment := "") == b.ref.(environment := "") &&
                   EqualFold(a.ref.environment, b.ref.environment)
              && a.cacheRealm == b.cacheRealm
    ensures CompareAccounts(b, a) == -CompareAccounts(a, b)
    ensures CompareAccounts(a, b) <= 0 && CompareAccounts(b, c) <= 0 ==> CompareAccounts(a, c) <= 0
  {
    hide CompareKeys, ToLower, EqualFold;
    CompareKeysLaws(SortKey(a), SortKey(b));
    FoldsAgree(a.ref.environment, b.ref.environment);
    if CompareAccounts(a, b) <= 0 && CompareAccounts(b, c) <= 0 {
      CompareKeysTransitive(SortKey(a), SortKey(b), SortKey(c));
    }
    if SortKey(a) == SortKey(b) {
      assert forall i :: 0 <= i < 5 ==> SortKey(a)[i] == SortKey(b)[i];
    }
  }

  predicate Sorted(infos: seq<Info>) {
    forall i, j :: 0 <= i < j < |infos| ==> CompareAccounts(infos[i], infos[j]) <= 0
  }

  // Applying a function to every entry of a list

  function Map<A, B>(f: A -> B, s: seq<A>): (r: seq<B>)
    ensures |r| == |s| && forall i :: 0 <= i < |s| ==> r[i] == f(s[i])
  {
    if s == [] then [] else Map(f, s[..|s| - 1]) + [f(s[|s| - 1])]
  }

  function Without<A>(s: seq<A>, j: nat): (r: seq<A>)
    requires j < |s|
    ensures |r| == |s| - 1
  {
    s[..j] + s[j + 1..]
  }

  lemma WithoutCounts<A>(s: seq<A>, j: nat)
    requires j < |s|
    ensures multiset(s) == multiset(Without(s, j)) + multiset{s[j]}
  {
    assert s == s[..j] + [s[j]] + s[j + 1..];
  }

  lemma WithoutAt<A>(s: seq<A>, j: nat, k: nat)
    requires j < |s| && k < |s| - 1
    ensures Without(s, j)[k] == if k < j then s[k] else s[k + 1]
  {
  }

  lemma MapWithout<A, B>(f: A -> B, s: seq<A>, j: nat)
    requires j < |s|
    ensures multiset(Map(f, s)) == multiset(Map(f, Without(s, j))) + multiset{f(s[j])}
  {
    hide Map, Without;
    var all, rest := Map(f, s), Map(f, Without(s, j));
    WithoutCounts(all, j);
    forall k | 0 <= k < |rest| ensures rest[k] == Without(all, j)[k] {
      WithoutAt(s, j, k);
      WithoutAt(all, j, k);
    }
    assert rest == Without(all, j);
  }

  lemma Cancels<A>(m: multiset<A>, n: multiset<A>, x: A)
    requires m + multiset{x} == n + multiset{x}
    ensures m == n
  {
    assert m == (m + multiset{x}) - multiset{x};
    assert n == (n + multiset{x}) - multiset{x};
  }

  lemma {:induction false} MapPermutes<A, B>(f: A -> B, a: seq<A>, b: seq<A>)
    requires multiset(a) == multiset(b)
    ensures multiset(Map(f, a)) == multiset(Map(f, b))
    decreases |a|
  {
    hide Map, Without;
    assert |multiset(a)| == |multiset(b)|;
    if a != [] {
      assert a[0] in multiset(b);
      var j :| 0 <= j < |b| && b[j] == a[0];
      WithoutCounts(a, 0);
      WithoutCounts(b, j);
      Cancels(multiset(Without(a, 0)), multiset(Without(b, j)), a[0]);
      MapPermutes(f, Without(a, 0), Without(b, j));
      MapWithout(f, a, 0);
      MapWithout(f, b, j);
    } else {
      assert b == [];
    }
  }

  function Keys(infos: seq<Info>): seq<seq<string>> { Map(SortKey, infos) }

  /** An entry of one arrangement has an equal key in the other. */
  lemma {:induction false} SortedArrangementsAgree(a: seq<Info>, b: seq<Info>)
    requires Sorted(a) && Sorted(b) && multiset(Keys(a)) == multiset(Keys(b))
    ensures Keys(a) == Keys(b)
  {
    hide CompareAccounts, SortKey;
    assert |multiset(Keys(a))| == |multiset(Keys(b))|;
    if a != [] {
      var n := |a| - 1;
      LastIsGreatest(a, b);
      LastIsGreatest(b, a);
      CompareSame(a[n], b[n]);
      assert Keys(a) == Keys(a[..n]) + [SortKey(a[n])];
      assert Keys(b) == Keys(b[..n]) + [SortKey(b[n])];
      assert multiset(Keys(a[..n])) == multiset(Keys(a)) - multiset{SortKey(a[n])};
      assert multiset(Keys(b[..n])) == multiset(Keys(b)) - multiset{SortKey(b[n])};
      SortedArrangementsAgree(a[..n], b[..n]);
    }
  }

  lemma CompareSame(x: Info, y: Info)
    requires CompareAccounts(x, y) <= 0 && CompareAccounts(y, x) <= 0
    ensures SortKey(x) == SortKey(y)
  {
    CompareKeysLaws(SortKey(x), SortKey(y));
  }

  lemma LastIsGreatest(a: seq<Info>, b: seq<Info>)
    requires a != [] && b != [] && Sorted(b) && multiset(Keys(a)) == multiset(Keys(b))
    ensures CompareAccounts(a[|a| - 1], b[|b| - 1]) <= 0
  {
    hide SortKey, CompareKeys;
    var x := a[|a| - 1];
    assert Keys(a)[|a| - 1] in multiset(Keys(b));
    var j :| 0 <= j < |b| && Keys(b)[j] == SortKey(x);
    CompareKeysLaws(SortKey(x), SortKey(x));
    assert CompareAccounts(x, b[|b| - 1]) == CompareAccounts(b[j], b[|b| - 1]);
    assert j < |b| - 1 ==> CompareAccounts(b[j], b[|b| - 1]) <= 0;
  }

  function Infos(accounts: seq<Account>): seq<Info> { Map(CachedAccountInfo, accounts) }

  lemma InsertSorts(infos: seq<Info>, info: Info, at: nat)
    requires Sorted(infos) && at <= |infos|
    requires forall i :: at <= i < |infos| ==> CompareAccounts(info, infos[i]) <= 0
    requires at > 0 ==> CompareAccounts(infos[at - 1], info) <= 0
    ensures Sorted(infos[..at] + [info] + infos[at..])
  {
    hide CompareAccounts, EqualFold;
    forall i | 0 <= i < at ensures CompareAccounts(infos[i], info) <= 0 {
      if i < at - 1 {
        CompareIsPreorder(infos[i], infos[at - 1], info);
      }
    }
  }

  /** Behind the last entry that does not exceed the new one. */
  function Place(infos: seq<Info>, info: Info): (at: nat)
    ensures at <= |infos| && (at > 0 ==> CompareAccounts(infos[at - 1], info) <= 0)
    ensures forall i :: at <= i < |infos| ==> CompareAccounts(infos[i], info) > 0
  {
    if infos == [] || CompareAccounts(infos[|infos| - 1], info) <= 0 then |infos| else Place(infos[..|infos| - 1], info)
  }

  function Inserted(infos: seq<Info>, info: Info): seq<Info> {
    infos[..Place(infos, info)] + [info] + infos[Place(infos, info)..]
  }

  lemma InsertedSorts(infos: seq<Info>, info: Info)
    requires Sorted(infos)
    ensures Sorted(Inserted(infos, info)) && multiset(Inserted(infos, info)) == multiset(infos) + multiset{info}
  {
    hide CompareAccounts, EqualFold;
    var at := Place(infos, info);
    forall i | at <= i < |infos| ensures CompareAccounts(info, infos[i]) <= 0 {
      CompareIsPreorder(infos[i], info, info);
    }
    InsertSorts(infos, info, at);
    assert infos == infos[..at] + infos[at..];
  }

  /** One way to sort. */
  function Arranged(infos: seq<Info>): seq<Info> {
    if infos == [] then [] else Inserted(Arranged(infos[..|infos| - 1]), infos[|infos| - 1])
  }

  lemma {:induction false} ArrangedSorts(infos: seq<Info>)
    ensures Sorted(Arranged(infos)) && multiset(Arranged(infos)) == multiset(infos)
  {
    hide CompareAccounts, Inserted, Sorted;
    if infos != [] {
      var n := |infos| - 1;
      ArrangedSorts(infos[..n]);
      InsertedSorts(Arranged(infos[..n]), infos[n]);
      assert infos == infos[..n] + [infos[n]];
    } else {
      NothingIsSorted();
    }
  }

  lemma NothingIsSorted()
    ensures Sorted([])
  {
  }

  /** A sorted arrangement of the cache's entries. */
  predicate Listing(accounts: seq<Account>, infos: seq<Info>) {
    Sorted(infos) && multiset(infos) == multiset(Infos(accounts))
  }

  /** The listing: every cached entry's metadata, then sorted. */
  method ListAccounts(accounts: seq<Account>) returns (infos: seq<Info>)
    ensures Listing(accounts, infos)
  {
    infos := [];
    for i := 0 to |accounts|
      invariant infos == Infos(accounts[..i])
    {
      assert accounts[..i + 1][..i] == accounts[..i];
      infos := infos + [CachedAccountInfo(accounts[i])];
    }
    assert accounts[..|accounts|] == accounts;
    ArrangedSorts(infos);
    infos := Arranged(infos);
  }

  /**
  However the cache orders its entries, and whichever algorithm sorts them, the listings agree
  position by position in every compared field.
  */
  lemma ListingsAgreeOnKeys(accounts: seq<Account>, accounts': seq<Account>, infos: seq<Info>, infos': seq<Info>)
    requires multiset(accounts) == multiset(accounts') && Listing(accounts, infos) && Listing(accounts', infos')
    ensures Keys(infos) == Keys(infos')
  {
    MapPermutes(CachedAccountInfo, accounts, accounts');
    MapPermutes(SortKey, infos, infos');
    SortedArrangementsAgree(infos, infos');
  }

  /** Entries that the comparison does not tell apart are the same. */
  predicate TiesEqual(accounts: seq<Account>) {
    var infos := Infos(accounts);
    forall i, j :: 0 <= i < |infos| && 0 <= j < |infos| && SortKey(infos[i]) == SortKey(infos[j]) ==>
        infos[i] == infos[j]
  }

  /** Every order of the cache and every sorting routine give one listing. */
  ghost predicate Determined(accounts: seq<Account>) {
    forall accounts', infos, infos' ::
      multiset(accounts) == multiset(accounts') && Listing(accounts, infos) && Listing(accounts', infos') ==>
          infos == infos'
  }

  lemma MemberOfListing(accounts: seq<Account>, infos: seq<Info>, i: nat) returns (j: nat)
    requires Listing(accounts, infos) && i < |infos|
    ensures j < |Infos(accounts)| && Infos(accounts)[j] == infos[i]
  {
    assert infos[i] in multiset(Infos(accounts));
    j :| 0 <= j < |Infos(accounts)| && Infos(accounts)[j] == infos[i];
  }

  lemma ListingsEqual(accounts: seq<Account>, accounts': seq<Account>, infos: seq<Info>, infos': seq<Info>)
    requires TiesEqual(accounts)
    requires multiset(accounts) == multiset(accounts') && Listing(accounts, infos) && Listing(accounts', infos')
    ensures infos == infos'
  {
    hide SortKey, Listing;
    ListingsAgreeOnKeys(accounts, accounts', infos, infos');
    ListingMoves(accounts, accounts', infos');
    assert |Keys(infos)| == |infos| && |Keys(infos')| == |infos'|;
    forall k | 0 <= k < |infos| ensures infos[k] == infos'[k] {
      assert Keys(infos)[k] == SortKey(infos[k]) && Keys(infos')[k] == SortKey(infos'[k]);
      var i := MemberOfListing(accounts, infos, k);
      var j := MemberOfListing(accounts, infos', k);
    }
  }

  lemma ListingMoves(accounts: seq<Account>, accounts': seq<Account>, infos: seq<Info>)
    requires multiset(accounts) == multiset(accounts') && Listing(accounts', infos)
    ensures Listing(accounts, infos)
  {
    MapPermutes(CachedAccountInfo, accounts, accounts');
  }

  lemma SwapTies(infos: seq<Info>, i: nat, j: nat)
    requires i < |infos| && j < |infos| && SortKey(infos[i]) == SortKey(infos[j]) && Sorted(infos)
    ensures Sorted(infos[i := infos[j]][j := infos[i]])
    ensures multiset(infos[i := infos[j]][j := infos[i]]) == multiset(infos)
  {
    hide SortKey, CompareKeys;
    var swapped := infos[i := infos[j]][j := infos[i]];
    forall k | 0 <= k < |infos| ensures SortKey(swapped[k]) == SortKey(infos[k]) {
    }
    forall k, l | 0 <= k < l < |infos| ensures CompareAccounts(swapped[k], swapped[l]) <= 0 {
      assert CompareAccounts(infos[k], infos[l]) <= 0;
    }
  }

  lemma TiesShow(accounts: seq<Account>, listing: seq<Info>, a: nat, b: nat)
    requires Determined(accounts) && Listing(accounts, listing)
    requires a < |listing| && b < |listing| && SortKey(listing[a]) == SortKey(listing[b])
    ensures listing[a] == listing[b]
  {
    hide SortKey, Sorted;
    SwapTies(listing, a, b);
    var swapped := listing[a := listing[b]][b := listing[a]];
    assert Listing(accounts, swapped);
    assert swapped[b] == listing[b];
  }

  lemma DeterminedHasNoTies(accounts: seq<Account>)
    requires Determined(accounts)
    ensures TiesEqual(accounts)
  {
    hide SortKey, Determined, Sorted, Arranged, Map;
    var infos := Infos(accounts);
    var listing := Arranged(infos);
    ArrangedSorts(infos);
    forall i, j | 0 <= i < |infos| && 0 <= j < |infos| && SortKey(infos[i]) == SortKey(infos[j])
      ensures infos[i] == infos[j]
    {
      assert infos[i] in multiset(listing) && infos[j] in multiset(listing);
      var a, b :| 0 <= a < |listing| && 0 <= b < |listing| && listing[a] == infos[i] && listing[b] == infos[j];
      TiesShow(accounts, listing, a, b);
    }
  }

  /**
  The listing is the same for every order of the cache and every sorting routine if and only if
  no two different entries tie.
  */
  lemma ListingDeterministic(accounts: seq<Account>)
    ensures Determined(accounts) <==> TiesEqual(accounts)
  {
    hide SortKey, Listing;
    if TiesEqual(accounts) {
      forall accounts', infos, infos'
        | multiset(accounts) == multiset(accounts') && Listing(accounts, infos) && Listing(accounts', infos')
        ensures infos == infos'
      {
        ListingsEqual(accounts, accounts', infos, infos');
      }
    } else if Determined(accounts) {
      DeterminedHasNoTies(accounts);
    }
  }

  lemma TiedPair(x: Info, y: Info)
    requires SortKey(x) == SortKey(y)
    ensures Sorted([x, y])
  {
    CompareKeysLaws(SortKey(x), SortKey(y));
  }

  /** Two cached entries whose environments differ in case give two listings, with different references first. */
  lemma ListingsDiffer() returns (accounts: seq<Account>, infos: seq<Info>, infos': seq<Info>)
    ensures Listing(accounts, infos) && Listing(accounts, infos')
    ensures |infos| == |infos'| == 2 && infos[0].ref != infos'[0].ref
  {
    hide Sorted, CompareKeys;
    var a, b := Account("h", "L", "t", "", "", ""), Account("h", "l", "t", "", "", "");
    var x, y := CachedAccountInfo(a), CachedAccountInfo(b);
    assert x.ref.environment == "L" && y.ref.environment == "l";
    assert ToLower("L") == ToLower("l");
    assert SortKey(x) == SortKey(y);
    accounts, infos, infos' := [a, b], [x, y], [y, x];
    assert Infos(accounts) == infos;
    TiedPair(x, y);
    TiedPair(y, x);
    assert multiset(infos) == multiset{x, y} == multiset(infos');
  }
}
