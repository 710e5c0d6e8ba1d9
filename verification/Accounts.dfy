/**
Exact account binding (accounts.go): from a login result to a reference, from the reference to
an authority and to one cached account, and from a token result back to the reference.
*/
module Accounts {
  import opened Wrappers
  import opened Text

  const PERSONAL_TENANT := "9188040d-6c67-4c5b-b112-36a304b66dad"

  /** The fields of a cached MSAL account that the code reads. */
  datatype Account = Account(
    home: string, environment: string, realm: string, local: string, username: string, name: string)

  /** Of the ID token only the tenant claim and the name are read. */
  datatype AuthResult = AuthResult(account: Account, claim: string, name: string)

  datatype Ref = Ref(home: string, environment: string, tenant: string, local: string)

  datatype Info = Info(ref: Ref, username: string, name: string, cacheRealm: string)

  datatype Error = Mismatch | InvalidRef | Ambiguous | LoginRequired

  datatype Result<+T> = Ok(value: T) | Err(error: Error)

  predicate IsDiscoveryTenant(tenant: string) {
    EqualFold(tenant, "common") || EqualFold(tenant, "organizations") || EqualFold(tenant, "consumers")
  }

  function CachedAccountInfo(account: Account): Info {
    var tenant :=
      if EqualFold(account.realm, "consumers") then PERSONAL_TENANT
      else if IsDiscoveryTenant(account.realm) then ""
      else account.realm;
    Info(Ref(account.home, account.environment, tenant, account.local), account.username, account.name, account.realm)
  }

  predicate CleanIdentityField(value: string) {
    && value != "" && TrimSpace(value) == value
    && forall i :: 0 <= i < |value| ==> value[i] >= ' ' && value[i] != 127 as char
  }

  predicate ContainsAny(s: string, chars: string) { exists i :: 0 <= i < |s| && s[i] in chars }

  predicate ValidRef(ref: Ref) {
    && CleanIdentityField(ref.home) && CleanIdentityField(ref.environment)
    && CleanIdentityField(ref.tenant) && !IsDiscoveryTenant(ref.tenant)
    && (ref.local != "" ==> CleanIdentityField(ref.local))
    && !ContainsAny(ref.environment, "/\\:@?#%") && !ContainsAny(ref.tenant, "/\\:@?#%")
  }

  function LoginAccountInfo(result: AuthResult): Result<Info> {
    var info := CachedAccountInfo(result.account);
    if result.claim == "" || IsDiscoveryTenant(result.claim) ||
        (info.ref.tenant != "" && info.ref.tenant != result.claim)
    then Err(Mismatch)
    else
      var ref := info.ref.(tenant := result.claim);
      if !ValidRef(ref) then Err(Mismatch) else Ok(info.(ref := ref, name := result.name))
  }

  // The authority

  /** A configured authority as the URL parser splits it. */
  datatype Url = Url(
    scheme: string, user: bool, host: string, path: string, rawPath: string, rawQuery: string, fragment: string)

  datatype Configured = Unset | Malformed | Parsed(u: Url)

  /** The path without its first slash. */
  function TenantOf(u: Url): string { if u.path != "" && u.path[0] == '/' then u.path[1..] else u.path }

  predicate EnvironmentFits(u: Url, ref: Ref) {
    && u.scheme == "https" && !u.user && u.rawQuery == "" && u.fragment == "" && u.rawPath == ""
    && EqualFold(u.host, ref.environment)
  }

  predicate TenantFits(tenant: string, ref: Ref) {
    var alias := ToLower(tenant);
    && tenant != "" && '/' !in tenant
    && (tenant == ref.tenant || IsDiscoveryTenant(tenant))
    && (alias == "consumers" ==> ref.tenant == PERSONAL_TENANT)
    && (alias == "organizations" ==> ref.tenant != PERSONAL_TENANT)
  }

  /** The tenant part of the pinned authority. */
  function PinnedTenant(ref: Ref): string { if ref.tenant == PERSONAL_TENANT then "consumers" else ref.tenant }

  function Authority(environment: string, tenant: string): string { "https://" + environment + "/" + tenant }

  function AccountAuthority(configured: Configured, ref: Ref): Result<string> {
    match configured
    case Malformed => Err(Mismatch)
    case Parsed(u) =>
      if EnvironmentFits(u, ref) && TenantFits(TenantOf(u), ref)
      then Ok(Authority(ref.environment, PinnedTenant(ref))) else Err(Mismatch)
    case Unset => Ok(Authority(ref.environment, PinnedTenant(ref)))
  }

  /** The checks of NewForAccount: the pinned authority, or why the client cannot be bound. */
  function BindAuthority(configuredAccount: string, configured: Configured, ref: Ref): Result<string> {
    if !ValidRef(ref) || configuredAccount != "" then Err(InvalidRef) else AccountAuthority(configured, ref)
  }

  // Selection

  predicate SameAccountIdentity(account: Account, ref: Ref) {
    && account.home == ref.home && EqualFold(account.environment, ref.environment)
    && (ref.local == "" || account.local == ref.local)
  }

  /** The account's realm proves the reference's tenant. */
  predicate IsExact(account: Account, ref: Ref) {
    && SameAccountIdentity(account, ref)
    && (account.realm == ref.tenant || (ToLower(account.realm) == "consumers" && ref.tenant == PERSONAL_TENANT))
  }

  /** The realm is an alias that proves nothing, but the local id selects the identity. */
  predicate IsDiscovery(account: Account, ref: Ref) {
    && SameAccountIdentity(account, ref) && !IsExact(account, ref)
    && ToLower(account.realm) in {"common", "organizations"} && ref.local != ""
  }

  predicate Matches(account: Account, ref: Ref) { IsExact(account, ref) || IsDiscovery(account, ref) }

  predicate InClass(account: Account, ref: Ref, exact: bool) {
    if exact then IsExact(account, ref) else IsDiscovery(account, ref)
  }

  /** The entries of one class, in list order. */
  function Class(accounts: seq<Account>, ref: Ref, exact: bool): seq<Account> {
    if accounts == [] then []
    else
      var last := accounts[|accounts| - 1];
      Class(accounts[..|accounts| - 1], ref, exact) + if InClass(last, ref, exact) then [last] else []
  }

  /** What selectExactAccount returns, by the entries of each class. */
  function Selected(accounts: seq<Account>, ref: Ref): Result<Account> {
    var candidates := Class(accounts, ref, Class(accounts, ref, true) != []);
    if |candidates| > 1 then Err(Ambiguous) else if candidates == [] then Err(LoginRequired) else Ok(candidates[0])
  }

  method SelectExactAccount(accounts: seq<Account>, ref: Ref) returns (r: Result<Account>)
    ensures r == Selected(accounts, ref)
  {
    var exact: seq<Account>, discovery: seq<Account> := [], [];
    for i := 0 to |accounts|
      invariant exact == Class(accounts[..i], ref, true) && discovery == Class(accounts[..i], ref, false)
    {
      assert accounts[..i + 1][..i] == accounts[..i];
      var account := accounts[i];
      if !SameAccountIdentity(account, ref) {
        continue;
      }
      var alias := ToLower(account.realm);
      if account.realm == ref.tenant || (alias == "consumers" && ref.tenant == PERSONAL_TENANT) {
        exact := exact + [account];
      } else if (alias == "common" || alias == "organizations") && ref.local != "" {
        discovery := discovery + [account];
      }
    }
    assert accounts[..|accounts|] == accounts;
    if exact == [] {
      exact := discovery;
    }
    if |exact| > 1 {
      return Err(Ambiguous);
    }
    if exact == [] {
      return Err(LoginRequired);
    }
    return Ok(exact[0]);
  }

  /** A bound client's check of a token result; MSAL may return no account metadata at all. */
  function CheckTokenAccount(bound: Ref, result: AuthResult): Option<Error> {
    var account := result.account;
    if result.claim != "" && result.claim != bound.tenant then Some(Mismatch)
    else if account.home == "" && account.environment == "" && account.realm == "" && account.local == "" then None
    else if !SameAccountIdentity(account, bound) then Some(Mismatch)
    else if account.realm != bound.tenant && (!EqualFold(account.realm, "consumers") || bound.tenant != PERSONAL_TENANT)
    then Some(Mismatch)
    else None
  }

  // Selection finds the one entry that fits, wherever it stands

  /** Entry i is in the class and no other entry is. */
  predicate Sole(accounts: seq<Account>, ref: Ref, exact: bool, i: nat) {
    i < |accounts| && forall j :: 0 <= j < |accounts| ==> (InClass(accounts[j], ref, exact) <==> j == i)
  }

  predicate NoneIn(accounts: seq<Account>, ref: Ref, exact: bool) {
    forall j :: 0 <= j < |accounts| ==> !InClass(accounts[j], ref, exact)
  }

  lemma {:induction false} ClassEmpty(accounts: seq<Account>, ref: Ref, exact: bool)
    ensures Class(accounts, ref, exact) == [] <==> NoneIn(accounts, ref, exact)
  {
    hide InClass;
    if accounts != [] {
      ClassEmpty(accounts[..|accounts| - 1], ref, exact);
      assert NoneIn(accounts[..|accounts| - 1], ref, exact) && !InClass(accounts[|accounts| - 1], ref, exact)
             <==> NoneIn(accounts, ref, exact);
    }
  }

  lemma {:induction false} SoleIsClass(accounts: seq<Account>, ref: Ref, exact: bool, i: nat)
    requires Sole(accounts, ref, exact, i)
    ensures Class(accounts, ref, exact) == [accounts[i]]
  {
    hide InClass;
    var n := |accounts| - 1;
    if i == n {
      assert NoneIn(accounts[..n], ref, exact);
      ClassEmpty(accounts[..n], ref, exact);
    } else {
      assert !InClass(accounts[n], ref, exact);
      SoleIsClass(accounts[..n], ref, exact, i);
    }
  }

  lemma {:induction false} SoleOfClass(accounts: seq<Account>, ref: Ref, exact: bool) returns (i: nat)
    requires |Class(accounts, ref, exact)| == 1
    ensures Sole(accounts, ref, exact, i) && Class(accounts, ref, exact) == [accounts[i]]
  {
    hide InClass;
    var n := |accounts| - 1;
    if InClass(accounts[n], ref, exact) {
      ClassEmpty(accounts[..n], ref, exact);
      i := n;
    } else {
      i := SoleOfClass(accounts[..n], ref, exact);
    }
  }

  lemma ClassSingle(accounts: seq<Account>, ref: Ref, exact: bool, a: Account)
    ensures Class(accounts, ref, exact) == [a] <==> exists i: nat :: Sole(accounts, ref, exact, i) && accounts[i] == a
  {
    hide InClass, Class;
    forall i: nat | Sole(accounts, ref, exact, i) ensures Class(accounts, ref, exact) == [accounts[i]] {
      SoleIsClass(accounts, ref, exact, i);
    }
    if |Class(accounts, ref, exact)| == 1 {
      var i := SoleOfClass(accounts, ref, exact);
    }
  }

  /**
  An account is selected exactly when it is the only exact entry, or when no entry is exact and
  it is the only discovery entry; a login is required exactly when nothing matches.
  */
  lemma SelectedExactly(accounts: seq<Account>, ref: Ref, a: Account)
    ensures Selected(accounts, ref) == Ok(a) <==>
              || (exists i: nat :: Sole(accounts, ref, true, i) && accounts[i] == a)
              || (NoneIn(accounts, ref, true) && exists i: nat :: Sole(accounts, ref, false, i) && accounts[i] == a)
    ensures Selected(accounts, ref) == Err(LoginRequired) <==>
              NoneIn(accounts, ref, true) && NoneIn(accounts, ref, false)
    ensures Selected(accounts, ref) != Err(Mismatch) && Selected(accounts, ref) != Err(InvalidRef)
  {
    hide InClass, Class;
    var exact := Class(accounts, ref, true) != [];
    var candidates := Class(accounts, ref, exact);
    ClassEmpty(accounts, ref, true);
    ClassEmpty(accounts, ref, false);
    ClassSingle(accounts, ref, true, a);
    ClassSingle(accounts, ref, false, a);
    assert Selected(accounts, ref) == Ok(a) <==> candidates == [a];
  }

  lemma {:induction false} ClassCounts(accounts: seq<Account>, ref: Ref, exact: bool, x: Account)
    ensures multiset(Class(accounts, ref, exact))[x] == if InClass(x, ref, exact) then multiset(accounts)[x] else 0
  {
    hide InClass;
    if accounts != [] {
      var n := |accounts| - 1;
      ClassCounts(accounts[..n], ref, exact, x);
      assert accounts == accounts[..n] + [accounts[n]];
    }
  }

  lemma ClassPermutes(accounts: seq<Account>, accounts': seq<Account>, ref: Ref, exact: bool)
    requires multiset(accounts) == multiset(accounts')
    ensures multiset(Class(accounts, ref, exact)) == multiset(Class(accounts', ref, exact))
  {
    hide InClass, Class;
    forall x: Account ensures multiset(Class(accounts, ref, exact))[x] == multiset(Class(accounts', ref, exact))[x] {
      ClassCounts(accounts, ref, exact, x);
      ClassCounts(accounts', ref, exact, x);
    }
  }

  /** The order of the list decides nothing: neither the account nor the error. */
  lemma OrderIndependent(accounts: seq<Account>, accounts': seq<Account>, ref: Ref)
    requires multiset(accounts) == multiset(accounts')
    ensures Selected(accounts, ref) == Selected(accounts', ref)
  {
    hide InClass, Class;
    ClassPermutes(accounts, accounts', ref, true);
    ClassPermutes(accounts, accounts', ref, false);
    var exact := Class(accounts, ref, true) != [];
    var c, c' := Class(accounts, ref, exact), Class(accounts', ref, exact);
    assert |multiset(Class(accounts, ref, true))| == |multiset(Class(accounts', ref, true))|;
    assert |multiset(c)| == |multiset(c')| && multiset(c) == multiset(c');
    if |c| == 1 {
      assert c[0] in multiset(c');
    }
  }

  // The same, field by field

  lemma EntryFields(account: Account, ref: Ref)
    ensures IsExact(account, ref) <==>
              && account.home == ref.home && ToLower(account.environment) == ToLower(ref.environment)
              && (ref.local == "" || account.local == ref.local)
              && (|| account.realm == ref.tenant
                  || (ToLower(account.realm) == "consumers" && ref.tenant == "9188040d-6c67-4c5b-b112-36a304b66dad"))
    ensures Matches(account, ref) <==>
              && account.home == ref.home && ToLower(account.environment) == ToLower(ref.environment)
              && (ref.local == "" || account.local == ref.local)
              && (|| account.realm == ref.tenant
                  || (ToLower(account.realm) == "consumers" && ref.tenant == "9188040d-6c67-4c5b-b112-36a304b66dad")
                  || (ToLower(account.realm) in {"common", "organizations"} && ref.local != ""))
  {
    hide EqualFold, ToLower;
    FoldsAgree(account.environment, ref.environment);
  }

  /**
  Selection field by field: an entry fits by its home id, its environment up to case and its
  local id if the reference has one; it is exact if its realm is the tenant, or `consumers` for
  the personal one, and otherwise counts only as `common` or `organizations` with a known local
  id. One exact entry, or one other if none is exact, is selected; with more it is ambiguous.
  */
  lemma SelectedByFields(accounts: seq<Account>, ref: Ref)
    ensures var fits := (a: Account) =>
              a.home == ref.home && ToLower(a.environment) == ToLower(ref.environment)
              && (ref.local == "" || a.local == ref.local);
            var exact := (a: Account) =>
              fits(a) && (a.realm == ref.tenant
                          || (ToLower(a.realm) == "consumers" && ref.tenant == "9188040d-6c67-4c5b-b112-36a304b66dad"));
            var alias := (a: Account) =>
              fits(a) && !exact(a) && ToLower(a.realm) in {"common", "organizations"} && ref.local != "";
            match Selected(accounts, ref)
            case Ok(a) =>
              exists i :: 0 <= i < |accounts| && accounts[i] == a && forall j :: 0 <= j < |accounts| ==>
                (exact(a) && (exact(accounts[j]) <==> j == i))
                || (alias(a) && !exact(accounts[j]) && (alias(accounts[j]) <==> j == i))
            case Err(LoginRequired) => forall j :: 0 <= j < |accounts| ==> !exact(accounts[j]) && !alias(accounts[j])
            case Err(Ambiguous) =>
              exists i, j :: 0 <= i < j < |accounts| &&
                ((exact(accounts[i]) && exact(accounts[j]))
                 || (&& alias(accounts[i]) && alias(accounts[j])
                     && forall k :: 0 <= k < |accounts| ==> !exact(accounts[k])))
            case Err(_) => false
  {
    hide Selected, ToLower, EqualFold, Class;
    forall j | 0 <= j < |accounts| {
      EntryFields(accounts[j], ref);
    }
    match Selected(accounts, ref)
    case Ok(a) =>
      EntryFields(a, ref);
      SelectedExactly(accounts, ref, a);
    case Err(Ambiguous) =>
      var i, j := TwoCandidates(accounts, ref);
    case Err(_) =>
      SelectedExactly(accounts, ref, Account("", "", "", "", "", ""));
  }

  /** Two entries of the class that makes the selection ambiguous. */
  lemma TwoCandidates(accounts: seq<Account>, ref: Ref) returns (i: nat, j: nat)
    requires Selected(accounts, ref) == Err(Ambiguous)
    ensures i < j < |accounts|
    ensures || (IsExact(accounts[i], ref) && IsExact(accounts[j], ref))
            || (NoneIn(accounts, ref, true) && IsDiscovery(accounts[i], ref) && IsDiscovery(accounts[j], ref))
  {
    hide IsExact, IsDiscovery, Class;
    ClassEmpty(accounts, ref, true);
    i, j := TwoOfClass(accounts, ref, Class(accounts, ref, true) != []);
  }

  lemma {:induction false} TwoOfClass(accounts: seq<Account>, ref: Ref, exact: bool) returns (i: nat, j: nat)
    requires |Class(accounts, ref, exact)| > 1
    ensures i < j < |accounts| && InClass(accounts[i], ref, exact) && InClass(accounts[j], ref, exact)
  {
    hide InClass;
    var n := |accounts| - 1;
    if |Class(accounts[..n], ref, exact)| > 1 {
      i, j := TwoOfClass(accounts[..n], ref, exact);
    } else {
      i := SoleOfClass(accounts[..n], ref, exact);
      j := n;
    }
  }

  /** Token acceptance field by field, and a mismatch otherwise. */
  lemma TokenByFields(bound: Ref, result: AuthResult)
    ensures var a := result.account;
            CheckTokenAccount(bound, result)
            == if && (result.claim == "" || result.claim == bound.tenant)
                  && (|| (a.home == "" && a.environment == "" && a.realm == "" && a.local == "")
                      || (&& a.home == bound.home && ToLower(a.environment) == ToLower(bound.environment)
                          && (bound.local == "" || a.local == bound.local)
                          && (a.realm == bound.tenant
                              || (ToLower(a.realm) == "consumers"
                                  && bound.tenant == "9188040d-6c67-4c5b-b112-36a304b66dad"))))
               then None else Some(Mismatch)
  {
    hide EqualFold, ToLower;
    TokenAcceptedExactly(bound, result);
    EntryFields(result.account, bound);
  }

  /** A clean field is not empty, has no space at either end and no control character anywhere. */
  lemma CleanExactly(value: string)
    ensures CleanIdentityField(value) <==>
              && value != "" && value[0] != ' ' && value[|value| - 1] != ' '
              && forall i :: 0 <= i < |value| ==> value[i] as int >= 0x20 && value[i] as int != 0x7f
  {
    TrimmedExactly(value);
  }

  /** Validity field by field; environment and tenant are free of the characters that structure a URL. */
  lemma ValidRefExactly(ref: Ref)
    ensures ValidRef(ref) <==>
              && CleanIdentityField(ref.home) && CleanIdentityField(ref.environment) && CleanIdentityField(ref.tenant)
              && (ref.local == "" || CleanIdentityField(ref.local))
              && (forall c :: c in {'/', '\\', ':', '@', '?', '#', '%'} ==> c !in ref.environment && c !in ref.tenant)
              && ToLower(ref.tenant) !in {"common", "organizations", "consumers"}
  {
    hide CleanIdentityField, IsDiscoveryTenant, ToLower, EqualFold;
    AliasFolds(ref.tenant);
    NoneOfSeven(ref.environment);
    NoneOfSeven(ref.tenant);
  }

  lemma NoneOfSeven(s: string)
    ensures ContainsAny(s, "/\\:@?#%") <==> exists c :: c in {'/', '\\', ':', '@', '?', '#', '%'} && c in s
  {
    var chars := "/\\:@?#%";
    forall c: char ensures c in chars <==> c in {'/', '\\', ':', '@', '?', '#', '%'} {
      assert chars[0] == '/' && chars[1] == '\\' && chars[2] == ':' && chars[3] == '@';
      assert chars[4] == '?' && chars[5] == '#' && chars[6] == '%' && |chars| == 7;
    }
    if i :| 0 <= i < |s| && s[i] in chars {
      assert s[i] in {'/', '\\', ':', '@', '?', '#', '%'} && s[i] in s;
    }
    if c :| c in {'/', '\\', ':', '@', '?', '#', '%'} && c in s {
      var i :| 0 <= i < |s| && s[i] == c;
      assert s[i] in chars;
    }
  }

  /** A listed entry has the ids and names of its account, and the tenant that its realm names, if any. */
  lemma ListedByFields(account: Account)
    ensures var info, realm := CachedAccountInfo(account), ToLower(account.realm);
            && info.ref.home == account.home && info.ref.environment == account.environment
            && info.ref.local == account.local
            && (realm == "consumers" ==> info.ref.tenant == "9188040d-6c67-4c5b-b112-36a304b66dad")
            && (realm in {"common", "organizations"} ==> info.ref.tenant == "")
            && (realm !in {"consumers", "common", "organizations"} ==> info.ref.tenant == account.realm)
            && info.username == account.username && info.name == account.name && info.cacheRealm == account.realm
  {
    hide EqualFold, ToLower, IsDiscoveryTenant;
    AliasFolds(account.realm);
  }

  /** A client is bound exactly to a valid reference, with no configured account and an authority that fits. */
  lemma BindsExactly(configuredAccount: string, configured: Configured, ref: Ref)
    ensures BindAuthority(configuredAccount, configured, ref)
            == if !ValidRef(ref) || configuredAccount != "" then Err(InvalidRef)
               else if configured == Malformed || (configured.Parsed? && AccountAuthority(configured, ref).Err?)
               then Err(Mismatch)
               else Ok("https://" + ref.environment + "/"
                       + if ref.tenant == "9188040d-6c67-4c5b-b112-36a304b66dad" then "consumers" else ref.tenant)
  {
  }

  // From a login to a bound client

  lemma LowerAliases()
    ensures ToLower("common") == "common" && ToLower("organizations") == "organizations"
    ensures ToLower("consumers") == "consumers"
  {
    LowerFixed("common");
    LowerFixed("organizations");
    LowerFixed("consumers");
  }

  /** Tenants that an alias names, told by either way of folding. */
  lemma AliasFolds(tenant: string)
    ensures IsDiscoveryTenant(tenant) <==> ToLower(tenant) in {"common", "organizations", "consumers"}
    ensures EqualFold(tenant, "consumers") <==> ToLower(tenant) == "consumers"
  {
    hide EqualFold, ToLower;
    LowerAliases();
    FoldsAgree(tenant, "common");
    FoldsAgree(tenant, "organizations");
    FoldsAgree(tenant, "consumers");
  }

  predicate IsAlias(realm: string) { ToLower(realm) in {"common", "organizations"} }

  /**
  The reference of a successful login is valid, names the claimed tenant and the logged-in
  account, and gets an authority from an empty configuration.
  */
  lemma LoginBinds(result: AuthResult)
    requires LoginAccountInfo(result).Ok?
    ensures var ref := LoginAccountInfo(result).value.ref;
            && ref == Ref(result.account.home, result.account.environment, result.claim, result.account.local)
            && ValidRef(ref)
            && BindAuthority("", Unset, ref)
               == Ok("https://" + ref.environment + "/"
                     + if ref.tenant == "9188040d-6c67-4c5b-b112-36a304b66dad" then "consumers" else ref.tenant)
    ensures var info := LoginAccountInfo(result).value;
            && info.username == result.account.username && info.name == result.name
            && info.cacheRealm == result.account.realm
  {
  }

  /**
  A login is accepted exactly when the reference made of its ids and its claim is valid and its
  realm does not contradict the claim: it is empty, an alias, the claim itself, or `consumers`
  in any case for the personal tenant.
  */
  lemma LoginSucceedsExactly(result: AuthResult)
    ensures LoginAccountInfo(result).Ok? <==>
              && ValidRef(Ref(result.account.home, result.account.environment, result.claim, result.account.local))
              && (|| result.account.realm in {"", result.claim} || IsAlias(result.account.realm)
                  || (ToLower(result.account.realm) == "consumers" && result.claim == PERSONAL_TENANT))
  {
    hide EqualFold, ToLower, ValidRef, IsDiscoveryTenant;
    AliasFolds(result.account.realm);
    AliasFolds(result.claim);
    if ValidRef(Ref(result.account.home, result.account.environment, result.claim, result.account.local)) {
      ValidHasHome(Ref(result.account.home, result.account.environment, result.claim, result.account.local));
    }
    LowerEmpty();
  }

  lemma LowerEmpty()
    ensures ToLower("") == ""
  {
  }

  lemma FoldsSelf(s: string)
    ensures EqualFold(s, s)
  {
  }

  /**
  The logged-in account itself fits its reference exactly when its realm names a tenant or an
  alias and, if the alias proves no tenant, the local id is known; it fits by exact realm
  unless the realm is such an alias. An empty realm never fits.
  */
  lemma LoginSelectable(result: AuthResult)
    requires LoginAccountInfo(result).Ok?
    ensures var account, ref := result.account, LoginAccountInfo(result).value.ref;
            && (IsExact(account, ref) <==> account.realm != "" && !IsAlias(account.realm))
            && (IsDiscovery(account, ref) <==> IsAlias(account.realm) && account.local != "")
  {
    hide EqualFold, ToLower, ValidRef, IsDiscoveryTenant;
    var account, ref := result.account, LoginAccountInfo(result).value.ref;
    AliasFolds(account.realm);
    AliasFolds(result.claim);
    FoldsSelf(account.environment);
    assert SameAccountIdentity(account, ref);
  }

  /** A reference from a login selects that account in any list in which no other entry matches it. */
  lemma LoginRoundTrip(result: AuthResult, accounts: seq<Account>, i: nat)
    requires LoginAccountInfo(result).Ok? && i < |accounts| && accounts[i] == result.account
    requires result.account.realm != "" && (IsAlias(result.account.realm) ==> result.account.local != "")
    requires forall j :: 0 <= j < |accounts| && j != i ==> !Matches(accounts[j], LoginAccountInfo(result).value.ref)
    ensures Selected(accounts, LoginAccountInfo(result).value.ref) == Ok(result.account)
  {
    hide LoginAccountInfo, IsExact, IsAlias;
    var ref := LoginAccountInfo(result).value.ref;
    LoginSelectable(result);
    SelectedExactly(accounts, ref, result.account);
    assert Sole(accounts, ref, true, i) || (NoneIn(accounts, ref, true) && Sole(accounts, ref, false, i));
  }

  // Token results

  predicate NoMetadata(account: Account) {
    account.home == "" && account.environment == "" && account.realm == "" && account.local == ""
  }

  /**
  A token result is accepted exactly when its tenant claim is absent or the bound one and its
  metadata are absent or those of an entry that selection calls exact; so no result with a
  conflicting claim, identity or realm is ever accepted.
  */
  lemma TokenAcceptedExactly(bound: Ref, result: AuthResult)
    ensures CheckTokenAccount(bound, result) == None <==>
              && result.claim in {"", bound.tenant}
              && (NoMetadata(result.account) || IsExact(result.account, bound))
  {
    hide EqualFold, ToLower, IsDiscoveryTenant;
    AliasFolds(result.account.realm);
  }

  /** A result that carries the selected account passes exactly if it was selected by its realm. */
  lemma SelectedTokenAccepted(accounts: seq<Account>, ref: Ref, a: Account, claim: string, name: string)
    requires ValidRef(ref) && Selected(accounts, ref) == Ok(a) && claim in {"", ref.tenant}
    ensures CheckTokenAccount(ref, AuthResult(a, claim, name)) == None <==> !NoneIn(accounts, ref, true)
  {
    hide ValidRef, Selected, EqualFold, ToLower, CheckTokenAccount;
    SelectedExactly(accounts, ref, a);
    TokenAcceptedExactly(ref, AuthResult(a, claim, name));
    ValidHasHome(ref);
    var i: nat :| i < |accounts| && (Sole(accounts, ref, true, i) || Sole(accounts, ref, false, i)) && accounts[i] == a;
    assert InClass(accounts[i], ref, true) || InClass(accounts[i], ref, false);
  }

  lemma ValidHasHome(ref: Ref)
    requires ValidRef(ref)
    ensures ref.home != "" && ref.tenant != "" && !IsDiscoveryTenant(ref.tenant) && '/' !in ref.environment
    ensures '/' !in ref.tenant
  {
  }

  /**
  The whole way: login, bind with an empty configuration, select from the cache, check the
  token. It succeeds for every realm but an empty one and an alias that proves no tenant.
  */
  lemma BindingRoundTrip(result: AuthResult, accounts: seq<Account>, i: nat, claim: string, name: string)
    requires LoginAccountInfo(result).Ok? && i < |accounts| && accounts[i] == result.account
    requires forall j :: 0 <= j < |accounts| && j != i ==> !Matches(accounts[j], LoginAccountInfo(result).value.ref)
    requires claim in {"", result.claim}
    ensures var ref := LoginAccountInfo(result).value.ref;
            && BindAuthority("", Unset, ref).Ok?
            && (Selected(accounts, ref) == Ok(result.account) &&
                 CheckTokenAccount(ref, AuthResult(result.account, claim, name)) == None
                <==> result.account.realm != "" && !IsAlias(result.account.realm))
  {
    hide LoginAccountInfo, IsAlias, ValidRef, Selected;
    var ref := LoginAccountInfo(result).value.ref;
    LoginBinds(result);
    LoginSelectable(result);
    ValidHasHome(ref);
    TokenAcceptedExactly(ref, AuthResult(result.account, claim, name));
    if result.account.realm != "" && !IsAlias(result.account.realm) {
      LoginRoundTrip(result, accounts, i);
    }
  }

  // Authorities

  /** Configuration never changes the authority, only whether there is one. */
  lemma AuthorityPinned(configured: Configured, ref: Ref)
    ensures AccountAuthority(configured, ref) in {AccountAuthority(Unset, ref), Err(Mismatch)}
  {
  }

  /** A valid reference accepts its own environment with its own tenant or an alias that covers it, and nothing else. */
  lemma AuthorityAcceptedExactly(u: Url, ref: Ref)
    requires ValidRef(ref)
    ensures AccountAuthority(Parsed(u), ref).Ok? <==>
              && u.scheme == "https" && !u.user && u.rawQuery == "" && u.fragment == "" && u.rawPath == ""
              && ToLower(u.host) == ToLower(ref.environment)
              && var tenant := if u.path != "" && u.path[0] == '/' then u.path[1..] else u.path;
                 || tenant == ref.tenant || ToLower(tenant) == "common"
                 || ToLower(tenant) == (if ref.tenant == "9188040d-6c67-4c5b-b112-36a304b66dad" then "consumers"
                                        else "organizations")
  {
    hide ValidRef, EqualFold, ToLower, TenantFits;
    FoldsAgree(u.host, ref.environment);
    TenantAcceptedExactly(TenantOf(u), ref);
  }

  lemma TenantAcceptedExactly(tenant: string, ref: Ref)
    requires ValidRef(ref)
    ensures TenantFits(tenant, ref) <==>
              || tenant == ref.tenant || ToLower(tenant) == "common"
              || ToLower(tenant) == (if ref.tenant == PERSONAL_TENANT then "consumers" else "organizations")
  {
    hide ValidRef, EqualFold, ToLower, IsDiscoveryTenant;
    ValidHasHome(ref);
    LowerAliases();
    AliasFolds(tenant);
    AliasFolds(ref.tenant);
    if tenant != "" && '/' in tenant {
      var k :| 0 <= k < |tenant| && tenant[k] == '/';
      assert ToLower(tenant)[k] == Lower('/') == '/';
    }
  }

  /** The authority a valid reference gets is accepted again, and pins the same authority. */
  lemma AuthorityStable(ref: Ref)
    requires ValidRef(ref)
    ensures var u := Url("https", false, ref.environment, "/" + PinnedTenant(ref), "", "", "");
            AccountAuthority(Parsed(u), ref) == AccountAuthority(Unset, ref)
  {
    hide ValidRef, EqualFold, ToLower;
    var u := Url("https", false, ref.environment, "/" + PinnedTenant(ref), "", "", "");
    assert u.path[1..] == PinnedTenant(ref);
    FoldsSelf(ref.environment);
    LowerAliases();
    AuthorityAcceptedExactly(u, ref);
  }

  lemma AuthorityCut(environment: string, tenant: string, environment': string, tenant': string)
    requires '/' !in environment && '/' !in environment'
    requires Authority(environment, tenant) == Authority(environment', tenant')
    ensures environment == environment' && tenant == tenant'
  {
    var s, t := environment + ['/'] + tenant, environment' + ['/'] + tenant';
    assert Authority(environment, tenant)[8..] == s && Authority(environment', tenant')[8..] == t;
    CutUnique(environment, tenant, environment', tenant', '/');
  }

  /** Two valid references share an authority only if they share environment and tenant. */
  lemma AuthorityInjective(a: Ref, b: Ref)
    requires ValidRef(a) && ValidRef(b)
    ensures AccountAuthority(Unset, a) == AccountAuthority(Unset, b) <==>
              a.environment == b.environment && a.tenant == b.tenant
  {
    hide ValidRef, EqualFold;
    ValidHasHome(a);
    ValidHasHome(b);
    FoldsSelf("consumers");
    if AccountAuthority(Unset, a) == AccountAuthority(Unset, b) {
      AuthorityCut(a.environment, PinnedTenant(a), b.environment, PinnedTenant(b));
    }
  }
}
