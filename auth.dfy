/**
 * Mock authentication. A process-wide directory of accounts (seeded with one
 * demo account and grown by registration) and a session store holding the
 * current user. Emails match case-insensitively, passwords exactly; the
 * session never holds a password. The simulated network delay is not modelled:
 * each intent is one atomic step.
 */
module Auth {
  import opened Wrappers

  /** The signed-in user, as the session stores it (no password). */
  datatype User = User(
    id: string, email: string, firstName: string, lastName: string,
    phone: Option<string>, address: Option<string>, city: Option<string>,
    state: Option<string>, zip: Option<string>, country: Option<string>)

  /** A registration form: the user's fields without an id. */
  datatype Profile = Profile(
    email: string, firstName: string, lastName: string,
    phone: Option<string>, address: Option<string>, city: Option<string>,
    state: Option<string>, zip: Option<string>, country: Option<string>)

  /** One directory record: a user's fields plus the password. */
  datatype Account = Account(
    id: string, email: string, password: string, firstName: string, lastName: string,
    phone: Option<string>, address: Option<string>, city: Option<string>,
    state: Option<string>, zip: Option<string>, country: Option<string>)

  /** A partial user for a profile update: a field is either present (Some) or absent (None). */
  datatype UserPatch = UserPatch(
    id: Option<string>, email: Option<string>, firstName: Option<string>, lastName: Option<string>,
    phone: Option<string>, address: Option<string>, city: Option<string>,
    state: Option<string>, zip: Option<string>, country: Option<string>)

  // ---- ASCII case folding ----

  predicate IsUpper(c: char) {
    'A' <= c <= 'Z'
  }

  function LowerChar(c: char): (r: char)
    ensures !IsUpper(r)
    ensures IsUpper(c) ==> r as int == c as int + 32
    ensures !IsUpper(c) ==> r == c
  {
    if IsUpper(c) then (c as int + 32) as char else c
  }

  /** toLowerCase, restricted to ASCII letters. */
  function ToLower(s: string): (r: string)
    ensures |r| == |s|
    ensures forall i :: 0 <= i < |s| ==> r[i] == LowerChar(s[i])
  {
    seq(|s|, i requires 0 <= i < |s| => LowerChar(s[i]))
  }

  /** Lower-casing twice is lower-casing once. */
  lemma {:induction false} ToLowerIdempotent(s: string)
    ensures ToLower(ToLower(s)) == ToLower(s)
  {
    var once := ToLower(s);
    forall i | 0 <= i < |s| ensures ToLower(once)[i] == once[i] {
      assert !IsUpper(once[i]);
    }
  }

  /** The case-insensitive email comparison of login and register. */
  predicate SameEmail(a: string, b: string) {
    ToLower(a) == ToLower(b)
  }

  predicate CredentialsMatch(account: Account, email: string, password: string) {
    SameEmail(account.email, email) && account.password == password
  }

  // ---- lookups over the directory ----

  /** `find` over the directory: the position of the first account whose email matches
      (ignoring case) and whose password matches exactly. */
  function FindAccount(accounts: seq<Account>, email: string, password: string): (r: Option<nat>)
    ensures r.Some? <==> exists j :: 0 <= j < |accounts| && CredentialsMatch(accounts[j], email, password)
    ensures r.Some? ==> r.value < |accounts| && CredentialsMatch(accounts[r.value], email, password)
    ensures r.Some? ==> forall j :: 0 <= j < r.value ==> !CredentialsMatch(accounts[j], email, password)
  {
    if |accounts| == 0 then None
    else if CredentialsMatch(accounts[0], email, password) then Some(0)
    else
      var k := FindAccount(accounts[1..], email, password);
      assert forall j :: 1 <= j < |accounts| ==> accounts[j] == accounts[1..][j - 1];
      if k.None? then None else Some(k.value + 1)
  }

  /** `some` account already uses this email, ignoring case. */
  function EmailTaken(accounts: seq<Account>, email: string): (r: bool)
    ensures r <==> exists j :: 0 <= j < |accounts| && SameEmail(accounts[j].email, email)
  {
    if |accounts| == 0 then false
    else
      assert forall j :: 1 <= j < |accounts| ==> accounts[j] == accounts[1..][j - 1];
      SameEmail(accounts[0].email, email) || EmailTaken(accounts[1..], email)
  }

  /** findIndex on the account id: the first position holding `id`, or -1. */
  function IndexOfId(accounts: seq<Account>, id: string): (r: int)
    ensures -1 <= r < |accounts|
    ensures r >= 0 ==> accounts[r].id == id && forall j :: 0 <= j < r ==> accounts[j].id != id
    ensures r == -1 ==> forall j :: 0 <= j < |accounts| ==> accounts[j].id != id
  {
    if |accounts| == 0 then -1
    else if accounts[0].id == id then 0
    else
      var k := IndexOfId(accounts[1..], id);
      assert forall j :: 1 <= j < |accounts| ==> accounts[j] == accounts[1..][j - 1];
      if k < 0 then -1 else k + 1
  }

  // ---- records ----

  /** The user `u` carries exactly the non-password fields of account `a`. */
  predicate SameFields(u: User, a: Account) {
    u.id == a.id && u.email == a.email && u.firstName == a.firstName && u.lastName == a.lastName &&
    u.phone == a.phone && u.address == a.address && u.city == a.city && u.state == a.state &&
    u.zip == a.zip && u.country == a.country
  }

  /** `{ password, ...rest }`: the user part of an account. */
  function WithoutPassword(a: Account): (r: User)
    ensures SameFields(r, a)
  {
    User(a.id, a.email, a.firstName, a.lastName, a.phone, a.address, a.city, a.state, a.zip, a.country)
  }

  /** `{ ...user, password }`: the account stored for a user. */
  function WithPassword(u: User, password: string): (r: Account)
    ensures SameFields(u, r) && r.password == password
  {
    Account(u.id, u.email, password, u.firstName, u.lastName, u.phone, u.address, u.city, u.state, u.zip, u.country)
  }

  /** Stripping the password and adding it back are inverse to each other. */
  lemma {:induction false} PasswordRoundTrip(a: Account, u: User, password: string)
    ensures WithPassword(WithoutPassword(a), a.password) == a
    ensures WithoutPassword(WithPassword(u, password)) == u
    ensures WithPassword(u, password).password == password
  {
  }

  /** `{ id, ...userData }`: a new user from a registration form. */
  function NewUser(id: string, p: Profile): (r: User)
    ensures r.id == id
    ensures r.email == p.email && r.firstName == p.firstName && r.lastName == p.lastName
    ensures r.phone == p.phone && r.address == p.address && r.city == p.city && r.state == p.state
    ensures r.zip == p.zip && r.country == p.country
  {
    User(id, p.email, p.firstName, p.lastName, p.phone, p.address, p.city, p.state, p.zip, p.country)
  }

  /** A required field after a merge: the patch's value when present, the old one otherwise. */
  predicate Overridden(patch: Option<string>, before: string, after: string) {
    if patch.Some? then after == patch.value else after == before
  }

  /** An optional field after a merge: the patch's entry when present, the old one otherwise. */
  predicate OverriddenOptional(patch: Option<string>, before: Option<string>, after: Option<string>) {
    if patch.Some? then after == patch else after == before
  }

  /** `{ ...user, ...userData }`: present fields of the patch replace the user's. */
  function Merge(u: User, p: UserPatch): (r: User)
    ensures Overridden(p.id, u.id, r.id) && Overridden(p.email, u.email, r.email)
    ensures Overridden(p.firstName, u.firstName, r.firstName) && Overridden(p.lastName, u.lastName, r.lastName)
    ensures OverriddenOptional(p.phone, u.phone, r.phone) && OverriddenOptional(p.address, u.address, r.address)
    ensures OverriddenOptional(p.city, u.city, r.city) && OverriddenOptional(p.state, u.state, r.state)
    ensures OverriddenOptional(p.zip, u.zip, r.zip) && OverriddenOptional(p.country, u.country, r.country)
  {
    User(
      p.id.GetOr(u.id), p.email.GetOr(u.email), p.firstName.GetOr(u.firstName), p.lastName.GetOr(u.lastName),
      if p.phone.Some? then p.phone else u.phone,
      if p.address.Some? then p.address else u.address,
      if p.city.Some? then p.city else u.city,
      if p.state.Some? then p.state else u.state,
      if p.zip.Some? then p.zip else u.zip,
      if p.country.Some? then p.country else u.country)
  }

  /** `{ ...MOCK_USERS[i], ...userData }`: the same merge on a directory record, which keeps
      its password. */
  function MergeAccount(a: Account, p: UserPatch): (r: Account)
    ensures r.password == a.password
    ensures WithoutPassword(r) == Merge(WithoutPassword(a), p)
  {
    WithPassword(Merge(WithoutPassword(a), p), a.password)
  }

  /** Merging the same patch twice is merging it once; an empty patch changes nothing. */
  lemma {:induction false} MergeLaws(u: User, p: UserPatch)
    ensures Merge(Merge(u, p), p) == Merge(u, p)
    ensures Merge(u, UserPatch(None, None, None, None, None, None, None, None, None, None)) == u
  {
  }

  /** The directory as it starts: the one demo account. */
  const SeedEmail: string := "Shafaqmandha@scentify.com"

  const SeedAccounts: seq<Account> := [
    Account("user-1", SeedEmail, "password123", "Shafaq", "Mandha",
      Some("+1 (555) 987-6543"), Some("456 Park Avenue"), Some("New York"), Some("NY"),
      Some("10002"), Some("United States"))
  ]

  // ---- properties of login and register over the directory ----

  /** A successful registration can be followed by a successful login with the same email and
      password, and that login yields exactly the registered user. */
  lemma {:induction false} RegisteredCanLogIn(accounts: seq<Account>, p: Profile, password: string, id: string)
    requires !EmailTaken(accounts, p.email)
    ensures var after := accounts + [WithPassword(NewUser(id, p), password)];
      FindAccount(after, p.email, password) == Some(|accounts|) &&
      WithoutPassword(after[|accounts|]) == NewUser(id, p)
  {
    var after := accounts + [WithPassword(NewUser(id, p), password)];
    assert CredentialsMatch(after[|accounts|], p.email, password);
    forall j | 0 <= j < |accounts| ensures !CredentialsMatch(after[j], p.email, password) {
      assert after[j] == accounts[j];
      assert ToLower(accounts[j].email) != ToLower(p.email);
    }
  }

  /** Lower-casing distributes over concatenation. */
  lemma {:induction false} ToLowerAppend(a: string, b: string)
    ensures ToLower(a + b) == ToLower(a) + ToLower(b)
  {
    assert forall i :: 0 <= i < |a| + |b| ==> (a + b)[i] == if i < |a| then a[i] else b[i - |a|];
  }

  lemma {:induction false} LocalPartFolds()
    ensures ToLower("Shafaqmandha") == "shafaqmandha"
  {
    var s := "Shafaqmandha";
    assert forall i :: 1 <= i < |s| ==> !IsUpper(s[i]);
  }

  lemma {:induction false} DomainFolds()
    ensures ToLower("@scentify.com") == "@scentify.com"
  {
    var s := "@scentify.com";
    assert forall i :: 0 <= i < |s| ==> !IsUpper(s[i]);
  }

  lemma {:induction false} SeedEmailFolds()
    ensures ToLower(SeedEmail) == "shafaqmandha@scentify.com"
  {
    assert SeedEmail == "Shafaqmandha" + "@scentify.com";
    ToLowerAppend("Shafaqmandha", "@scentify.com");
    LocalPartFolds();
    DomainFolds();
    assert "shafaqmandha" + "@scentify.com" == "shafaqmandha@scentify.com";
  }

  /** The demo account logs in with an all-lower-case email; its first name is "Shafaq". */
  lemma {:induction false} SeedLoginScenario()
    ensures FindAccount(SeedAccounts, "shafaqmandha@scentify.com", "password123") == Some(0)
    ensures WithoutPassword(SeedAccounts[0]).firstName == "Shafaq"
  {
    SeedEmailFolds();
    var e := "shafaqmandha@scentify.com";
    assert ToLower(e) == e by {
      assert forall i :: 0 <= i < |e| ==> !IsUpper(e[i]);
    }
  }

  /** Any other password fails for the demo account. */
  lemma {:induction false} SeedWrongPasswordScenario(email: string, password: string)
    requires password != "password123"
    ensures FindAccount(SeedAccounts, email, password) == None
  {
  }

  /** Registering the demo account's email again, in any case, is refused. */
  lemma {:induction false} SeedDuplicateScenario()
    ensures EmailTaken(SeedAccounts, "SHAFAQMANDHA@SCENTIFY.COM")
  {
    SeedEmailFolds();
    var e := "SHAFAQMANDHA@SCENTIFY.COM";
    assert e == "SHAFAQMANDHA" + "@SCENTIFY.COM";
    ToLowerAppend("SHAFAQMANDHA", "@SCENTIFY.COM");
    UpperLocalPartFolds();
    UpperDomainFolds();
    assert "shafaqmandha" + "@scentify.com" == "shafaqmandha@scentify.com";
  }

  lemma {:induction false} UpperLocalPartFolds()
    ensures ToLower("SHAFAQMANDHA") == "shafaqmandha"
  {
    var s := "SHAFAQMANDHA";
    assert forall i :: 0 <= i < |s| ==> IsUpper(s[i]);
  }

  lemma {:induction false} UpperDomainFolds()
    ensures ToLower("@SCENTIFY.COM") == "@scentify.com"
  {
    var s := "@SCENTIFY.COM";
    assert forall i :: 0 <= i < |s| ==> s[i] == '@' || s[i] == '.' || IsUpper(s[i]);
  }

  /** MOCK_USERS: the module-level directory, shared by every session and mutated in place. */
  class UserDirectory {
    var accounts: seq<Account>

    constructor()
      ensures accounts == SeedAccounts
    {
      accounts := SeedAccounts;
    }
  }

  /** The session: the current user and the loading flag. */
  class AuthStore {
    var user: Option<User>
    var isLoading: bool
    const directory: UserDirectory

    /** A session over `directory`; `restored` is the user read back from storage, if any. */
    constructor(directory: UserDirectory, restored: Option<User>)
      ensures this.directory == directory && user == restored && !isLoading
    {
      this.directory := directory;
      user := restored;
      isLoading := false;
    }

    /** `!!user`. */
    function IsAuthenticated(): bool
      reads this
    {
      user.Some?
    }

    method Login(email: string, password: string) returns (ok: bool)
      modifies this
      ensures ok <==> exists j :: 0 <= j < |directory.accounts| && CredentialsMatch(directory.accounts[j], email, password)
      ensures ok ==> var i := FindAccount(directory.accounts, email, password).value;
        user == Some(WithoutPassword(directory.accounts[i]))
      ensures !ok ==> user == old(user)
      ensures ok ==> IsAuthenticated()
      ensures !isLoading
      ensures directory.accounts == old(directory.accounts)
    {
      isLoading := true;
      var found := FindAccount(directory.accounts, email, password);
      if found.Some? {
        user := Some(WithoutPassword(directory.accounts[found.value]));
        ok := true;
      } else {
        ok := false;
      }
      isLoading := false;
    }

    /** `newId` stands for the `user-<timestamp>` identifier. */
    method Register(p: Profile, password: string, newId: string) returns (ok: bool)
      modifies this, directory
      ensures ok <==> !EmailTaken(old(directory.accounts), p.email)
      ensures !ok ==> directory.accounts == old(directory.accounts) && user == old(user)
      ensures ok ==> directory.accounts == old(directory.accounts) + [WithPassword(NewUser(newId, p), password)]
      ensures ok ==> user == Some(NewUser(newId, p))
      ensures !isLoading
    {
      isLoading := true;
      if EmailTaken(directory.accounts, p.email) {
        ok := false;
      } else {
        var u := NewUser(newId, p);
        directory.accounts := directory.accounts + [WithPassword(u, password)];
        user := Some(u);
        ok := true;
      }
      isLoading := false;
    }

    method Logout()
      modifies this
      ensures user == None && !IsAuthenticated()
      ensures isLoading == old(isLoading)
      ensures directory.accounts == old(directory.accounts)
    {
      user := None;
    }

    /** Merges the patch into the current user and into the directory record that has the
        current user's (old) id; does nothing when nobody is signed in. */
    method UpdateUserProfile(patch: UserPatch)
      modifies this, directory
      ensures isLoading == old(isLoading)
      ensures old(user).None? ==> user == None && directory.accounts == old(directory.accounts)
      ensures old(user).Some? ==> user == Some(Merge(old(user).value, patch))
      ensures old(user).Some? ==>
        var before := old(directory.accounts);
        var i := IndexOfId(before, old(user).value.id);
        |directory.accounts| == |before| &&
        (i >= 0 ==> directory.accounts[i] == MergeAccount(before[i], patch)) &&
        forall j :: 0 <= j < |before| && j != i ==> directory.accounts[j] == before[j]
    {
      if user.None? {
        return;
      }
      var current := user.value;
      user := Some(Merge(current, patch));
      var i := IndexOfId(directory.accounts, current.id);
      if i != -1 {
        directory.accounts := directory.accounts[i := MergeAccount(directory.accounts[i], patch)];
      }
    }
  }

  /** Registering and then logging in with the same email and password signs in the
      registered user. */
  method RegisterThenLogIn(store: AuthStore, p: Profile, password: string, newId: string)
    returns (registered: bool, loggedIn: bool)
    modifies store, store.directory
    ensures registered ==> loggedIn && store.user == Some(NewUser(newId, p))
    ensures registered <==> !EmailTaken(old(store.directory.accounts), p.email)
  {
    var before := store.directory.accounts;
    registered := store.Register(p, password, newId);
    if registered {
      RegisteredCanLogIn(before, p, password, newId);
    }
    loggedIn := store.Login(p.email, password);
  }
}
