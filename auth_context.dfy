/**
 * The client-side mock user registry (street-share-hub-main/src/context/AuthContext.tsx):
 * a list of accounts that `register` appends to, and the session pair
 * `user` / `isAuthenticated` that `login`, `register` and `logout` set.
 */
module AuthContext {
  import opened Wrappers
  import opened Seqs
  import opened Types

  /** A registry entry: the public user record and the password kept beside it. */
  datatype Account = Account(user: User, password: string)

  /** The registration form: a user without an id, plus a password. */
  datatype Registration = Registration(
    name: string,
    email: string,
    role: Role,
    location: string,
    phone: Option<string>,
    password: string)

  /** The three demonstration accounts the registry starts with. */
  function SeedAccounts(): (r: seq<Account>)
    ensures EmailsDistinct(r)
  {
    [ Account(User("1", "Raj Sharma", "raj@vendor.com", Vendor, "Mumbai, Maharashtra", Some("+91 9876543210")), "password"),
      Account(User("2", "Priya Suppliers", "priya@supplier.com", Supplier, "Delhi, NCR", Some("+91 9876543211")), "password"),
      Account(User("3", "Amit Kumar", "amit@vendor.com", Vendor, "Bangalore, Karnataka", Some("+91 9876543212")), "password") ]
  }

  ghost predicate EmailsDistinct(accounts: seq<Account>) {
    forall i, j :: 0 <= i < j < |accounts| ==> accounts[i].user.email != accounts[j].user.email
  }

  function CredentialsMatch(email: string, password: string): Account -> bool {
    (a: Account) => a.user.email == email && a.password == password
  }

  function EmailIs(email: string): Account -> bool {
    (a: Account) => a.user.email == email
  }

  /** The user record `register` builds from the form and the clock-derived id. */
  function NewUser(form: Registration, id: string): User {
    User(id, form.name, form.email, form.role, form.location, form.phone)
  }

  /** Appending an account whose email is new keeps the registry's emails distinct. */
  lemma AppendKeepsEmailsDistinct(accounts: seq<Account>, a: Account)
    requires EmailsDistinct(accounts)
    requires FindFirst(EmailIs(a.user.email), accounts).None?
    ensures EmailsDistinct(accounts + [a])
  {
    var s := accounts + [a];
    forall i, j | 0 <= i < j < |s|
      ensures s[i].user.email != s[j].user.email
    {
      if j == |accounts| {
        assert !EmailIs(a.user.email)(accounts[i]);
      }
    }
  }

  /**
   * Register-then-login round trip on the registry: once an account with a new
   * email is appended, a lookup by that email and password finds exactly it.
   */
  lemma {:induction false} RegisteredAccountIsFound(accounts: seq<Account>, form: Registration, id: string)
    requires FindFirst(EmailIs(form.email), accounts).None?
    ensures FindFirst(CredentialsMatch(form.email, form.password),
                      accounts + [Account(NewUser(form, id), form.password)]) == Some(|accounts|)
    decreases |accounts|
  {
    var a := Account(NewUser(form, id), form.password);
    if accounts == [] {
      assert [] + [a] == [a];
    } else {
      assert !EmailIs(form.email)(accounts[0]);
      assert FindFirst(EmailIs(form.email), accounts[1..]).None? by {
        forall k | 0 <= k < |accounts[1..]|
          ensures !EmailIs(form.email)(accounts[1..][k])
        {
          assert accounts[1..][k] == accounts[k + 1];
        }
      }
      RegisteredAccountIsFound(accounts[1..], form, id);
      assert (accounts + [a])[1..] == accounts[1..] + [a];
    }
  }

  class AuthProvider {
    /** The registry, seeded from `mockUsers` whenever a provider is created. */
    var accounts: seq<Account>
    var user: Option<User>
    var isAuthenticated: bool

    ghost predicate Valid()
      reads this
    {
      EmailsDistinct(accounts) && (isAuthenticated <==> user.Some?)
    }

    /** The provider as first rendered: the seed registry and nobody signed in. */
    constructor ()
      ensures Valid()
      ensures accounts == SeedAccounts() && user == None && !isAuthenticated
    {
      accounts := SeedAccounts();
      user := None;
      isAuthenticated := false;
    }

    /** The start-up effect: a user saved in local storage is signed back in. */
    method Restore(saved: Option<User>)
      requires Valid()
      modifies this
      ensures Valid()
      ensures accounts == old(accounts)
      ensures saved.Some? ==> user == saved && isAuthenticated
      ensures saved.None? ==> user == old(user) && isAuthenticated == old(isAuthenticated)
    {
      if saved.Some? {
        user := saved;
        isAuthenticated := true;
      }
    }

    method Login(email: string, password: string) returns (ok: bool)
      requires Valid()
      modifies this
      ensures Valid()
      ensures accounts == old(accounts)
      ensures ok <==> exists i :: 0 <= i < |accounts| && accounts[i].user.email == email && accounts[i].password == password
      ensures ok ==> isAuthenticated
      ensures ok ==> user == Some(accounts[FindFirst(CredentialsMatch(email, password), accounts).value].user)
      ensures !ok ==> user == old(user) && isAuthenticated == old(isAuthenticated)
    {
      var found := FindFirst(CredentialsMatch(email, password), accounts);
      if found.Some? {
        user := Some(accounts[found.value].user);
        isAuthenticated := true;
        ok := true;
      } else {
        ok := false;
        assert forall i :: 0 <= i < |accounts| ==> !CredentialsMatch(email, password)(accounts[i]);
      }
    }

    method Register(form: Registration, clockId: string) returns (ok: bool)
      requires Valid()
      modifies this
      ensures Valid()
      ensures ok <==> forall i :: 0 <= i < |old(accounts)| ==> old(accounts)[i].user.email != form.email
      ensures !ok ==> accounts == old(accounts) && user == old(user) && isAuthenticated == old(isAuthenticated)
      ensures ok ==> accounts == old(accounts) + [Account(NewUser(form, clockId), form.password)]
      ensures ok ==> user == Some(NewUser(form, clockId)) && isAuthenticated
    {
      var existing := FindFirst(EmailIs(form.email), accounts);
      if existing.Some? {
        ok := false;
        return;
      }
      var newUser := NewUser(form, clockId);
      AppendKeepsEmailsDistinct(accounts, Account(newUser, form.password));
      accounts := accounts + [Account(newUser, form.password)];
      user := Some(newUser);
      isAuthenticated := true;
      ok := true;
    }

    method Logout()
      requires Valid()
      modifies this
      ensures Valid()
      ensures accounts == old(accounts) && user == None && !isAuthenticated
    {
      user := None;
      isAuthenticated := false;
    }
  }

  /** A client of the provider: registering a new email and then logging in with it succeeds. */
  method RegisterThenLogin(auth: AuthProvider, form: Registration, clockId: string)
    returns (registered: bool, loggedIn: bool)
    requires auth.Valid()
    requires forall i :: 0 <= i < |auth.accounts| ==> auth.accounts[i].user.email != form.email
    modifies auth
    ensures registered && loggedIn
    ensures auth.Valid()
    ensures auth.accounts == old(auth.accounts) + [Account(NewUser(form, clockId), form.password)]
    ensures auth.user == Some(NewUser(form, clockId)) && auth.isAuthenticated
  {
    var before := auth.accounts;
    registered := auth.Register(form, clockId);
    assert FindFirst(EmailIs(form.email), before).None?;
    RegisteredAccountIsFound(before, form, clockId);
    loggedIn := auth.Login(form.email, form.password);
    assert auth.accounts[|before|].user.email == form.email;
  }
}
