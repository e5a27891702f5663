/** The demo session holder of `lib/auth.ts`: a fixed account table, a
    logged-in user, a loading flag and the one browser-storage key it uses. */
module Auth {
  import opened Lists

  /** The session record. Plan and role are kept as strings, because a record
      read back from storage is taken verbatim. */
  datatype User = User(
    id: string,
    email: string,
    name: string,
    role: string,
    level: int,
    points: int,
    plan: string,
    avatar: Option<string>)

  /** A demo account: the user fields plus the password. */
  datatype Account = Account(
    id: string,
    email: string,
    name: string,
    role: string,
    level: int,
    points: int,
    plan: string,
    password: string)

  /** The storage key of the session record. */
  const SessionKey: string := "sublinx_user"

  const AdminAccount := Account("1", "admin@sublynx.com", "Admin", "admin", 10, 5000, "pro", "password123")
  const AlexAccount := Account("2", "alex@example.com", "Alex", "user", 3, 1250, "free", "password123")

  /** `DEMO_ACCOUNTS`, keyed by e-mail. */
  const DemoAccounts: map<string, Account> :=
    map["admin@sublynx.com" := AdminAccount, "alex@example.com" := AlexAccount]

  /** `const { password: _, ...userWithoutPassword } = account`. */
  function WithoutPassword(a: Account): (u: User)
    ensures u.id == a.id && u.email == a.email && u.name == a.name && u.role == a.role
    ensures u.level == a.level && u.points == a.points && u.plan == a.plan && u.avatar == None
  {
    User(a.id, a.email, a.name, a.role, a.level, a.points, a.plan, None)
  }

  /** The credential check of `login`: the e-mail must be a key of the table
      (exact, case-sensitive) and the password must equal that account's. */
  function Authenticate(email: string, password: string): (r: Option<User>)
    ensures r.Some? <==> email in DemoAccounts && DemoAccounts[email].password == password
    ensures r.Some? ==> r.value == WithoutPassword(DemoAccounts[email]) && r.value.email == email
  {
    if email in DemoAccounts && DemoAccounts[email].password == password
    then Some(WithoutPassword(DemoAccounts[email]))
    else None
  }

  /** The two demo logins succeed with the expected plans; a wrong password,
      a differently cased e-mail and the guest credentials fail. */
  lemma DemoLogins()
    ensures Authenticate("admin@sublynx.com", "password123").Some?
    ensures Authenticate("admin@sublynx.com", "password123").value.plan == "pro"
    ensures Authenticate("admin@sublynx.com", "password123").value.role == "admin"
    ensures Authenticate("alex@example.com", "password123").Some?
    ensures Authenticate("alex@example.com", "password123").value.plan == "free"
    ensures Authenticate("alex@example.com", "wrong") == None
    ensures Authenticate("Admin@sublynx.com", "password123") == None
    ensures Authenticate("guest@sublynx.com", "guest123") == None
  {
    assert "Admin@sublynx.com" != "admin@sublynx.com" && "Admin@sublynx.com" != "alex@example.com";
    assert "guest@sublynx.com" != "admin@sublynx.com" && "guest@sublynx.com" != "alex@example.com";
  }

  /** The session provider. `storage` is the browser's local storage, with
      each value already parsed into a record. */
  class AuthProvider {
    var user: Option<User>
    var isLoading: bool
    var storage: map<string, User>

    /** The initial state: no user, loading, and whatever storage holds. */
    constructor(stored: map<string, User>)
      ensures user == None && isLoading && storage == stored
    {
      user := None;
      isLoading := true;
      storage := stored;
    }

    /** The startup effect: a stored record becomes the user verbatim;
        without one the user is left as it is. Loading ends either way. */
    method LoadStoredSession()
      modifies this
      ensures user == if SessionKey in old(storage) then Some(old(storage)[SessionKey]) else old(user)
      ensures storage == old(storage)
      ensures !isLoading
    {
      if SessionKey in storage {
        user := Some(storage[SessionKey]);
      }
      isLoading := false;
    }

    /** `login`, with the artificial delay taken as one atomic step. On success
        the user and the stored record are the account without its password;
        on failure nothing but the loading flag changes. */
    method Login(email: string, password: string) returns (ok: bool)
      modifies this
      ensures ok <==> Authenticate(email, password).Some?
      ensures ok ==> user == Authenticate(email, password) &&
                     storage == old(storage)[SessionKey := user.value]
      ensures !ok ==> user == old(user) && storage == old(storage)
      ensures !isLoading
    {
      isLoading := true;
      if email in DemoAccounts && DemoAccounts[email].password == password {
        var u := WithoutPassword(DemoAccounts[email]);
        user := Some(u);
        storage := storage[SessionKey := u];
        isLoading := false;
        return true;
      }
      isLoading := false;
      return false;
    }

    /** `logout`: no user and no stored record, whatever the state was. */
    method Logout()
      modifies this
      ensures user == None
      ensures storage == old(storage) - {SessionKey}
      ensures isLoading == old(isLoading)
    {
      user := None;
      storage := storage - {SessionKey};
    }
  }

  /** Logging out twice leaves the same state as logging out once. */
  method LogoutTwice(p: AuthProvider)
    modifies p
    ensures p.user == None
    ensures p.storage == old(p.storage) - {SessionKey}
    ensures p.isLoading == old(p.isLoading)
  {
    p.Logout();
    p.Logout();
  }

  /** A session written by a successful login is what the next startup loads. */
  method LoginThenRestart(email: string, password: string) returns (ok: bool, restarted: AuthProvider)
    ensures ok ==> restarted.user == Authenticate(email, password)
    ensures !ok ==> restarted.user == None
    ensures !restarted.isLoading
  {
    var first := new AuthProvider(map[]);
    ok := first.Login(email, password);
    restarted := new AuthProvider(first.storage);
    restarted.LoadStoredSession();
  }
}
