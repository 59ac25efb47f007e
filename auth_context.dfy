/** The authentication context: a session holding at most one user, checked
    against a fixed table of demo accounts. Storage is the single "user" entry
    of the browser's local storage; navigation targets are returned. */
module Auth {
  import Text
  import Collections

  datatype Role = Admin | Owner | Editor | Viewer

  datatype User = User(id: string, name: string, email: string, role: Role, teamId: Collections.Option<string>)

  /** A demo account: a user together with its password. */
  datatype Account = Account(id: string, name: string, email: string, password: string, role: Role,
                             teamId: Collections.Option<string>)

  const MockAccounts: seq<Account> := [
    Account("u1", "Admin User", "admin@example.com", "password", Admin, Collections.None),
    Account("u2", "John Doe", "john@example.com", "password", Owner, Collections.Some("t1")),
    Account("u3", "Jane Smith", "jane@example.com", "password", Editor, Collections.Some("t1")),
    Account("u4", "Bob Viewer", "bob@example.com", "password", Viewer, Collections.Some("t1"))
  ]

  /** The demo table: four accounts with distinct emails, all with the password
      "password", and only the first an admin. */
  lemma DemoTable()
    ensures |MockAccounts| == 4
    ensures forall i, j :: 0 <= i < j < |MockAccounts| ==> MockAccounts[i].email != MockAccounts[j].email
    ensures forall i :: 0 <= i < |MockAccounts| ==> MockAccounts[i].password == "password"
    ensures forall i :: 0 <= i < |MockAccounts| ==> (MockAccounts[i].role == Admin <==> i == 0)
    ensures forall i :: 0 <= i < |MockAccounts| ==> (MockAccounts[i].teamId.None? <==> i == 0)
  {
  }

  /** `const { password: _, ...userWithoutPassword } = account`. */
  function WithoutPassword(a: Account): (u: User)
    ensures u.id == a.id && u.name == a.name && u.email == a.email && u.role == a.role && u.teamId == a.teamId
  {
    User(a.id, a.name, a.email, a.role, a.teamId)
  }

  /** The account `login` finds: the first whose email and password both match. */
  function FindAccount(email: string, password: string): (r: Collections.Option<Account>)
    ensures r.None? <==> forall i :: 0 <= i < |MockAccounts| ==>
                           MockAccounts[i].email != email || MockAccounts[i].password != password
    ensures r.Some? ==> r.value in MockAccounts && r.value.email == email && r.value.password == password
    ensures r.Some? ==> exists i :: 0 <= i < |MockAccounts| && MockAccounts[i] == r.value &&
                                    forall j :: 0 <= j < i ==> MockAccounts[j].email != email || MockAccounts[j].password != password
  {
    Collections.FindFirst(MockAccounts, (a: Account) => a.email == email && a.password == password)
  }

  /** Where a successful login sends the user. */
  function HomeFor(role: Role): (path: string)
    ensures role == Admin <==> path == "/admin/dashboard"
    ensures role != Admin <==> path == "/dashboard"
  {
    if role == Admin then "/admin/dashboard" else "/dashboard"
  }

  /** The user a successful signup creates; the id and team are numbered after the
      fixed table, which signup never extends. */
  function NewUser(name: string, email: string): (u: User)
    ensures u.name == name && u.email == email && u.role == Owner
    ensures u.id == "u5" && u.teamId == Collections.Some("t5")
  {
    var n := Text.NatToDecimal(|MockAccounts| + 1);
    assert n == "5";
    assert "t" + n == "t5";
    User("u" + n, name, email, Owner, Collections.Some("t" + n))
  }

  /** Signup is refused for any email of the fixed table. */
  function EmailTaken(email: string): (r: bool)
    ensures r <==> exists i :: 0 <= i < |MockAccounts| && MockAccounts[i].email == email
  {
    Collections.FindFirst(MockAccounts, (a: Account) => a.email == email).Some?
  }

  /** `roles` as given to `hasRole`: one role, or an array of roles. */
  datatype RoleQuery = One(role: Role) | AnyOf(roles: seq<Role>)

  function HasRole(user: Collections.Option<User>, q: RoleQuery): (r: bool)
    ensures user.None? ==> !r
    ensures user.Some? && q.One? ==> (r <==> user.value.role == q.role)
    ensures user.Some? && q.AnyOf? ==> (r <==> user.value.role in q.roles)
  {
    if user.None? then false
    else match q
      case AnyOf(roles) => user.value.role in roles
      case One(role) => user.value.role == role
  }

  function IsAuthenticated(user: Collections.Option<User>): (r: bool)
    ensures r <==> user.Some?
  {
    user.Some?
  }

  /** Logging in succeeds exactly for the accounts of the table, with their own passwords. */
  lemma LoginSucceedsIff(email: string, password: string)
    ensures FindAccount(email, password).Some? <==>
            exists a :: a in MockAccounts && a.email == email && a.password == password
  {
    if a :| a in MockAccounts && a.email == email && a.password == password {
      var i :| 0 <= i < |MockAccounts| && MockAccounts[i] == a;
    }
  }

  /** Each demo account logs in with its own email and password, and finds itself:
      no two accounts share an email. */
  lemma AccountFindsItself(k: nat)
    requires k < |MockAccounts|
    ensures FindAccount(MockAccounts[k].email, MockAccounts[k].password) == Collections.Some(MockAccounts[k])
  {
    var a := MockAccounts[k];
    var r := FindAccount(a.email, a.password);
    assert r.Some?;
    var i :| 0 <= i < |MockAccounts| && MockAccounts[i] == r.value;
    assert MockAccounts[i].email == a.email;
  }

  /** The admin and viewer demo logins with "password", and where they lead. */
  lemma DemoLogins()
    ensures FindAccount("admin@example.com", "password") == Collections.Some(MockAccounts[0])
    ensures HomeFor(WithoutPassword(MockAccounts[0]).role) == "/admin/dashboard"
    ensures FindAccount("bob@example.com", "password") == Collections.Some(MockAccounts[3])
    ensures HomeFor(WithoutPassword(MockAccounts[3]).role) == "/dashboard"
    ensures FindAccount("admin@example.com", "secret").None?
  {
    AccountFindsItself(0);
    AccountFindsItself(3);
    assert MockAccounts[0].password != "secret";
  }

  /** A signed-up user cannot log in later: the table was not extended, so neither
      their email nor any password is found. */
  lemma SignedUpCannotLogIn(email: string, password: string)
    requires !EmailTaken(email)
    ensures FindAccount(email, password).None?
  {
  }

  /** Every signup gets the same id, so two signed-up users are indistinguishable by id. */
  lemma SignupIdsCollide(n1: string, e1: string, n2: string, e2: string)
    ensures NewUser(n1, e1).id == NewUser(n2, e2).id
  {
  }

  /** The session state of the provider. */
  class AuthSession {
    var user: Collections.Option<User>
    var isLoading: bool
    /** The "user" entry of local storage, already parsed. */
    var storedUser: Collections.Option<User>

    /** A fresh provider before its mount effect has run. */
    constructor (stored: Collections.Option<User>)
      ensures user.None? && isLoading && storedUser == stored
    {
      user := Collections.None;
      isLoading := true;
      storedUser := stored;
    }

    /** The mount effect: take over a stored user, if any, and stop loading. */
    method Restore()
      modifies this
      ensures storedUser.Some? ==> user == storedUser
      ensures storedUser.None? ==> user == old(user)
      ensures !isLoading && storedUser == old(storedUser)
    {
      if storedUser.Some? {
        user := storedUser;
      }
      isLoading := false;
    }

    function Authenticated(): (r: bool)
      reads this
      ensures r <==> user.Some?
    {
      IsAuthenticated(user)
    }

    function UserHasRole(q: RoleQuery): (r: bool)
      reads this
      ensures user.None? ==> !r
    {
      HasRole(user, q)
    }

    /** `login`; the result is the page navigated to, `None` when the login failed. */
    method Login(email: string, password: string) returns (destination: Collections.Option<string>)
      modifies this
      ensures FindAccount(email, password).None? ==>
        user == old(user) && storedUser == old(storedUser) && destination.None?
      ensures FindAccount(email, password).Some? ==>
        && user == Collections.Some(WithoutPassword(FindAccount(email, password).value))
        && storedUser == user
        && destination == Collections.Some(HomeFor(user.value.role))
      ensures !isLoading
    {
      isLoading := true;
      var found := FindAccount(email, password);
      if found.None? {
        destination := Collections.None;
      } else {
        var u := WithoutPassword(found.value);
        user := Collections.Some(u);
        storedUser := user;
        destination := Collections.Some(HomeFor(u.role));
      }
      isLoading := false;
    }

    /** `signup`; the password is accepted but neither checked nor kept. */
    method Signup(name: string, email: string, password: string) returns (destination: Collections.Option<string>)
      modifies this
      ensures EmailTaken(email) ==> user == old(user) && storedUser == old(storedUser) && destination.None?
      ensures !EmailTaken(email) ==>
        user == Collections.Some(NewUser(name, email)) && storedUser == user && destination == Collections.Some("/dashboard")
      ensures !isLoading
    {
      isLoading := true;
      if EmailTaken(email) {
        destination := Collections.None;
      } else {
        user := Collections.Some(NewUser(name, email));
        storedUser := user;
        destination := Collections.Some("/dashboard");
      }
      isLoading := false;
    }

    method Logout() returns (destination: string)
      modifies this
      ensures user.None? && storedUser.None? && destination == "/login"
      ensures isLoading == old(isLoading)
    {
      user := Collections.None;
      storedUser := Collections.None;
      destination := "/login";
    }
  }
}
