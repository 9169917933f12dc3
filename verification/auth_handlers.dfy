/**
 * The mock authentication endpoints (src/mocks/handlers/auth.ts): the login
 * decision over the stored users, logout, and signup of a merchant account.
 * Network latency and the HTTP plumbing are not modelled; `Date.now()` and
 * the creation time are parameters.
 */
module AuthHandlers {
  import opened Types
  import opened Storage
  import opened Lists
  import opened DataManagement
  import MockData

  datatype Credentials = Credentials(email: string, password: string)

  /** The signup form; only `email` and `password` reach the stored account. */
  datatype SignupRequest = SignupRequest(
    email: string,
    firstName: string,
    lastName: string,
    businessName: string,
    phone: string,
    password: string)

  /** The token login hands out, and the one the session store keeps whatever the reply carried. */
  const MockToken: string := "mock_token"

  function HasEmail(email: string): User -> bool {
    (u: User) => u.email == email
  }

  /** `users[i]` is the first user registered under `email`. */
  ghost predicate FirstWithEmail(users: seq<User>, i: int, email: string) {
    0 <= i < |users| && users[i].email == email && forall j :: 0 <= j < i ==> users[j].email != email
  }

  /**
   * POST /api/auth/login. Only the first user with the email is considered:
   * 401 unless its password matches, then 403 if it is inactive, otherwise
   * its public record and the mock token.
   */
  function Login(users: seq<User>, credentials: Credentials): (r: Response<AuthUser>)
    ensures r.success <==> r.status == 200
    ensures r.status == 401 <==>
      !exists i :: FirstWithEmail(users, i, credentials.email) && users[i].password == credentials.password
    ensures r.status == 403 <==>
      exists i :: FirstWithEmail(users, i, credentials.email) && users[i].password == credentials.password
        && users[i].status == Inactive
    ensures (exists i ::
      && FirstWithEmail(users, i, credentials.email)
      && users[i].password == credentials.password && users[i].status == Active) ==> r.success
    ensures r.status == 401 ==> r == Fail(401, "Invalid email or password")
    ensures r.status == 403 ==> r == Fail(403, "Account is inactive")
    ensures r.success ==> r.message == "Login successful" && exists i ::
      && FirstWithEmail(users, i, credentials.email)
      && users[i].password == credentials.password && users[i].status == Active
      && r.data == Some(AuthUser(ToPublic(users[i]), MockToken))
  {
    var index := FindIndex(users, HasEmail(credentials.email));
    if index.None? || users[index.value].password != credentials.password then
      Fail(401, "Invalid email or password")
    else
      var i := index.value;
      assert FirstWithEmail(users, i, credentials.email);
      if users[i].status == Inactive then
        Fail(403, "Account is inactive")
      else
        assert users[i].password == credentials.password && users[i].status == Active;
        Ok("Login successful", Some(AuthUser(ToPublic(users[i]), MockToken)))
  }

  /** POST /api/auth/logout: succeeds whatever the state, with no data. */
  function Logout(): (r: Response<AuthUser>)
    ensures r.status == 200 && r.success && r.data == None
  {
    Ok("Logout successful", None)
  }

  /** The account signup creates: a merchant, active, named "New User". */
  function SignupAccount(request: SignupRequest, stamp: string, createdAt: int): User {
    User("user_" + stamp, request.email, "New", "User", None, None, Merchant, Active, createdAt, request.password)
  }

  /**
   * POST /api/auth/signup. An email already registered gives 400 and leaves
   * the users as they are; otherwise exactly one merchant account is
   * appended. `stamp` stands for `Date.now()`, `createdAt` for the clock.
   */
  method Signup(dm: DataManager, request: SignupRequest, stamp: string, createdAt: int) returns (r: Response<User>)
    requires dm.Valid()
    modifies dm
    ensures dm.Valid()
    ensures (exists i :: 0 <= i < |old(dm.GetUsers())| && old(dm.GetUsers())[i].email == request.email) ==>
      r == Fail(400, "User with this email already exists") && dm.storage == old(dm.storage) && dm.SeedsUnchanged(old(dm.seedUsers), old(dm.seedTransactions), old(dm.seedWallets))
    ensures (forall i :: 0 <= i < |old(dm.GetUsers())| ==> old(dm.GetUsers())[i].email != request.email) ==>
      && r == Ok("Account created successfully. Please login to continue.", None)
      && dm.GetUsers() == old(dm.GetUsers()) + [SignupAccount(request, stamp, createdAt)]
      && dm.storage == old(dm.storage)[UsersKey := UserTable(dm.GetUsers())]
      && dm.SeedsUnchanged(if UsersKey in old(dm.storage) then old(dm.seedUsers) else dm.GetUsers(), old(dm.seedTransactions), old(dm.seedWallets))
  {
    var existingUsers := dm.GetUsers();
    var existingUser := Find(existingUsers, HasEmail(request.email));
    if existingUser.Some? {
      return Fail(400, "User with this email already exists");
    }
    var newUser := SignupAccount(request, stamp, createdAt);
    dm.AddUser(newUser);
    r := Ok("Account created successfully. Please login to continue.", None);
  }

  /** The first user with an email that no earlier user has is the appended one. */
  lemma {:induction false} FirstWithFreshEmail(users: seq<User>, account: User)
    requires forall i :: 0 <= i < |users| ==> users[i].email != account.email
    ensures FindIndex(users + [account], HasEmail(account.email)) == Some(|users|)
    ensures FirstWithEmail(users + [account], |users|, account.email)
  {
    var s := users + [account];
    assert s[|users|] == account;
    assert forall j :: 0 <= j < |users| ==> s[j] == users[j];
  }

  /** After a successful signup, logging in with the same email and password succeeds. */
  lemma SignupThenLogin(users: seq<User>, request: SignupRequest, stamp: string, createdAt: int)
    requires forall i :: 0 <= i < |users| ==> users[i].email != request.email
    ensures var account := SignupAccount(request, stamp, createdAt);
      Login(users + [account], Credentials(request.email, request.password))
        == Ok("Login successful", Some(AuthUser(ToPublic(account), MockToken)))
  {
    FirstWithFreshEmail(users, SignupAccount(request, stamp, createdAt));
  }

  /** A wrong password gives 401 even on an inactive account: the status is checked only afterwards. */
  lemma WrongPasswordBeforeInactive(users: seq<User>, credentials: Credentials, i: int)
    requires FirstWithEmail(users, i, credentials.email)
    requires users[i].status == Inactive && users[i].password != credentials.password
    ensures Login(users, credentials) == Fail(401, "Invalid email or password")
  {
    assert !exists k :: FirstWithEmail(users, k, credentials.email) && users[k].password == credentials.password by {
      forall k | FirstWithEmail(users, k, credentials.email) ensures k == i {
        assert !(k < i) && !(i < k);
      }
    }
  }

  /** The seeded merchant accounts: merchant1 logs in as a merchant; merchant3 is inactive and refused with 403. */
  lemma SeedLoginExamples()
    ensures var r := Login(MockData.SeedUsers, Credentials("merchant1@gmail.com", "12345678"));
      r.success && r.data.Some? && r.data.value.user.role == Merchant && r.data.value.user.id == "user_001"
    ensures Login(MockData.SeedUsers, Credentials("merchant3@gmail.com", "12345678")) == Fail(403, "Account is inactive")
    ensures Login(MockData.SeedUsers, Credentials("merchant3@gmail.com", "wrong")) == Fail(401, "Invalid email or password")
  {
    var users := MockData.SeedUsers;
    assert FirstWithEmail(users, 3, "merchant1@gmail.com");
    assert FirstWithEmail(users, 5, "merchant3@gmail.com");
    WrongPasswordBeforeInactive(users, Credentials("merchant3@gmail.com", "wrong"), 5);
  }
}
