/**
 * The mock user-management endpoints (src/mocks/handlers/users.ts): the
 * status update, the payment summaries of the merchants, and the creation
 * and removal of admins. `Date.now()` and the clock are parameters.
 */
module UserHandlers {
  import opened Types
  import opened Storage
  import opened Lists
  import opened DataManagement
  import AuthHandlers

  /**
   * PUT /api/users/:userId/status. With no user of that id: 404 and nothing
   * written. Otherwise the first user with the id gets the new status,
   * nothing else changes, and the updated record is returned.
   */
  method UpdateStatus(dm: DataManager, userId: string, status: UserStatus) returns (r: Response<User>)
    requires dm.Valid()
    modifies dm
    ensures dm.Valid()
    ensures r.success <==> exists i :: 0 <= i < |old(dm.GetUsers())| && old(dm.GetUsers())[i].id == userId
    ensures match FindIndex(old(dm.GetUsers()), HasId(userId))
      case None => r == Fail(404, "User not found") && dm.storage == old(dm.storage) && dm.SeedsUnchanged(old(dm.seedUsers), old(dm.seedTransactions), old(dm.seedWallets))
      case Some(i) =>
        var updated := old(dm.GetUsers())[i].(status := status);
        && r == Ok(if status == Active then "User activated successfully" else "User deactivated successfully", Some(updated))
        && dm.storage == old(dm.storage)[UsersKey := UserTable(old(dm.GetUsers())[i := updated])]
        && dm.SeedsUnchanged(if UsersKey in old(dm.storage) then old(dm.seedUsers) else dm.GetUsers(), old(dm.seedTransactions), old(dm.seedWallets))
  {
    ghost var users := dm.GetUsers();
    var updatedUser := dm.UpdateUser(userId, StatusPatch(status));
    if updatedUser.None? {
      return Fail(404, "User not found");
    }
    StatusPatchChangesOnlyStatus(users[FindIndex(users, HasId(userId)).value], status);
    r := Ok(if status == Active then "User activated successfully" else "User deactivated successfully", updatedUser);
  }

  /** One row of GET /api/payments/summary. */
  datatype PaymentSummary = PaymentSummary(userId: string, userName: string, totalAmount: int, transactionCount: nat)

  /** The row for `user`: completed amounts summed, transactions of every status counted. */
  function Summarize(user: User, transactions: seq<Transaction>): PaymentSummary {
    var mine := Filter(transactions, TransactionOf(user.id));
    PaymentSummary(user.id, user.firstName + " " + user.lastName, Sum(Filter(mine, IsCompleted), Amount), |mine|)
  }

  function SummarizeAll(merchants: seq<User>, transactions: seq<Transaction>): (r: seq<PaymentSummary>)
    ensures |r| == |merchants| && forall k :: 0 <= k < |r| ==> r[k] == Summarize(merchants[k], transactions)
    decreases |merchants|
  {
    if |merchants| == 0 then [] else [Summarize(merchants[0], transactions)] + SummarizeAll(merchants[1..], transactions)
  }

  /**
   * GET /api/payments/summary: one row per user with role "user", in store
   * order; admins and the super admin get none.
   */
  function PaymentSummaries(users: seq<User>, transactions: seq<Transaction>): (r: Response<seq<PaymentSummary>>)
    ensures r.status == 200 && r.success && r.message == "Payment summaries retrieved" && r.data.Some?
    ensures SummaryRowsFollowStore(users, transactions, r.data.value)
  {
    SummariesFollowStore(users, transactions);
    Ok("Payment summaries retrieved", Some(SummarizeAll(Filter(users, HasRole(Merchant)), transactions)))
  }

  /**
   * The rows of the summary for `users`: as many as there are role-"user"
   * accounts, row k summarising the k-th of them in store order, every row
   * some merchant's and every merchant with a row.
   */
  ghost predicate SummaryRowsFollowStore(users: seq<User>, transactions: seq<Transaction>, rows: seq<PaymentSummary>) {
    var positions := PassingIndices(users, HasRole(Merchant));
    && |rows| == |Filter(users, HasRole(Merchant))| == |positions|
    && (forall k :: 0 <= k < |rows| ==> rows[k] == Summarize(Filter(users, HasRole(Merchant))[k], transactions))
    && (forall k :: 0 <= k < |rows| ==> users[positions[k]].role == Merchant && rows[k] == Summarize(users[positions[k]], transactions))
    && (forall k :: 0 <= k < |rows| ==>
         exists i :: 0 <= i < |users| && users[i].role == Merchant && rows[k] == Summarize(users[i], transactions))
    && (forall i :: 0 <= i < |users| && users[i].role == Merchant ==>
         exists k :: 0 <= k < |rows| && rows[k] == Summarize(users[i], transactions))
  }

  /** Summarising the role-"user" accounts in filter order gives rows that follow the store. */
  lemma SummariesFollowStore(users: seq<User>, transactions: seq<Transaction>)
    ensures SummaryRowsFollowStore(users, transactions, SummarizeAll(Filter(users, HasRole(Merchant)), transactions))
  {
    RowsByPosition(users, transactions);
    RowsAreMerchants(users, transactions);
    MerchantsHaveRows(users, transactions);
  }

  /** Row k summarises the account at the k-th role-"user" position of the store. */
  lemma RowsByPosition(users: seq<User>, transactions: seq<Transaction>)
    ensures var rows := SummarizeAll(Filter(users, HasRole(Merchant)), transactions);
      var positions := PassingIndices(users, HasRole(Merchant));
      && |rows| == |positions|
      && forall k :: 0 <= k < |rows| ==> users[positions[k]].role == Merchant && rows[k] == Summarize(users[positions[k]], transactions)
  {
    var merchants := Filter(users, HasRole(Merchant));
    var positions := PassingIndices(users, HasRole(Merchant));
    assert |merchants| == |positions| && forall k :: 0 <= k < |merchants| ==> merchants[k] == users[positions[k]] by {
      FilterKeepsOrder(users, HasRole(Merchant));
    }
    assert forall k :: 0 <= k < |positions| ==> HasRole(Merchant)(users[positions[k]]);
  }

  lemma RowsAreMerchants(users: seq<User>, transactions: seq<Transaction>)
    ensures var rows := SummarizeAll(Filter(users, HasRole(Merchant)), transactions);
      forall k :: 0 <= k < |rows| ==>
        exists i :: 0 <= i < |users| && users[i].role == Merchant && rows[k] == Summarize(users[i], transactions)
  {
    var rows := SummarizeAll(Filter(users, HasRole(Merchant)), transactions);
    var positions := PassingIndices(users, HasRole(Merchant));
    RowsByPosition(users, transactions);
    forall k | 0 <= k < |rows|
      ensures exists i :: 0 <= i < |users| && users[i].role == Merchant && rows[k] == Summarize(users[i], transactions)
    {
      var i := positions[k];
      assert users[i].role == Merchant && rows[k] == Summarize(users[i], transactions);
    }
  }

  lemma MerchantsHaveRows(users: seq<User>, transactions: seq<Transaction>)
    ensures var rows := SummarizeAll(Filter(users, HasRole(Merchant)), transactions);
      forall i :: 0 <= i < |users| && users[i].role == Merchant ==>
        exists k :: 0 <= k < |rows| && rows[k] == Summarize(users[i], transactions)
  {
    var rows := SummarizeAll(Filter(users, HasRole(Merchant)), transactions);
    var positions := PassingIndices(users, HasRole(Merchant));
    RowsByPosition(users, transactions);
    forall i | 0 <= i < |users| && users[i].role == Merchant
      ensures exists k :: 0 <= k < |rows| && rows[k] == Summarize(users[i], transactions)
    {
      assert HasRole(Merchant)(users[i]);
      var k :| 0 <= k < |positions| && positions[k] == i;
      assert rows[k] == Summarize(users[i], transactions);
    }
  }

  /** The reference rule: the completed amounts of `userId`, added up one transaction at a time. */
  function CompletedTotal(transactions: seq<Transaction>, userId: string): int
    decreases |transactions|
  {
    if |transactions| == 0 then 0
    else
      var t := transactions[0];
      (if t.userId == userId && t.status == Completed then t.amount else 0) + CompletedTotal(transactions[1..], userId)
  }

  /** The reference count: the transactions of `userId`, whatever their status. */
  function CountOwned(transactions: seq<Transaction>, userId: string): nat
    decreases |transactions|
  {
    if |transactions| == 0 then 0
    else (if transactions[0].userId == userId then 1 else 0) + CountOwned(transactions[1..], userId)
  }

  /** A summary row agrees with the reference total and count. */
  lemma {:induction false} SummarizeMatchesReference(user: User, transactions: seq<Transaction>)
    ensures Summarize(user, transactions).totalAmount == CompletedTotal(transactions, user.id)
    ensures Summarize(user, transactions).transactionCount == CountOwned(transactions, user.id)
    ensures Summarize(user, transactions).userName == user.firstName + " " + user.lastName
    decreases |transactions|
  {
    if |transactions| > 0 {
      var t := transactions[0];
      var rest := transactions[1..];
      SummarizeMatchesReference(user, rest);
      assert transactions == [t] + rest;
      FilterAppend([t], rest, TransactionOf(user.id));
      var mine := Filter([t], TransactionOf(user.id));
      var restMine := Filter(rest, TransactionOf(user.id));
      FilterAppend(mine, restMine, IsCompleted);
      SumAppend(Filter(mine, IsCompleted), Filter(restMine, IsCompleted), Amount);
    }
  }

  /**
   * Recording one more transaction adds one to its owner's count, and its
   * amount to the owner's total only if it completed; others' rows stay.
   */
  lemma SummaryAfterAppend(user: User, transactions: seq<Transaction>, t: Transaction)
    ensures Summarize(user, transactions + [t]).transactionCount ==
      Summarize(user, transactions).transactionCount + (if t.userId == user.id then 1 else 0)
    ensures Summarize(user, transactions + [t]).totalAmount ==
      Summarize(user, transactions).totalAmount + (if t.userId == user.id && t.status == Completed then t.amount else 0)
  {
    FilterAppend(transactions, [t], TransactionOf(user.id));
    var mine := Filter(transactions, TransactionOf(user.id));
    var added := Filter([t], TransactionOf(user.id));
    FilterAppend(mine, added, IsCompleted);
    SumAppend(Filter(mine, IsCompleted), Filter(added, IsCompleted), Amount);
  }

  /** The body of POST /api/admins. */
  datatype AdminRequest = AdminRequest(email: string, firstName: string, lastName: string)

  const DefaultAdminPassword: string := "12345678"

  /** The admin POST /api/admins creates: active, with the default password. */
  function NewAdmin(request: AdminRequest, stamp: string, createdAt: int): User {
    User("admin_" + stamp, request.email, request.firstName, request.lastName, None, None, Admin, Active, createdAt, DefaultAdminPassword)
  }

  /**
   * POST /api/admins. An email already registered gives 400 and writes
   * nothing; otherwise one admin is appended and returned.
   */
  method CreateAdmin(dm: DataManager, request: AdminRequest, stamp: string, createdAt: int) returns (r: Response<User>)
    requires dm.Valid()
    modifies dm
    ensures dm.Valid()
    ensures (exists i :: 0 <= i < |old(dm.GetUsers())| && old(dm.GetUsers())[i].email == request.email) ==>
      r == Fail(400, "User with this email already exists") && dm.storage == old(dm.storage) && dm.SeedsUnchanged(old(dm.seedUsers), old(dm.seedTransactions), old(dm.seedWallets))
    ensures (forall i :: 0 <= i < |old(dm.GetUsers())| ==> old(dm.GetUsers())[i].email != request.email) ==>
      && r == Ok("Admin created successfully", Some(NewAdmin(request, stamp, createdAt)))
      && dm.GetUsers() == old(dm.GetUsers()) + [NewAdmin(request, stamp, createdAt)]
      && dm.storage == old(dm.storage)[UsersKey := UserTable(dm.GetUsers())]
      && dm.SeedsUnchanged(if UsersKey in old(dm.storage) then old(dm.seedUsers) else dm.GetUsers(), old(dm.seedTransactions), old(dm.seedWallets))
  {
    var users := dm.GetUsers();
    var existingUser := Find(users, AuthHandlers.HasEmail(request.email));
    if existingUser.Some? {
      return Fail(400, "User with this email already exists");
    }
    var newAdmin := NewAdmin(request, stamp, createdAt);
    dm.AddUser(newAdmin);
    r := Ok("Admin created successfully", Some(newAdmin));
  }

  /** A freshly created admin can log in with the default password and is seen as an admin. */
  lemma CreatedAdminCanLogIn(users: seq<User>, request: AdminRequest, stamp: string, createdAt: int)
    requires forall i :: 0 <= i < |users| ==> users[i].email != request.email
    ensures var r := AuthHandlers.Login(users + [NewAdmin(request, stamp, createdAt)],
        AuthHandlers.Credentials(request.email, DefaultAdminPassword));
      r.success && r.data.Some? && r.data.value.user.role == Admin && r.data.value.user.id == "admin_" + stamp
  {
    AuthHandlers.FirstWithFreshEmail(users, NewAdmin(request, stamp, createdAt));
  }

  function IsAdminWithId(adminId: string): User -> bool {
    (u: User) => u.id == adminId && u.role == Admin
  }

  /**
   * DELETE /api/admins/:adminId. Unless some user with that id has role
   * "admin", 404 and nothing written: merchants and the super admin cannot
   * be removed this way. Otherwise every user with that id is removed and
   * the others keep their order. The 500 reply for a failed removal cannot
   * occur, since the removal follows a successful lookup.
   */
  method DeleteAdmin(dm: DataManager, adminId: string) returns (r: Response<User>)
    requires dm.Valid()
    modifies dm
    ensures dm.Valid()
    ensures r.status == 200 || r.status == 404
    ensures dm.SeedsUnchanged(old(dm.seedUsers), old(dm.seedTransactions), old(dm.seedWallets))
    ensures (forall i :: 0 <= i < |old(dm.GetUsers())| ==> !(old(dm.GetUsers())[i].id == adminId && old(dm.GetUsers())[i].role == Admin)) ==>
      r == Fail(404, "Admin not found") && dm.storage == old(dm.storage)
    ensures (exists i :: 0 <= i < |old(dm.GetUsers())| && old(dm.GetUsers())[i].id == adminId && old(dm.GetUsers())[i].role == Admin) ==>
      && r == Ok("Admin removed successfully", None)
      && dm.storage == old(dm.storage)[UsersKey := UserTable(Filter(old(dm.GetUsers()), HasOtherId(adminId)))]
  {
    var users := dm.GetUsers();
    var adminToRemove := Find(users, IsAdminWithId(adminId));
    if adminToRemove.None? {
      return Fail(404, "Admin not found");
    }
    var removed := dm.RemoveUser(adminId);
    r := if removed then Ok("Admin removed successfully", None) else Fail(500, "Failed to remove admin");
  }

  /** After a removal no user carries the id, and every other user is still there. */
  lemma RemovalLeavesOthers(users: seq<User>, adminId: string)
    ensures forall k :: 0 <= k < |Filter(users, HasOtherId(adminId))| ==> Filter(users, HasOtherId(adminId))[k].id != adminId
    ensures forall u :: u in users && u.id != adminId ==> u in Filter(users, HasOtherId(adminId))
  {
    FilterMultiset(users, HasOtherId(adminId));
    forall u | u in users && u.id != adminId ensures u in Filter(users, HasOtherId(adminId)) {
      assert u in multiset(users);
    }
  }
}
