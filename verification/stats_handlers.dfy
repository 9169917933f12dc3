/**
 * The mock statistics endpoint (src/mocks/handlers/stats.ts): read-only
 * counts and a completed-amount total over the stored users and
 * transactions.
 */
module StatsHandlers {
  import opened Types
  import opened Lists
  import opened DataManagement

  /** What GET /api/stats reports. */
  datatype SystemStats = SystemStats(totalPayments: int, activeUsers: nat, totalUsers: nat, totalAdmins: nat)

  function IsActiveMerchant(u: User): bool { u.status == Active && u.role == Merchant }

  /** The reference total: the amounts of completed transactions, added up one at a time. */
  function CompletedPayments(transactions: seq<Transaction>): int
    decreases |transactions|
  {
    if |transactions| == 0 then 0
    else (if transactions[0].status == Completed then transactions[0].amount else 0) + CompletedPayments(transactions[1..])
  }

  /** Filtering the completed transactions and summing their amounts gives the reference total. */
  lemma {:induction false} SummedPaymentsMatchReference(transactions: seq<Transaction>)
    ensures Sum(Filter(transactions, IsCompleted), Amount) == CompletedPayments(transactions)
    decreases |transactions|
  {
    if |transactions| > 0 {
      var t := transactions[0];
      var rest := transactions[1..];
      SummedPaymentsMatchReference(rest);
      assert transactions == [t] + rest;
      FilterAppend([t], rest, IsCompleted);
      SumAppend(Filter([t], IsCompleted), Filter(rest, IsCompleted), Amount);
    }
  }

  /**
   * GET /api/stats. `totalUsers` counts role "user" only and `totalAdmins`
   * role "admin" only, so the super admin is in neither; `activeUsers` are
   * the active ones among `totalUsers`; `totalPayments` adds the amounts of
   * completed transactions only.
   */
  function GetSystemStats(users: seq<User>, transactions: seq<Transaction>): (r: Response<SystemStats>)
    ensures r.status == 200 && r.success && r.message == "System statistics retrieved" && r.data.Some?
    ensures r.data.value.totalUsers == |Filter(users, HasRole(Merchant))|
    ensures r.data.value.totalAdmins == |Filter(users, HasRole(Admin))|
    ensures r.data.value.activeUsers == |Filter(users, IsActiveMerchant)|
    ensures r.data.value.totalPayments == CompletedPayments(transactions)
    ensures r.data.value.activeUsers <= r.data.value.totalUsers
    ensures r.data.value.totalUsers + r.data.value.totalAdmins + |Filter(users, HasRole(SuperAdmin))| == |users|
  {
    var completedTransactions := Filter(transactions, IsCompleted);
    var totalPayments := Sum(completedTransactions, Amount);
    FilterSubsumed(users, IsActiveMerchant, HasRole(Merchant));
    RolesPartition(users);
    SummedPaymentsMatchReference(transactions);
    var stats := SystemStats(
      totalPayments,
      |Filter(users, IsActiveMerchant)|,
      |Filter(users, HasRole(Merchant))|,
      |Filter(users, HasRole(Admin))|);
    Ok("System statistics retrieved", Some(stats))
  }

  /** Every user has exactly one of the three roles. */
  lemma {:induction false} RolesPartition(users: seq<User>)
    ensures |Filter(users, HasRole(Merchant))| + |Filter(users, HasRole(Admin))| + |Filter(users, HasRole(SuperAdmin))| == |users|
    decreases |users|
  {
    if |users| > 0 {
      RolesPartition(users[1..]);
    }
  }

  /**
   * Recording a transaction adds its amount to `totalPayments` exactly when
   * it completed; a pending or failed one leaves the total as it was.
   */
  lemma PaymentsAfterAppend(users: seq<User>, transactions: seq<Transaction>, t: Transaction)
    ensures GetSystemStats(users, transactions + [t]).data.value.totalPayments ==
      GetSystemStats(users, transactions).data.value.totalPayments + (if t.status == Completed then t.amount else 0)
    ensures GetSystemStats(users, transactions + [t]).data.value.activeUsers == GetSystemStats(users, transactions).data.value.activeUsers
  {
    FilterAppend(transactions, [t], IsCompleted);
    SumAppend(Filter(transactions, IsCompleted), Filter([t], IsCompleted), Amount);
  }

  /** The stats endpoint never counts more active merchants than the data store counts active users. */
  lemma ActiveMerchantsWithinActiveUsers(users: seq<User>, transactions: seq<Transaction>)
    ensures GetSystemStats(users, transactions).data.value.activeUsers <= |Filter(users, IsActive)|
  {
    FilterSubsumed(users, IsActiveMerchant, IsActive);
  }
}
