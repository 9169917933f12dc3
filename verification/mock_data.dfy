/**
 * The seed tables of the mock backend (src/mocks/data/users.ts,
 * src/mocks/data/transactions.ts, src/mocks/data/wallets.ts) and the rule
 * by which the seeded wallet balances were derived from the seeded
 * transactions. Timestamps are yyyymmddhhmmssSSS integers: the instant to
 * the millisecond, ordered as the ISO strings they stand for.
 */
module MockData {
  import opened Types
  import opened Lists

  const SeedPassword: string := "12345678"

  function Account(id: string, email: string, first: string, last: string, role: Role, status: UserStatus, at: int): User {
    User(id, email, first, last, None, None, role, status, at, SeedPassword)
  }

  const SeedUsers: seq<User> := [
    Account("super_001", "superadmin@chapa.co", "Abebe", "Kebede", SuperAdmin, Active, 20240101000000000),
    Account("admin_001", "admin1@chapa.co", "Almaz", "Tesfaye", Admin, Active, 20240105103000000),
    Account("admin_002", "admin2@chapa.co", "Dawit", "Haile", Admin, Active, 20240110142000000),
    Account("user_001", "merchant1@gmail.com", "Hanan", "Mohammed", Merchant, Active, 20240115091500000),
    Account("user_002", "merchant2@gmail.com", "Kalkidan", "Assefa", Merchant, Active, 20240118164500000),
    Account("user_003", "merchant3@gmail.com", "Bereket", "Girma", Merchant, Inactive, 20240120113000000),
    Account("user_004", "merchant4@gmail.com", "Tigist", "Wondimu", Merchant, Active, 20240122131000000),
    Account("user_005", "merchant5@gmail.com", "Yohannes", "Tadesse", Merchant, Active, 20240125082000000)
  ]

  /** The seeded transactions, grouped by owner as the seed file groups them. */
  const SeedTransactions: seq<Transaction> :=
    User001Transactions + User002Transactions + User003Transactions + User004Transactions + User005Transactions

  const User001Transactions: seq<Transaction> := [
    Transaction("tx_001", "user_001", Deposit, 5000, "Initial wallet deposit", Completed, 20240115100000000),
    Transaction("tx_002", "user_001", Payment, 250, "Payment to Coffee Shop", Completed, 20240116143000000),
    Transaction("tx_003", "user_001", Payment, 1200, "Online shopping payment", Completed, 20240118091500000),
    Transaction("tx_004", "user_001", Withdrawal, 500, "Withdraw to bank account", Pending, 20240128162000000)
  ]

  const User002Transactions: seq<Transaction> := [
    Transaction("tx_005", "user_002", Deposit, 3000, "Business account deposit", Completed, 20240118110000000),
    Transaction("tx_006", "user_002", Payment, 800, "Supplier payment", Completed, 20240119134500000),
    Transaction("tx_007", "user_002", Payment, 150, "Utility bill payment", Failed, 20240120103000000)
  ]

  const User003Transactions: seq<Transaction> := [
    Transaction("tx_008", "user_003", Deposit, 1000, "Initial deposit", Completed, 20240120120000000)
  ]

  const User004Transactions: seq<Transaction> := [
    Transaction("tx_009", "user_004", Deposit, 7500, "Large business deposit", Completed, 20240122153000000),
    Transaction("tx_010", "user_004", Payment, 2000, "Rent payment", Completed, 20240123090000000),
    Transaction("tx_011", "user_004", Payment, 300, "Restaurant payment", Completed, 20240124191500000),
    Transaction("tx_012", "user_004", Withdrawal, 1000, "Cash withdrawal", Completed, 20240126114500000)
  ]

  const User005Transactions: seq<Transaction> := [
    Transaction("tx_013", "user_005", Deposit, 2500, "Weekly business deposit", Completed, 20240125142000000),
    Transaction("tx_014", "user_005", Payment, 450, "Equipment purchase", Completed, 20240127163000000),
    Transaction("tx_015", "user_005", Payment, 180, "Service subscription", Pending, 20240128101000000)
  ]

  const SeedWallets: seq<Wallet> := [
    Wallet("user_001", 3050, "ETB"),
    Wallet("user_002", 2200, "ETB"),
    Wallet("user_003", 1000, "ETB"),
    Wallet("user_004", 4200, "ETB"),
    Wallet("user_005", 1870, "ETB")
  ]

  /** A deposit adds its amount, a withdrawal or a payment takes it away. */
  function SignedAmount(t: Transaction): int {
    if t.kind == Deposit then t.amount else -t.amount
  }

  /**
   * The rule the seed comments follow: a balance is the sum of the user's
   * non-failed deposits minus the non-failed withdrawals and payments, so a
   * pending withdrawal or payment is already deducted.
   */
  function SeedRuleBalance(txs: seq<Transaction>, userId: string): int
    decreases |txs|
  {
    if |txs| == 0 then 0
    else
      var t := txs[0];
      (if t.userId == userId && t.status != Failed then SignedAmount(t) else 0) + SeedRuleBalance(txs[1..], userId)
  }

  lemma {:induction false} SeedRuleSplits(a: seq<Transaction>, b: seq<Transaction>, userId: string)
    ensures SeedRuleBalance(a + b, userId) == SeedRuleBalance(a, userId) + SeedRuleBalance(b, userId)
    decreases |a|
  {
    if |a| == 0 {
      assert a + b == b;
    } else {
      assert (a + b)[1..] == a[1..] + b;
      SeedRuleSplits(a[1..], b, userId);
    }
  }

  /** The seed rule over all seeded transactions is the sum over the five owner groups. */
  lemma SeedRuleByGroup(userId: string)
    ensures SeedRuleBalance(SeedTransactions, userId) ==
      SeedRuleBalance(User001Transactions, userId) + SeedRuleBalance(User002Transactions, userId) +
      SeedRuleBalance(User003Transactions, userId) + SeedRuleBalance(User004Transactions, userId) +
      SeedRuleBalance(User005Transactions, userId)
  {
    var g12 := User001Transactions + User002Transactions;
    var g123 := g12 + User003Transactions;
    var g1234 := g123 + User004Transactions;
    SeedRuleSplits(User001Transactions, User002Transactions, userId);
    SeedRuleSplits(g12, User003Transactions, userId);
    SeedRuleSplits(g123, User004Transactions, userId);
    SeedRuleSplits(g1234, User005Transactions, userId);
  }

  /** Transactions that all belong to someone else add nothing to a balance. */
  lemma {:induction false} OthersCountZero(s: seq<Transaction>, userId: string)
    requires forall i :: 0 <= i < |s| ==> s[i].userId != userId
    ensures SeedRuleBalance(s, userId) == 0
    decreases |s|
  {
    if |s| > 0 {
      OthersCountZero(s[1..], userId);
    }
  }

  /** Each owner group holds transactions of its owner only. */
  lemma GroupOwners()
    ensures forall i :: 0 <= i < |User001Transactions| ==> User001Transactions[i].userId == "user_001"
    ensures forall i :: 0 <= i < |User002Transactions| ==> User002Transactions[i].userId == "user_002"
    ensures forall i :: 0 <= i < |User003Transactions| ==> User003Transactions[i].userId == "user_003"
    ensures forall i :: 0 <= i < |User004Transactions| ==> User004Transactions[i].userId == "user_004"
    ensures forall i :: 0 <= i < |User005Transactions| ==> User005Transactions[i].userId == "user_005"
  {
  }

  lemma SeedRuleUser001()
    ensures SeedRuleBalance(SeedTransactions, "user_001") == 5000 - 250 - 1200 - 500
  {
    SeedRuleByGroup("user_001");
    GroupOwners();
    assert SeedRuleBalance(User001Transactions, "user_001") == 3050;
    OthersCountZero(User002Transactions, "user_001");
    OthersCountZero(User003Transactions, "user_001");
    OthersCountZero(User004Transactions, "user_001");
    OthersCountZero(User005Transactions, "user_001");
  }

  lemma SeedRuleUser002()
    ensures SeedRuleBalance(SeedTransactions, "user_002") == 3000 - 800
  {
    SeedRuleByGroup("user_002");
    GroupOwners();
    OthersCountZero(User001Transactions, "user_002");
    assert SeedRuleBalance(User002Transactions, "user_002") == 2200;
    OthersCountZero(User003Transactions, "user_002");
    OthersCountZero(User004Transactions, "user_002");
    OthersCountZero(User005Transactions, "user_002");
  }

  lemma SeedRuleUser003()
    ensures SeedRuleBalance(SeedTransactions, "user_003") == 1000
  {
    SeedRuleByGroup("user_003");
    GroupOwners();
    OthersCountZero(User001Transactions, "user_003");
    OthersCountZero(User002Transactions, "user_003");
    assert SeedRuleBalance(User003Transactions, "user_003") == 1000;
    OthersCountZero(User004Transactions, "user_003");
    OthersCountZero(User005Transactions, "user_003");
  }

  lemma SeedRuleUser004()
    ensures SeedRuleBalance(SeedTransactions, "user_004") == 7500 - 2000 - 300 - 1000
  {
    SeedRuleByGroup("user_004");
    GroupOwners();
    OthersCountZero(User001Transactions, "user_004");
    OthersCountZero(User002Transactions, "user_004");
    OthersCountZero(User003Transactions, "user_004");
    assert SeedRuleBalance(User004Transactions, "user_004") == 4200;
    OthersCountZero(User005Transactions, "user_004");
  }

  lemma SeedRuleUser005()
    ensures SeedRuleBalance(SeedTransactions, "user_005") == 2500 - 450 - 180
  {
    SeedRuleByGroup("user_005");
    GroupOwners();
    OthersCountZero(User001Transactions, "user_005");
    OthersCountZero(User002Transactions, "user_005");
    OthersCountZero(User003Transactions, "user_005");
    OthersCountZero(User004Transactions, "user_005");
    assert SeedRuleBalance(User005Transactions, "user_005") == 1870;
  }

  /** Every seeded balance is the seed rule applied to the seeded transactions. */
  lemma SeedBalancesFollowSeedRule()
    ensures forall i :: 0 <= i < |SeedWallets| ==>
      SeedWallets[i].balance == SeedRuleBalance(SeedTransactions, SeedWallets[i].userId)
  {
    SeedRuleUser001();
    SeedRuleUser002();
    SeedRuleUser003();
    SeedRuleUser004();
    SeedRuleUser005();
  }

  /** The failed utility payment of user_002 is not deducted; the pending ones of user_001 and user_005 are. */
  lemma SeedRuleExcludesFailedOnly()
    ensures SeedWallets[1].balance == 3000 - 800 == SeedRuleBalance(SeedTransactions, "user_002")
    ensures SeedWallets[0].balance == 5000 - 250 - 1200 - 500
    ensures SeedWallets[4].balance == 2500 - 450 - 180
  {
    SeedBalancesFollowSeedRule();
  }

  function OwnerOf(w: Wallet): string { w.userId }

  function IdOf(u: User): string { u.id }

  /**
   * The wallets belong, one each and in the same order, to the seeded users
   * with role "user"; admins and the super admin have none. Every wallet is
   * in ETB and holds a non-negative balance.
   */
  lemma SeedWalletsOnePerMerchant()
    ensures Map(SeedWallets, OwnerOf) == Map(Filter(SeedUsers, HasRole(Merchant)), IdOf)
    ensures forall i :: 0 <= i < |SeedWallets| ==> SeedWallets[i].currency == "ETB" && SeedWallets[i].balance >= 0
  {
    assert Filter(SeedUsers, HasRole(Merchant)) == SeedUsers[3..];
  }
}
