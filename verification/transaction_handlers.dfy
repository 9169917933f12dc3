/**
 * The mock transaction endpoints (src/mocks/handlers/transactions.ts): the
 * per-user listing, newest first, and the creation of a transaction together
 * with the wallet update it triggers. The random success draw, `Date.now()`,
 * the random id suffix and the clock are parameters.
 */
module TransactionHandlers {
  import opened Types
  import opened Storage
  import opened Lists
  import opened DataManagement
  import MockData

  /** Non-increasing `createdAt`: every transaction is at least as recent as those after it. */
  ghost predicate NewestFirst(s: seq<Transaction>) {
    forall i, j :: 0 <= i < j < |s| ==> s[i].createdAt >= s[j].createdAt
  }

  /**
   * Places `t` in front of the first transaction that is not more recent
   * than it, so among equal times the one inserted first stays first.
   */
  function InsertNewestFirst(t: Transaction, s: seq<Transaction>): seq<Transaction>
    decreases |s|
  {
    if |s| == 0 || s[0].createdAt <= t.createdAt then [t] + s
    else [s[0]] + InsertNewestFirst(t, s[1..])
  }

  /** The comparator `b.createdAt - a.createdAt`, as an insertion sort. */
  function SortNewestFirst(s: seq<Transaction>): seq<Transaction>
    decreases |s|
  {
    if |s| == 0 then [] else InsertNewestFirst(s[0], SortNewestFirst(s[1..]))
  }

  lemma {:induction false} InsertNewestFirstMultiset(t: Transaction, s: seq<Transaction>)
    ensures multiset(InsertNewestFirst(t, s)) == multiset(s) + multiset{t}
    decreases |s|
  {
    if |s| > 0 && s[0].createdAt > t.createdAt {
      InsertNewestFirstMultiset(t, s[1..]);
      assert s == [s[0]] + s[1..];
    }
  }

  /** Inserting below a bound keeps every time below it. */
  lemma {:induction false} InsertNewestFirstBounded(t: Transaction, s: seq<Transaction>, bound: int)
    requires t.createdAt <= bound && forall i :: 0 <= i < |s| ==> s[i].createdAt <= bound
    ensures forall i :: 0 <= i < |InsertNewestFirst(t, s)| ==> InsertNewestFirst(t, s)[i].createdAt <= bound
    decreases |s|
  {
    if |s| > 0 && s[0].createdAt > t.createdAt {
      InsertNewestFirstBounded(t, s[1..], bound);
    }
  }

  lemma {:induction false} InsertNewestFirstSorted(t: Transaction, s: seq<Transaction>)
    requires NewestFirst(s)
    ensures NewestFirst(InsertNewestFirst(t, s))
    decreases |s|
  {
    var r := InsertNewestFirst(t, s);
    if |s| == 0 || s[0].createdAt <= t.createdAt {
      forall i, j | 0 <= i < j < |r| ensures r[i].createdAt >= r[j].createdAt {
        if i > 0 {
          assert r[i] == s[i - 1];
        }
        assert r[j] == s[j - 1];
      }
    } else {
      var tail := InsertNewestFirst(t, s[1..]);
      InsertNewestFirstSorted(t, s[1..]);
      InsertNewestFirstBounded(t, s[1..], s[0].createdAt);
      forall i, j | 0 <= i < j < |r| ensures r[i].createdAt >= r[j].createdAt {
        assert r[j] == tail[j - 1];
        if i > 0 {
          assert r[i] == tail[i - 1];
        }
      }
    }
  }

  /** The sort keeps every transaction as often as it occurs and orders them newest first. */
  lemma {:induction false} SortNewestFirstSpec(s: seq<Transaction>)
    ensures multiset(SortNewestFirst(s)) == multiset(s)
    ensures NewestFirst(SortNewestFirst(s))
    decreases |s|
  {
    if |s| > 0 {
      SortNewestFirstSpec(s[1..]);
      InsertNewestFirstMultiset(s[0], SortNewestFirst(s[1..]));
      InsertNewestFirstSorted(s[0], SortNewestFirst(s[1..]));
      assert s == [s[0]] + s[1..];
    }
  }

  /**
   * GET /api/transactions/:userId: always a success, holding exactly the
   * user's stored transactions (each as often as it is stored), newest first.
   */
  function ListTransactions(transactions: seq<Transaction>, userId: string): (r: Response<seq<Transaction>>)
    ensures r.status == 200 && r.success && r.message == "Transactions retrieved" && r.data.Some?
    ensures NewestFirst(r.data.value)
    ensures forall i :: 0 <= i < |r.data.value| ==> r.data.value[i].userId == userId
    ensures forall t :: multiset(r.data.value)[t] == if t.userId == userId then multiset(transactions)[t] else 0
  {
    var mine := Filter(transactions, TransactionOf(userId));
    SortNewestFirstSpec(mine);
    FilterMultiset(transactions, TransactionOf(userId));
    var sorted := SortNewestFirst(mine);
    assert forall i :: 0 <= i < |sorted| ==> sorted[i] in multiset(mine);
    Ok("Transactions retrieved", Some(sorted))
  }

  /** The body of POST /api/transactions; the owner travels with it. */
  datatype TransactionRequest = TransactionRequest(userId: string, kind: TransactionType, amount: int, description: string)

  /** `status` as the response message spells it. */
  function StatusName(status: TransactionStatus): string {
    match status
    case Completed => "completed"
    case Pending => "pending"
    case Failed => "failed"
  }

  /**
   * The runtime balance rule: a deposit adds its amount; a withdrawal or a
   * payment subtracts it, and a result below zero becomes zero.
   */
  function BalanceAfter(kind: TransactionType, balance: int, amount: int): int {
    if kind == Deposit then balance + amount
    else if balance - amount < 0 then 0
    else balance - amount
  }

  /** A deposit adds exactly its amount; a debit leaves max(0, balance - amount), never a negative balance. */
  lemma BalanceAfterCases(kind: TransactionType, balance: int, amount: int)
    ensures kind == Deposit ==> BalanceAfter(kind, balance, amount) - balance == amount
    ensures kind != Deposit ==> BalanceAfter(kind, balance, amount) >= 0
    ensures kind != Deposit ==> BalanceAfter(kind, balance, amount) >= balance - amount
    ensures kind != Deposit && balance >= amount ==> BalanceAfter(kind, balance, amount) == balance - amount
    ensures kind != Deposit && balance < amount ==> BalanceAfter(kind, balance, amount) == 0
  {
  }

  /** The transaction POST creates, before it is stored. */
  function NewTransaction(request: TransactionRequest, isSuccessful: bool, stamp: string, suffix: string, now: int): Transaction {
    Transaction(
      "txn_" + stamp + "_" + suffix, request.userId, request.kind, request.amount, request.description,
      if isSuccessful then Completed else Failed, now)
  }

  /**
   * POST /api/transactions. The transaction is always recorded, completed
   * or failed as `isSuccessful` says. A completed one then moves the
   * balance of the first wallet of its owner by `BalanceAfter`; a failed
   * one, or an owner without a wallet, leaves the wallets as they were.
   */
  method PostTransaction(dm: DataManager, request: TransactionRequest, isSuccessful: bool, stamp: string, suffix: string, now: int)
    returns (r: Response<Transaction>)
    requires dm.Valid()
    modifies dm
    ensures dm.Valid()
    ensures var t := NewTransaction(request, isSuccessful, stamp, suffix, now);
      && r == Ok("Transaction " + StatusName(t.status), Some(t))
      && dm.GetTransactions() == old(dm.GetTransactions()) + [t]
      && dm.seedUsers == old(dm.seedUsers)
      && dm.seedTransactions == if TransactionsKey in old(dm.storage) then old(dm.seedTransactions) else dm.GetTransactions()
    ensures var t := NewTransaction(request, isSuccessful, stamp, suffix, now);
      var recorded := old(dm.storage)[TransactionsKey := TransactionTable(old(dm.GetTransactions()) + [t])];
      var wallets := old(dm.GetWallets());
      var index := FindIndex(wallets, OwnedBy(request.userId));
      if isSuccessful && index.Some? then
        var w := wallets[index.value];
        && dm.storage == recorded[WalletsKey := WalletTable(wallets[index.value := w.(balance := BalanceAfter(request.kind, w.balance, request.amount))])]
        && dm.seedWallets == if WalletsKey in old(dm.storage) then old(dm.seedWallets) else dm.GetWallets()
      else
        dm.storage == recorded && dm.seedWallets == old(dm.seedWallets)
  {
    var status := if isSuccessful then Completed else Failed;
    var newTransaction := Transaction(
      "txn_" + stamp + "_" + suffix, request.userId, request.kind, request.amount, request.description, status, now);
    dm.AddTransaction(newTransaction);
    if status == Completed {
      var wallets := dm.GetWallets();
      var userWallet := Find(wallets, OwnedBy(request.userId));
      if userWallet.Some? {
        var newBalance := userWallet.value.balance;
        if request.kind == Deposit {
          newBalance := newBalance + request.amount;
        } else if request.kind == Withdrawal || request.kind == Payment {
          newBalance := newBalance - request.amount;
          if newBalance < 0 {
            newBalance := 0;
          }
        }
        var updated := dm.UpdateWallet(request.userId, BalancePatch(newBalance));
        BalancePatchChangesOnlyBalance(userWallet.value, newBalance);
      }
    }
    r := Ok("Transaction " + StatusName(status), Some(newTransaction));
  }

  /**
   * The balance the runtime rule gives when `transactions` are replayed in
   * order from `balance`: only the user's completed transactions move it.
   */
  function CompletedReplay(transactions: seq<Transaction>, userId: string, balance: int): int
    decreases |transactions|
  {
    if |transactions| == 0 then balance
    else
      var t := transactions[0];
      var next := if t.userId == userId && t.status == Completed then BalanceAfter(t.kind, balance, t.amount) else balance;
      CompletedReplay(transactions[1..], userId, next)
  }

  lemma {:induction false} CompletedReplaySplits(a: seq<Transaction>, b: seq<Transaction>, userId: string, balance: int)
    ensures CompletedReplay(a + b, userId, balance) == CompletedReplay(b, userId, CompletedReplay(a, userId, balance))
    decreases |a|
  {
    if |a| == 0 {
      assert a + b == b;
    } else {
      assert (a + b)[1..] == a[1..] + b;
      var t := a[0];
      var next := if t.userId == userId && t.status == Completed then BalanceAfter(t.kind, balance, t.amount) else balance;
      CompletedReplaySplits(a[1..], b, userId, next);
    }
  }

  lemma {:induction false} OthersLeaveReplay(s: seq<Transaction>, userId: string, balance: int)
    requires forall i :: 0 <= i < |s| ==> s[i].userId != userId
    ensures CompletedReplay(s, userId, balance) == balance
    decreases |s|
  {
    if |s| > 0 {
      OthersLeaveReplay(s[1..], userId, balance);
    }
  }

  /**
   * The runtime rule and the rule the seeded balances follow disagree: a
   * pending debit is already deducted in the seed, but replaying user_001's
   * seeded transactions from zero under the runtime rule leaves 3550, not
   * the seeded 3050, because the pending 500 withdrawal does not count.
   */
  lemma RuntimeRuleDiffersFromSeedRule()
    ensures CompletedReplay(MockData.SeedTransactions, "user_001", 0) == 3550
    ensures MockData.SeedRuleBalance(MockData.SeedTransactions, "user_001") == MockData.SeedWallets[0].balance == 3050
  {
    var rest := MockData.User002Transactions + MockData.User003Transactions + MockData.User004Transactions + MockData.User005Transactions;
    assert MockData.SeedTransactions == MockData.User001Transactions + rest;
    CompletedReplaySplits(MockData.User001Transactions, rest, "user_001", 0);
    assert CompletedReplay(MockData.User001Transactions, "user_001", 0) == 3550;
    MockData.GroupOwners();
    OthersLeaveReplay(rest, "user_001", 3550);
    MockData.SeedRuleUser001();
  }
}
