/**
 * The mock wallet endpoint (src/mocks/handlers/wallet.ts): a read-only
 * lookup of a user's wallet with a not-found reply.
 */
module WalletHandlers {
  import opened Types
  import opened Lists
  import opened DataManagement
  import TransactionHandlers

  /**
   * GET /api/wallet/balance/:userId: the first wallet the user owns, or 404
   * exactly when the user owns none.
   */
  function WalletBalance(wallets: seq<Wallet>, userId: string): (r: Response<Wallet>)
    ensures r.success <==> exists i :: 0 <= i < |wallets| && wallets[i].userId == userId
    ensures !r.success ==> r == Fail(404, "Wallet not found")
    ensures r.success ==> r.status == 200 && r.message == "Wallet balance retrieved" && r.data.Some?
    ensures r.success ==> exists i ::
      && 0 <= i < |wallets| && wallets[i] == r.data.value && wallets[i].userId == userId
      && forall j :: 0 <= j < i ==> wallets[j].userId != userId
  {
    match Find(wallets, OwnedBy(userId))
    case None => Fail(404, "Wallet not found")
    case Some(wallet) => Ok("Wallet balance retrieved", Some(wallet))
  }

  /** Replacing an entry by one with the same owner keeps the first match where it was. */
  lemma {:induction false} SameOwnerKeepsFirstMatch(wallets: seq<Wallet>, i: nat, w: Wallet, userId: string)
    requires FindIndex(wallets, OwnedBy(userId)) == Some(i) && w.userId == userId
    ensures FindIndex(wallets[i := w], OwnedBy(userId)) == Some(i)
    decreases |wallets|
  {
    if i > 0 {
      SameOwnerKeepsFirstMatch(wallets[1..], i - 1, w, userId);
      assert wallets[i := w][1..] == wallets[1..][i - 1 := w];
    }
  }

  /**
   * After a completed transaction has moved a user's wallet, the balance
   * endpoint reports the moved balance: the old one plus a deposit, or
   * max(0, old - amount) after a debit.
   */
  lemma BalanceReflectsTransaction(wallets: seq<Wallet>, userId: string, kind: TransactionType, amount: int)
    requires exists i :: 0 <= i < |wallets| && wallets[i].userId == userId
    ensures var i := FindIndex(wallets, OwnedBy(userId)).value;
      var moved := wallets[i := wallets[i].(balance := TransactionHandlers.BalanceAfter(kind, wallets[i].balance, amount))];
      && WalletBalance(moved, userId).data == Some(moved[i])
      && WalletBalance(moved, userId).data.value.balance == TransactionHandlers.BalanceAfter(kind, WalletBalance(wallets, userId).data.value.balance, amount)
  {
    var i := FindIndex(wallets, OwnedBy(userId)).value;
    var w := wallets[i].(balance := TransactionHandlers.BalanceAfter(kind, wallets[i].balance, amount));
    SameOwnerKeepsFirstMatch(wallets, i, w, userId);
  }
}
