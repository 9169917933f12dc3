/**
 * The persistent store behind the mock backend (src/mocks/data/dataManager.ts):
 * three tables (users, transactions, wallets) and an "initialized" flag kept
 * under four localStorage keys, each table falling back to its seed array when
 * its key is absent. The getters hand out the seed arrays themselves, so a
 * write that pushes into or assigns into the array a getter returned changes
 * the seed whenever the key was absent; the class keeps the three seed
 * arrays as fields for that reason. Only the browser path is modelled.
 */
module DataManagement {
  import opened Types
  import opened Storage
  import opened Lists
  import MockData

  const UsersKey: string := "chapa_mock_users"
  const TransactionsKey: string := "chapa_mock_transactions"
  const WalletsKey: string := "chapa_mock_wallets"
  const InitializedKey: string := "chapa_mock_initialized"

  /** `Object.values(STORAGE_KEYS)`, in declaration order. */
  const StorageKeys: seq<string> := [UsersKey, TransactionsKey, WalletsKey, InitializedKey]

  /** Each key of the store holds the kind of value the store writes under it. */
  ghost predicate WellTyped(storage: LocalStorage) {
    && (UsersKey in storage ==> storage[UsersKey].UserTable?)
    && (TransactionsKey in storage ==> storage[TransactionsKey].TransactionTable?)
    && (WalletsKey in storage ==> storage[WalletsKey].WalletTable?)
    && (InitializedKey in storage ==> storage[InitializedKey].Text?)
  }

  /** `Partial<User>`: the fields an update overwrites. */
  datatype UserPatch = UserPatch(
    id: Option<string>,
    email: Option<string>,
    firstName: Option<string>,
    lastName: Option<string>,
    phone: Option<Option<string>>,
    city: Option<Option<string>>,
    role: Option<Role>,
    status: Option<UserStatus>,
    createdAt: Option<int>,
    password: Option<string>)

  /** `Partial<Transaction>`. */
  datatype TransactionPatch = TransactionPatch(
    id: Option<string>,
    userId: Option<string>,
    kind: Option<TransactionType>,
    amount: Option<int>,
    description: Option<string>,
    status: Option<TransactionStatus>,
    createdAt: Option<int>)

  /** `Partial<Wallet>`. */
  datatype WalletPatch = WalletPatch(userId: Option<string>, balance: Option<int>, currency: Option<string>)

  /** `{ status }`, the only user update the endpoints send. */
  function StatusPatch(status: UserStatus): UserPatch {
    UserPatch(None, None, None, None, None, None, None, Some(status), None, None)
  }

  /** `{ balance }`, the only wallet update the endpoints send. */
  function BalancePatch(balance: int): WalletPatch {
    WalletPatch(None, Some(balance), None)
  }

  /** `{ ...u, ...patch }`: a field given in the patch wins. */
  function MergeUser(u: User, patch: UserPatch): User {
    User(
      patch.id.GetOr(u.id), patch.email.GetOr(u.email), patch.firstName.GetOr(u.firstName),
      patch.lastName.GetOr(u.lastName), patch.phone.GetOr(u.phone), patch.city.GetOr(u.city),
      patch.role.GetOr(u.role), patch.status.GetOr(u.status), patch.createdAt.GetOr(u.createdAt),
      patch.password.GetOr(u.password))
  }

  function MergeTransaction(t: Transaction, patch: TransactionPatch): Transaction {
    Transaction(
      patch.id.GetOr(t.id), patch.userId.GetOr(t.userId), patch.kind.GetOr(t.kind),
      patch.amount.GetOr(t.amount), patch.description.GetOr(t.description),
      patch.status.GetOr(t.status), patch.createdAt.GetOr(t.createdAt))
  }

  function MergeWallet(w: Wallet, patch: WalletPatch): Wallet {
    Wallet(patch.userId.GetOr(w.userId), patch.balance.GetOr(w.balance), patch.currency.GetOr(w.currency))
  }

  /** A status-only update changes the status and nothing else. */
  lemma StatusPatchChangesOnlyStatus(u: User, status: UserStatus)
    ensures MergeUser(u, StatusPatch(status)) == u.(status := status)
  {
  }

  /** A balance-only update changes the balance and nothing else. */
  lemma BalancePatchChangesOnlyBalance(w: Wallet, balance: int)
    ensures MergeWallet(w, BalancePatch(balance)) == w.(balance := balance)
  {
  }

  function HasId(id: string): User -> bool {
    (u: User) => u.id == id
  }

  function HasOtherId(id: string): User -> bool {
    (u: User) => u.id != id
  }

  function HasTransactionId(id: string): Transaction -> bool {
    (t: Transaction) => t.id == id
  }

  function OwnedBy(userId: string): Wallet -> bool {
    (w: Wallet) => w.userId == userId
  }

  function IsActive(u: User): bool { u.status == Active }

  function IsCompleted(t: Transaction): bool { t.status == Completed }

  function TransactionOf(userId: string): Transaction -> bool {
    (t: Transaction) => t.userId == userId
  }

  function Amount(t: Transaction): int { t.amount }

  /** What `getStats` reports. */
  datatype DataStats = DataStats(
    totalUsers: nat,
    activeUsers: nat,
    totalTransactions: nat,
    completedTransactions: nat,
    totalWallets: nat)

  class DataManager {
    /** The browser's localStorage, shared with the rest of the page. */
    var storage: LocalStorage
    /** The module-level seed arrays, which start as the seed tables and are shared with the getters. */
    var seedUsers: seq<User>
    var seedTransactions: seq<Transaction>
    var seedWallets: seq<Wallet>

    ghost predicate Valid()
      reads this
    {
      WellTyped(storage)
    }

    constructor (existing: LocalStorage)
      requires WellTyped(existing)
      ensures Valid() && storage == existing
      ensures seedUsers == MockData.SeedUsers && seedTransactions == MockData.SeedTransactions
      ensures seedWallets == MockData.SeedWallets
    {
      storage := existing;
      seedUsers := MockData.SeedUsers;
      seedTransactions := MockData.SeedTransactions;
      seedWallets := MockData.SeedWallets;
    }

    /** None of the three seed arrays has changed from the given tables. */
    ghost predicate SeedsUnchanged(users: seq<User>, transactions: seq<Transaction>, wallets: seq<Wallet>)
      reads this
    {
      seedUsers == users && seedTransactions == transactions && seedWallets == wallets
    }

    /** `!localStorage.getItem(INITIALIZED)` is false: the flag is present and not empty. */
    function IsInitialized(): bool
      reads this
      requires Valid()
    {
      InitializedKey in storage && storage[InitializedKey].text != ""
    }

    function GetUsers(): seq<User>
      reads this
      requires Valid()
    {
      if UsersKey in storage then storage[UsersKey].users else seedUsers
    }

    function GetTransactions(): seq<Transaction>
      reads this
      requires Valid()
    {
      if TransactionsKey in storage then storage[TransactionsKey].transactions else seedTransactions
    }

    function GetWallets(): seq<Wallet>
      reads this
      requires Valid()
    {
      if WalletsKey in storage then storage[WalletsKey].wallets else seedWallets
    }

    /**
     * On first run stores the seed arrays as they now stand and sets the
     * flag; once the flag is set, changes nothing.
     */
    method InitializeData()
      requires Valid()
      modifies this
      ensures Valid() && IsInitialized() && SeedsUnchanged(old(seedUsers), old(seedTransactions), old(seedWallets))
      ensures old(IsInitialized()) ==> storage == old(storage)
      ensures !old(IsInitialized()) ==> storage == old(storage)
        [UsersKey := UserTable(seedUsers)]
        [TransactionsKey := TransactionTable(seedTransactions)]
        [WalletsKey := WalletTable(seedWallets)]
        [InitializedKey := Text("true")]
      ensures old(UsersKey !in storage && TransactionsKey !in storage && WalletsKey !in storage) ==>
        GetUsers() == old(GetUsers()) && GetTransactions() == old(GetTransactions()) && GetWallets() == old(GetWallets())
    {
      if !IsInitialized() {
        SetUsers(seedUsers);
        SetTransactions(seedTransactions);
        SetWallets(seedWallets);
        storage := storage[InitializedKey := Text("true")];
      }
    }

    method SetUsers(users: seq<User>)
      requires Valid()
      modifies this
      ensures Valid() && GetUsers() == users
      ensures storage == old(storage)[UsersKey := UserTable(users)]
      ensures SeedsUnchanged(old(seedUsers), old(seedTransactions), old(seedWallets))
    {
      storage := storage[UsersKey := UserTable(users)];
    }

    /**
     * Replaces the first user with `userId` by that user merged with
     * `updates` and returns the merged record; with no such user, returns
     * None and writes nothing.
     */
    method UpdateUser(userId: string, updates: UserPatch) returns (r: Option<User>)
      requires Valid()
      modifies this
      ensures Valid()
      ensures match FindIndex(old(GetUsers()), HasId(userId))
        case None => r == None && storage == old(storage) && SeedsUnchanged(old(seedUsers), old(seedTransactions), old(seedWallets))
        case Some(i) =>
          && r == Some(MergeUser(old(GetUsers())[i], updates))
          && storage == old(storage)[UsersKey := UserTable(old(GetUsers())[i := r.value])]
          && SeedsUnchanged(if UsersKey in old(storage) then old(seedUsers) else old(GetUsers())[i := r.value],
               old(seedTransactions), old(seedWallets))
    {
      var users := GetUsers();
      var index := FindIndex(users, HasId(userId));
      if index.None? {
        return None;
      }
      var merged := MergeUser(users[index.value], updates);
      users := users[index.value := merged];
      if UsersKey !in storage {
        seedUsers := users;
      }
      SetUsers(users);
      r := Some(merged);
    }

    /** Appends one user at the end; with the key absent, the push lands in the seed array too. */
    method AddUser(user: User)
      requires Valid()
      modifies this
      ensures Valid() && GetUsers() == old(GetUsers()) + [user]
      ensures storage == old(storage)[UsersKey := UserTable(old(GetUsers()) + [user])]
      ensures SeedsUnchanged(if UsersKey in old(storage) then old(seedUsers) else old(seedUsers) + [user],
        old(seedTransactions), old(seedWallets))
    {
      var users := GetUsers();
      users := users + [user];
      if UsersKey !in storage {
        seedUsers := users;
      }
      SetUsers(users);
    }

    /**
     * Removes every user with `userId`, keeping the others in order, and
     * returns true; when no user has that id, returns false and writes nothing.
     */
    method RemoveUser(userId: string) returns (removed: bool)
      requires Valid()
      modifies this
      ensures Valid()
      ensures removed <==> exists i :: 0 <= i < |old(GetUsers())| && old(GetUsers())[i].id == userId
      ensures removed ==> storage == old(storage)[UsersKey := UserTable(Filter(old(GetUsers()), HasOtherId(userId)))]
      ensures !removed ==> storage == old(storage)
      ensures SeedsUnchanged(old(seedUsers), old(seedTransactions), old(seedWallets))
    {
      var users := GetUsers();
      var filteredUsers := Filter(users, HasOtherId(userId));
      FilterKeepsAll(users, HasOtherId(userId));
      if |filteredUsers| == |users| {
        return false;
      }
      SetUsers(filteredUsers);
      removed := true;
    }

    method SetTransactions(transactions: seq<Transaction>)
      requires Valid()
      modifies this
      ensures Valid() && GetTransactions() == transactions
      ensures storage == old(storage)[TransactionsKey := TransactionTable(transactions)]
      ensures SeedsUnchanged(old(seedUsers), old(seedTransactions), old(seedWallets))
    {
      storage := storage[TransactionsKey := TransactionTable(transactions)];
    }

    /** Appends one transaction at the end; with the key absent, the push lands in the seed array too. */
    method AddTransaction(transaction: Transaction)
      requires Valid()
      modifies this
      ensures Valid() && GetTransactions() == old(GetTransactions()) + [transaction]
      ensures storage == old(storage)[TransactionsKey := TransactionTable(old(GetTransactions()) + [transaction])]
      ensures SeedsUnchanged(old(seedUsers),
        if TransactionsKey in old(storage) then old(seedTransactions) else old(seedTransactions) + [transaction],
        old(seedWallets))
    {
      var transactions := GetTransactions();
      transactions := transactions + [transaction];
      if TransactionsKey !in storage {
        seedTransactions := transactions;
      }
      SetTransactions(transactions);
    }

    /** The first-match merge of UpdateUser, for transactions by `id`. */
    method UpdateTransaction(transactionId: string, updates: TransactionPatch) returns (r: Option<Transaction>)
      requires Valid()
      modifies this
      ensures Valid()
      ensures match FindIndex(old(GetTransactions()), HasTransactionId(transactionId))
        case None => r == None && storage == old(storage) && SeedsUnchanged(old(seedUsers), old(seedTransactions), old(seedWallets))
        case Some(i) =>
          && r == Some(MergeTransaction(old(GetTransactions())[i], updates))
          && storage == old(storage)[TransactionsKey := TransactionTable(old(GetTransactions())[i := r.value])]
          && SeedsUnchanged(old(seedUsers),
               if TransactionsKey in old(storage) then old(seedTransactions) else old(GetTransactions())[i := r.value],
               old(seedWallets))
    {
      var transactions := GetTransactions();
      var index := FindIndex(transactions, HasTransactionId(transactionId));
      if index.None? {
        return None;
      }
      var merged := MergeTransaction(transactions[index.value], updates);
      transactions := transactions[index.value := merged];
      if TransactionsKey !in storage {
        seedTransactions := transactions;
      }
      SetTransactions(transactions);
      r := Some(merged);
    }

    method SetWallets(wallets: seq<Wallet>)
      requires Valid()
      modifies this
      ensures Valid() && GetWallets() == wallets
      ensures storage == old(storage)[WalletsKey := WalletTable(wallets)]
      ensures SeedsUnchanged(old(seedUsers), old(seedTransactions), old(seedWallets))
    {
      storage := storage[WalletsKey := WalletTable(wallets)];
    }

    /** Appends one wallet at the end; with the key absent, the push lands in the seed array too. */
    method AddWallet(wallet: Wallet)
      requires Valid()
      modifies this
      ensures Valid() && GetWallets() == old(GetWallets()) + [wallet]
      ensures storage == old(storage)[WalletsKey := WalletTable(old(GetWallets()) + [wallet])]
      ensures SeedsUnchanged(old(seedUsers), old(seedTransactions),
        if WalletsKey in old(storage) then old(seedWallets) else old(seedWallets) + [wallet])
    {
      var wallets := GetWallets();
      wallets := wallets + [wallet];
      if WalletsKey !in storage {
        seedWallets := wallets;
      }
      SetWallets(wallets);
    }

    /** The first-match merge of UpdateUser, for wallets by owner. */
    method UpdateWallet(userId: string, updates: WalletPatch) returns (r: Option<Wallet>)
      requires Valid()
      modifies this
      ensures Valid()
      ensures match FindIndex(old(GetWallets()), OwnedBy(userId))
        case None => r == None && storage == old(storage) && SeedsUnchanged(old(seedUsers), old(seedTransactions), old(seedWallets))
        case Some(i) =>
          && r == Some(MergeWallet(old(GetWallets())[i], updates))
          && storage == old(storage)[WalletsKey := WalletTable(old(GetWallets())[i := r.value])]
          && SeedsUnchanged(old(seedUsers), old(seedTransactions),
               if WalletsKey in old(storage) then old(seedWallets) else old(GetWallets())[i := r.value])
    {
      var wallets := GetWallets();
      var index := FindIndex(wallets, OwnedBy(userId));
      if index.None? {
        return None;
      }
      var merged := MergeWallet(wallets[index.value], updates);
      wallets := wallets[index.value := merged];
      if WalletsKey !in storage {
        seedWallets := wallets;
      }
      SetWallets(wallets);
      r := Some(merged);
    }

    /**
     * Removes the four keys of the store, one after the other; other keys
     * stay. The getters then hand out the seed arrays, as earlier writes left them.
     */
    method ClearAllData()
      requires Valid()
      modifies this
      ensures Valid() && !IsInitialized()
      ensures storage == old(storage) - {UsersKey, TransactionsKey, WalletsKey, InitializedKey}
      ensures SeedsUnchanged(old(seedUsers), old(seedTransactions), old(seedWallets))
      ensures GetUsers() == seedUsers && GetTransactions() == seedTransactions && GetWallets() == seedWallets
    {
      for k := 0 to |StorageKeys|
        invariant storage == old(storage) - (set key | key in StorageKeys[..k])
        invariant SeedsUnchanged(old(seedUsers), old(seedTransactions), old(seedWallets))
      {
        storage := storage - {StorageKeys[k]};
      }
      assert StorageKeys[..|StorageKeys|] == StorageKeys;
      assert (set key | key in StorageKeys) == {UsersKey, TransactionsKey, WalletsKey, InitializedKey};
    }

    /**
     * Clears the store, then initialises it: the seed arrays, as earlier
     * writes left them, are stored and the flag is set.
     */
    method ResetToDefaults()
      requires Valid()
      modifies this
      ensures Valid() && IsInitialized()
      ensures SeedsUnchanged(old(seedUsers), old(seedTransactions), old(seedWallets))
      ensures storage == (old(storage) - {UsersKey, TransactionsKey, WalletsKey, InitializedKey})
        [UsersKey := UserTable(old(seedUsers))]
        [TransactionsKey := TransactionTable(old(seedTransactions))]
        [WalletsKey := WalletTable(old(seedWallets))]
        [InitializedKey := Text("true")]
    {
      ClearAllData();
      InitializeData();
    }

    /** Each count is the length of the matching filter, so no part exceeds its whole. */
    function GetStats(): (stats: DataStats)
      reads this
      requires Valid()
      ensures stats.totalUsers == |GetUsers()| && stats.totalTransactions == |GetTransactions()|
      ensures stats.activeUsers == |Filter(GetUsers(), IsActive)|
      ensures stats.completedTransactions == |Filter(GetTransactions(), IsCompleted)|
      ensures stats.activeUsers <= stats.totalUsers
      ensures stats.completedTransactions <= stats.totalTransactions
      ensures stats.totalWallets == |GetWallets()|
    {
      var users := GetUsers();
      var transactions := GetTransactions();
      DataStats(
        |users|,
        |Filter(users, IsActive)|,
        |transactions|,
        |Filter(transactions, IsCompleted)|,
        |GetWallets()|)
    }
  }

  /**
   * A write into a cleared store reaches the seed array: a user added after
   * a clear is stored again by the next reset, after the seed users.
   */
  method ResetKeepsUserAddedAfterClear(dm: DataManager, u: User)
    requires dm.Valid()
    modifies dm
    ensures dm.Valid() && dm.IsInitialized()
    ensures dm.GetUsers() == old(dm.seedUsers) + [u]
    ensures dm.seedUsers == old(dm.seedUsers) + [u]
  {
    dm.ClearAllData();
    dm.AddUser(u);
    dm.ResetToDefaults();
  }
}
