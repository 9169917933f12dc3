# Chapa payment dashboard: session store and mock backend in Dafny

The dashboard is a browser front end for merchants, admins and a super admin.
Its logic sits in two places.

- The **session store**, a zustand store with persistence. It holds the
  signed-in user, a token, `isAuthenticated`, `isLoading` and `hasHydrated`,
  and has the actions `login`, `logout`, `checkAuth`, `setLoading` and
  `setHasHydrated`. It persists a snapshot of three of those fields and reads
  it back when the page loads.
- The **in-browser mock backend**:
  - a `DataManager` that keeps three tables (users, transactions, wallets)
    and an "initialized" flag under four `localStorage` keys;
  - the request handlers built on it: login, logout and signup; the
    transaction list and POST; the user status update; payment summaries;
    admin creation and removal; system statistics; and the wallet lookup.
  - The seeded wallet balances are documented as derived from the seeded
    transactions.

A small locale switcher also rewrites the first path segment and remembers
the chosen locale.

Modules, one per source area:

| module | file | models |
|---|---|---|
| `Types`, `Storage` | `types.dfy` | record shapes; `localStorage` as a map from key to stored value |
| `Lists` | `lists.dfy` | `find`, `findIndex`, `filter`, summing `reduce` |
| `MockData` | `mock_data.dfy` | seed tables and the rule behind the seeded balances |
| `DataManagement` | `data_manager.dfy` | the `DataManager` class over its `storage` map |
| `AuthHandlers` | `auth_handlers.dfy` | login, logout, signup endpoints |
| `TransactionHandlers` | `transaction_handlers.dfy` | transaction list and POST, the balance rule |
| `UserHandlers` | `user_handlers.dfy` | status update, payment summaries, admin create/delete |
| `StatsHandlers` | `stats_handlers.dfy` | system statistics |
| `WalletHandlers` | `wallet_handlers.dfy` | wallet lookup |
| `Session` | `auth_store.dfy` | the `AuthStore` class, `partialize`, hydration |
| `LocaleSwitch` | `language_switcher.dfy` | `handleLocaleChange` |

Conventions of the model:
- Amounts are integers.
- Timestamps are integers written `yyyymmddhhmmssSSS`: the instant to the
  millisecond, as the ISO strings of `toISOString()` carry it, so they order
  like those instants. The seeds are written this way too.
- JSON stringify/parse is the identity, so a key holds the value last
  written to it.
- These become parameters of the operations: `Date.now()` (`stamp`), the
  random id suffix (`suffix`), `Math.random() > 0.1` (`isSuccessful`) and
  the clock (`createdAt`, `now`).

The handlers that only read are functions over the tables the getters
return. The handlers that write are methods on a `DataManager`. Each one
states its exact new `storage`.

Two balance rules appear in the code, and the model keeps them apart.
- **Seed rule** (`MockData.SeedRuleBalance`): the seeded balances subtract
  pending withdrawals and payments and skip failed ones.
- **Runtime rule** (`TransactionHandlers.BalanceAfter`): a new transaction
  moves a wallet only when it completed. A debit is clamped at zero.
- Replaying user_001's seeded transactions under the runtime rule gives 3550,
  not the seeded 3050 (`RuntimeRuleDiffersFromSeedRule`).

Three behaviours of the session store are easy to misread, and the model
keeps them as the code has them:
- **Failed login.** A rejected, inactive or thrown login leaves `user`,
  `token` and `isAuthenticated` as they were (src/stores/authStore.ts:49-63 and 75-80),
  and `Session.AuthStore.FinishLogin` does the same.
- **Failed rehydration.** When reading the persisted session back fails, the
  rehydration callback receives no state, so `state?.setHasHydrated(true)`
  does nothing (src/stores/authStore.ts:132-134). That case is
  `Session.Hydration.Failed`, and it leaves `hasHydrated` unchanged.
- **Stored snapshot.** A stored snapshot is merged into the state as read,
  whatever it holds, and `Rehydrate` does the same. The invariant
  `isAuthenticated ==> user and token present` is re-established only for
  a consistent snapshot.

The seed arrays are shared, not copied. While a table's key is absent, its
getter returns the module's seed array itself, and the add and update
operations push into or assign into that array before storing it
(src/mocks/data/dataManager.ts:41, 56, 65, 87, 101, 118, 132, 143, 155). A
later clear therefore falls back to the changed array, and a later reset
stores it. `DataManager` keeps the three seed arrays as the fields
`seedUsers`, `seedTransactions` and `seedWallets` for this reason.

## Model

| member | source | states |
|---|---|---|
| Types.ToPublic | src/mocks/handlers/auth.ts:39-44 | the client record drops only the password: putting the password back gives the stored user again |
| Types.PasswordNotCarried | src/types/auth.ts:8-9 | the public record does not depend on the password, and keeps id, role and status |
| Lists.FindIndex | src/mocks/data/dataManager.ts:52 | the result is the first index whose element passes, or none exactly when no element passes |
| Lists.Find | src/mocks/handlers/auth.ts:15 | the first passing element, or none exactly when no element passes |
| Lists.Filter | src/mocks/data/dataManager.ts:73 | the result is no longer than the input and every element of it passes |
| Lists.PassingIndices | src/mocks/data/dataManager.ts:73 | the positions of the passing elements, strictly increasing, and every passing position among them |
| Lists.FilterKeepsOrder | src/mocks/data/dataManager.ts:73 | filter keeps order: its k-th element is the element at the k-th passing position |
| Lists.FilterMultiset | src/mocks/data/dataManager.ts:73 | filter keeps each passing element exactly as often as it occurs and drops every failing one |
| Lists.FilterAppend | src/mocks/handlers/stats.ts:13-15 | filtering a concatenation is the concatenation of the filtered parts |
| Lists.SumAppend | src/mocks/handlers/stats.ts:16-19 | the summing reduce over a concatenation adds the two sums |
| Lists.FilterKeepsAll | src/mocks/data/dataManager.ts:73-75 | the filter keeps the full length exactly when every element passes, and then it is the input itself |
| Lists.FilterSubsumed | src/mocks/data/dataManager.ts:198-199 | a stricter test keeps no more elements than a looser one |
| MockData.SeedRuleSplits | src/mocks/data/wallets.ts:4-28 | the seed rule adds up over concatenated transaction lists |
| MockData.SeedRuleByGroup | src/mocks/data/transactions.ts:3-148 | the seed rule over all seeded transactions is the sum over the five owner groups |
| MockData.OthersCountZero | src/mocks/data/wallets.ts:4-28 | transactions of other users add nothing to a user's seeded balance |
| MockData.GroupOwners | src/mocks/data/transactions.ts:3-148 | each seeded group holds its owner's transactions only |
| MockData.SeedRuleUser001 | src/mocks/data/wallets.ts:6 | user_001's seeded transactions give 5000 - 250 - 1200 - 500 under the seed rule |
| MockData.SeedRuleUser002 | src/mocks/data/wallets.ts:11 | user_002's give 3000 - 800: the failed 150 payment is not deducted |
| MockData.SeedRuleUser003 | src/mocks/data/wallets.ts:16 | user_003's give 1000 |
| MockData.SeedRuleUser004 | src/mocks/data/wallets.ts:21 | user_004's give 7500 - 2000 - 300 - 1000 |
| MockData.SeedRuleUser005 | src/mocks/data/wallets.ts:26 | user_005's give 2500 - 450 - 180: the pending 180 payment is deducted |
| MockData.SeedBalancesFollowSeedRule | src/mocks/data/wallets.ts:3-29 | every seeded balance is its owner's non-failed deposits minus non-failed withdrawals and payments |
| MockData.SeedRuleExcludesFailedOnly | src/mocks/data/wallets.ts:6-26 | failed transactions are excluded (user_002 has 2200) and pending debits are deducted (user_001 has 3050, user_005 has 1870) |
| MockData.SeedWalletsOnePerMerchant | src/mocks/data/wallets.ts:3-29 | exactly one wallet per seeded role-"user" account, in order, none for admins; all in ETB and non-negative |
| DataManagement.StatusPatchChangesOnlyStatus | src/mocks/handlers/users.ts:27 | merging `{ status }` changes the status and nothing else |
| DataManagement.BalancePatchChangesOnlyBalance | src/mocks/handlers/transactions.ts:76-78 | merging `{ balance }` changes the balance and nothing else |
| DataManagement.DataManager.constructor | src/mocks/data/dataManager.ts:2-16 | the manager works over the given storage, and its seed arrays start as the seed tables |
| DataManagement.DataManager.InitializeData | src/mocks/data/dataManager.ts:19-34 | without the flag it stores the three seed arrays as they stand and sets the flag; with the flag it writes nothing; the seed arrays never change; on an empty store the getters see no difference |
| DataManagement.DataManager.SetUsers | src/mocks/data/dataManager.ts:44-48 | only the users key is written, and the getter returns what was set |
| DataManagement.DataManager.UpdateUser | src/mocks/data/dataManager.ts:50-61 | unknown id: null and nothing written; otherwise only the first user with the id is replaced by its merge with the update, and the merge is returned; with the key absent the seed array becomes the updated table |
| DataManagement.DataManager.AddUser | src/mocks/data/dataManager.ts:63-69 | exactly one user is appended at the end; with the key absent it is appended to the seed array too |
| DataManagement.DataManager.RemoveUser | src/mocks/data/dataManager.ts:71-80 | false and nothing written exactly when no user has the id; otherwise every user with the id is removed and the rest keep their order |
| DataManagement.DataManager.SetTransactions | src/mocks/data/dataManager.ts:90-97 | only the transactions key is written |
| DataManagement.DataManager.AddTransaction | src/mocks/data/dataManager.ts:99-105 | exactly one transaction is appended at the end; with the key absent it is appended to the seed array too |
| DataManagement.DataManager.UpdateTransaction | src/mocks/data/dataManager.ts:107-125 | the first-match merge of updateUser, by transaction id, reaching the seed array when the key is absent |
| DataManagement.DataManager.SetWallets | src/mocks/data/dataManager.ts:135-139 | only the wallets key is written |
| DataManagement.DataManager.AddWallet | src/mocks/data/dataManager.ts:141-147 | exactly one wallet is appended at the end; with the key absent it is appended to the seed array too |
| DataManagement.DataManager.UpdateWallet | src/mocks/data/dataManager.ts:149-160 | the first-match merge of updateUser, by wallet owner, reaching the seed array when the key is absent |
| DataManagement.DataManager.ClearAllData | src/mocks/data/dataManager.ts:163-171 | exactly the four keys are removed and the flag is unset; the getters then return the seed arrays as earlier writes left them |
| DataManagement.DataManager.ResetToDefaults | src/mocks/data/dataManager.ts:173-180 | the store ends with the seed arrays as earlier writes left them and the flag set, other keys untouched |
| DataManagement.ResetKeepsUserAddedAfterClear | src/mocks/data/dataManager.ts:26 | a user added while the users key is absent is stored again by the next reset, after the seed users |
| DataManagement.DataManager.GetStats | src/mocks/data/dataManager.ts:192-206 | each count is the length of the stored table or of its active or completed filter, the wallets included; so active users never exceed users and completed transactions never exceed transactions |
| AuthHandlers.Login | src/mocks/handlers/auth.ts:14-53 | 401 exactly when the first user with the email is missing or has another password; 403 exactly when that user matches but is inactive; a match with the right password on an active account always succeeds, with 200, that user minus its password and "mock_token" |
| AuthHandlers.Logout | src/mocks/handlers/auth.ts:56-64 | always success with no data |
| AuthHandlers.Signup | src/mocks/handlers/auth.ts:67-116 | a registered email gives 400 and nothing written; otherwise exactly one active merchant "New User" with the given email and password is appended, and no data is returned |
| AuthHandlers.FirstWithFreshEmail | src/mocks/handlers/auth.ts:15 | an appended account with an unused email is the first match for it |
| AuthHandlers.SignupThenLogin | src/mocks/handlers/auth.ts:97-109 | after a signup, logging in with its email and password succeeds with that account |
| AuthHandlers.WrongPasswordBeforeInactive | src/mocks/handlers/auth.ts:17-37 | a wrong password on an inactive account gives 401, not 403 |
| AuthHandlers.SeedLoginExamples | src/mocks/handlers/auth.ts:14-37 | merchant1 logs in as merchant user_001; merchant3 gets 403 with its password and 401 with a wrong one |
| TransactionHandlers.InsertNewestFirstMultiset | src/mocks/handlers/transactions.ts:15-18 | inserting adds the one transaction and loses none |
| TransactionHandlers.InsertNewestFirstBounded | src/mocks/handlers/transactions.ts:15-18 | inserting keeps every time below a common bound |
| TransactionHandlers.InsertNewestFirstSorted | src/mocks/handlers/transactions.ts:15-18 | inserting into a newest-first list keeps it newest first |
| TransactionHandlers.SortNewestFirstSpec | src/mocks/handlers/transactions.ts:15-18 | the sort is a permutation and orders by `createdAt`, newest first |
| TransactionHandlers.ListTransactions | src/mocks/handlers/transactions.ts:7-25 | always a success holding exactly the user's stored transactions, each as often as stored, newest first |
| TransactionHandlers.BalanceAfterCases | src/mocks/handlers/transactions.ts:61-74 | a deposit adds exactly its amount; a withdrawal or payment leaves max(0, balance - amount), never negative |
| TransactionHandlers.PostTransaction | src/mocks/handlers/transactions.ts:28-87 | one transaction with the request's owner, type, amount and description is always appended, completed or failed; a completed one moves only its owner's first wallet by the runtime rule; a failed one or a missing wallet leaves the wallets; the reply is "Transaction " + status |
| TransactionHandlers.CompletedReplaySplits | src/mocks/handlers/transactions.ts:54-79 | replaying the runtime rule over a concatenation replays the parts in turn |
| TransactionHandlers.OthersLeaveReplay | src/mocks/handlers/transactions.ts:55-58 | other users' transactions never move a user's balance |
| TransactionHandlers.RuntimeRuleDiffersFromSeedRule | src/mocks/handlers/transactions.ts:54 | under the runtime rule user_001's seeded transactions give 3550, while the seeded balance follows the seed rule and is 3050 |
| UserHandlers.UpdateStatus | src/mocks/handlers/users.ts:19-47 | unknown id: 404 "User not found" and nothing written; otherwise only that user's status changes and the message says activated or deactivated as the new status is |
| UserHandlers.SummarizeAll | src/mocks/handlers/users.ts:56-72 | one row per given user, in order |
| UserHandlers.PaymentSummaries | src/mocks/handlers/users.ts:50-79 | the rows follow the store: row k summarises the k-th role-"user" account in store order; every row belongs to one and every one has a row; admins and the super admin get none |
| UserHandlers.SummariesFollowStore | src/mocks/handlers/users.ts:56-58 | filtering the role-"user" accounts and mapping them to rows gives rows that follow the store |
| UserHandlers.RowsByPosition | src/mocks/handlers/users.ts:56-58 | row k summarises the account at the k-th role-"user" position of the store |
| UserHandlers.RowsAreMerchants | src/mocks/handlers/users.ts:56-58 | every row summarises some role-"user" account |
| UserHandlers.MerchantsHaveRows | src/mocks/handlers/users.ts:56-58 | every role-"user" account has a row |
| UserHandlers.SummarizeMatchesReference | src/mocks/handlers/users.ts:59-70 | a row's total is the user's completed amounts and its count is all the user's transactions whatever their status; the name is first + " " + last |
| UserHandlers.SummaryAfterAppend | src/mocks/handlers/users.ts:59-70 | one more transaction adds one to its owner's count and its amount to the owner's total only if it completed |
| UserHandlers.CreateAdmin | src/mocks/handlers/users.ts:82-121 | a registered email gives 400 and nothing written; otherwise one active admin with password "12345678" is appended and returned |
| UserHandlers.CreatedAdminCanLogIn | src/mocks/handlers/users.ts:102-114 | a new admin logs in with the default password as an admin |
| UserHandlers.DeleteAdmin | src/mocks/handlers/users.ts:124-165 | 404 "Admin not found" and nothing written unless a user with the id is an admin; otherwise every user with the id is removed; the 500 reply never occurs |
| UserHandlers.RemovalLeavesOthers | src/mocks/handlers/users.ts:147 | after a removal no user has the id and every other user is still there |
| StatsHandlers.GetSystemStats | src/mocks/handlers/stats.ts:7-35 | `totalUsers` counts role "user", `totalAdmins` role "admin" and `activeUsers` the active role-"user" accounts; `totalPayments` equals the reference total of completed amounts; active merchants never exceed merchants; merchants, admins and super admins add up to all users, so the super admin is counted in neither |
| StatsHandlers.SummedPaymentsMatchReference | src/mocks/handlers/stats.ts:13-19 | filtering the completed transactions and summing their amounts equals the completed amounts added up one at a time |
| StatsHandlers.RolesPartition | src/mocks/handlers/stats.ts:26-27 | each user has exactly one of the three roles |
| StatsHandlers.PaymentsAfterAppend | src/mocks/handlers/stats.ts:13-19 | a new transaction raises the payment total by its amount only if it completed |
| StatsHandlers.ActiveMerchantsWithinActiveUsers | src/mocks/handlers/stats.ts:23-25 | the active merchants are among the data store's active users |
| WalletHandlers.WalletBalance | src/mocks/handlers/wallet.ts:6-31 | success exactly when a wallet of the user exists, and then it is the first one; otherwise 404 "Wallet not found" |
| WalletHandlers.SameOwnerKeepsFirstMatch | src/mocks/data/dataManager.ts:151 | replacing a user's first wallet keeps it the first match |
| WalletHandlers.BalanceReflectsTransaction | src/mocks/handlers/transactions.ts:55-78 | after a completed transaction the lookup returns the balance moved by the runtime rule |
| Session.LoginOutcome | src/stores/authStore.ts:49-80 | success exactly for an accepted active user; an inactive user gets "Account is inactive"; a rejection passes its message on, or "Login failed" when it is empty; a thrown error passes its message on, or "Login failed" when it is not an `Error` |
| Session.AuthStore.constructor | src/stores/authStore.ts:27-32 | the store starts signed out, idle and not hydrated |
| Session.AuthStore.BeginLogin | src/stores/authStore.ts:35-36 | a login in flight sets `isLoading` and nothing else |
| Session.AuthStore.FinishLogin | src/stores/authStore.ts:38-81 | every exit clears `isLoading`; success stores the user and the fixed "mock_token"; failure leaves the session as it was; the invariant is kept |
| Session.AuthStore.Login | src/stores/authStore.ts:35-82 | the whole action ends with `isLoading` false and the outcome above |
| Session.AuthStore.Logout | src/stores/authStore.ts:84-101 | the session is cleared whatever the backend does |
| Session.AuthStore.SetLoading | src/stores/authStore.ts:103-105 | only `isLoading` changes |
| Session.AuthStore.SetHasHydrated | src/stores/authStore.ts:107-109 | only `hasHydrated` changes |
| Session.AuthStore.CheckAuth | src/stores/authStore.ts:111-123 | a missing user or a missing or empty token clears the session, otherwise it is marked authenticated; a settled session is left alone, so a second call changes nothing |
| Session.AuthStore.Partialize | src/stores/authStore.ts:127-131 | the snapshot holds user, token and flag only, and is consistent for a valid store |
| Session.AuthStore.Rehydrate | src/stores/authStore.ts:132-134 | a snapshot replaces the three persisted fields; the hydration flag is set unless reading failed; `isLoading` is untouched |
| Session.Reload | src/stores/authStore.ts:24-34 | a fresh store reading back a saved snapshot comes back with that session and hydrated |
| Session.StoreAgreesWithLoginEndpoint | src/stores/authStore.ts:39-74 | the store succeeds exactly when the login endpoint does, passes its 401 and 403 messages on, and its own inactive check never fires on the endpoint's replies |
| LocaleSwitch.Split | src/components/common/LanguageSwitcher.tsx:20 | at least one piece, none holding "/" |
| LocaleSwitch.JoinSplit | src/components/common/LanguageSwitcher.tsx:20-22 | joining the pieces of a split gives the path back |
| LocaleSwitch.SplitPrefix | src/components/common/LanguageSwitcher.tsx:20 | a word without "/" joins the first piece of what follows it |
| LocaleSwitch.SplitJoin | src/components/common/LanguageSwitcher.tsx:20-22 | splitting a join of pieces without "/" gives the pieces back |
| LocaleSwitch.SetLocaleSegment | src/components/common/LanguageSwitcher.tsx:21 | piece 1 becomes the locale, the others stay, and a one-piece list grows to two |
| LocaleSwitch.HandleLocaleChange | src/components/common/LanguageSwitcher.tsx:13-26 | the locale is stored under "preferredLocale" and the path rewritten |
| LocaleSwitch.RewriteSegments | src/components/common/LanguageSwitcher.tsx:19-22 | segment 1 of the new path is the locale, every other segment is unchanged, and there are max(original count, 2) |
| LocaleSwitch.RewriteIdempotent | src/components/common/LanguageSwitcher.tsx:21-22 | rewriting twice with the same locale is rewriting once |
| LocaleSwitch.RewriteRoot | src/components/common/LanguageSwitcher.tsx:20-22 | "" becomes "/en" |
| LocaleSwitch.RewriteLocalePrefix | src/components/common/LanguageSwitcher.tsx:20-22 | "/en" becomes "/am" |

## Left out

- HTTP and mock-server plumbing (msw `http`, `HttpResponse`, `fetch`) and the `setTimeout` latency of every handler: a handler is a function or method returning status, success, message and data.
- Console logging in the data store and the session store: it has no effect on state.
- The non-browser path of `DataManager`: when `window` is undefined, only the `localStorage` writes are skipped. The getters return the seed arrays, and the add and update operations still change those arrays in place (src/mocks/data/dataManager.ts:56, 65, 101, 118, 143, 155), so later getters return the changed seeds. Only the browser path is modelled.
- `exportData`: a debugging read that returns the three getters' results unchanged.
- GET /api/users: it returns the stored users unchanged.
- The health check in `src/mocks/handlers/index.ts`, the service-worker start-up in `src/components/MSWProvider.tsx` and `src/mocks/browser.ts` are not part of this model.
- Uniqueness of `Date.now()` ids and randomness of the id suffix and of the success draw: they are parameters, so nothing is assumed about them.
- Floating-point amounts and ISO date parsing: amounts and timestamps are integers.
- Storage written by other code: `DataManager` requires each of its keys to hold the kind of table it writes there, as JSON of the right shape always is.
- zustand `create`/`persist` internals: the snapshot's write to `localStorage` under "chapa-auth" and the asynchronous timing of hydration are reduced to `Partialize` and `Rehydrate`.
- Concurrent or interleaved `login` calls: `login` is split into `BeginLogin` and `FinishLogin`, and nothing is said about calls interleaving between them.
- `router.replace` and `startTransition` in the locale switcher: the method returns the new path instead of navigating.
- React rendering of the dashboards, home page, layout and forms.
- TransactionHandlers.ListTransactions: the order among transactions with equal `createdAt` is not stated (the insertion sort keeps them in stored order, like the stable JavaScript sort).
- LocaleSwitch.RewriteSegments: stated only for a locale without "/", because a "/" in the locale would itself split into extra segments.
- LocaleSwitch.RewriteIdempotent: stated only for a locale without "/", for the same reason.
- Session.LoginOutcome: a successful reply without data makes the code throw a TypeError; its text comes from the JavaScript engine and is the `nullDataError` parameter of `Session.ReplyOf`.
