/**
 * Record shapes shared by the mock backend and the session store
 * (src/types/user.ts, src/types/transaction.ts, src/types/auth.ts).
 * Amounts and timestamps are integers; timestamps order like the instants
 * they stand for.
 */
module Types {

  datatype Option<+T> = None | Some(value: T) {
    function GetOr(default: T): T {
      match this
      case Some(v) => v
      case None => default
    }
  }

  /** "user" | "admin" | "super_admin" */
  datatype Role = Merchant | Admin | SuperAdmin

  /** "active" | "inactive" */
  datatype UserStatus = Active | Inactive

  /** A stored account, secret included. */
  datatype User = User(
    id: string,
    email: string,
    firstName: string,
    lastName: string,
    phone: Option<string>,
    city: Option<string>,
    role: Role,
    status: UserStatus,
    createdAt: int,
    password: string)

  /** The account as sent to the client: the same record without the password. */
  datatype PublicUser = PublicUser(
    id: string,
    email: string,
    firstName: string,
    lastName: string,
    phone: Option<string>,
    city: Option<string>,
    role: Role,
    status: UserStatus,
    createdAt: int)

  /** Drops the password field, keeping every other field as it is. */
  /** `u.role === role`, the test the endpoints filter users by. */
  function HasRole(role: Role): User -> bool {
    (u: User) => u.role == role
  }

  function ToPublic(u: User): (p: PublicUser)
    ensures WithPassword(p, u.password) == u
  {
    PublicUser(u.id, u.email, u.firstName, u.lastName, u.phone, u.city, u.role, u.status, u.createdAt)
  }

  /** The stored record a public record came from, given its secret. */
  function WithPassword(p: PublicUser, secret: string): User {
    User(p.id, p.email, p.firstName, p.lastName, p.phone, p.city, p.role, p.status, p.createdAt, secret)
  }

  /** The public record does not depend on the password it was made from. */
  lemma PasswordNotCarried(u: User, secret: string)
    ensures ToPublic(u.(password := secret)) == ToPublic(u)
    ensures ToPublic(u).id == u.id && ToPublic(u).role == u.role && ToPublic(u).status == u.status
  {
  }

  /** "deposit" | "withdrawal" | "payment" */
  datatype TransactionType = Deposit | Withdrawal | Payment

  /** "completed" | "pending" | "failed" */
  datatype TransactionStatus = Completed | Pending | Failed

  datatype Transaction = Transaction(
    id: string,
    userId: string,
    kind: TransactionType,
    amount: int,
    description: string,
    status: TransactionStatus,
    createdAt: int)

  datatype Wallet = Wallet(userId: string, balance: int, currency: string)

  /** The token and account a successful login sends back. */
  datatype AuthUser = AuthUser(user: PublicUser, token: string)

  /** A mock endpoint's reply: HTTP status, then the JSON body's fields. */
  datatype Response<+T> = Response(status: int, success: bool, message: string, data: Option<T>)

  function Ok<T>(message: string, data: Option<T>): Response<T> {
    Response(200, true, message, data)
  }

  function Fail<T>(status: int, message: string): Response<T> {
    Response(status, false, message, None)
  }
}

/**
 * The browser's localStorage as a map from key to stored value. JSON
 * stringify/parse is the identity, so a key holds the value written to it.
 */
module Storage {
  import opened Types

  datatype Stored =
    | Text(text: string)
    | UserTable(users: seq<User>)
    | TransactionTable(transactions: seq<Transaction>)
    | WalletTable(wallets: seq<Wallet>)

  type LocalStorage = map<string, Stored>
}
