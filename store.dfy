/**
 * The record store the server code reads and writes through the ORM: the
 * `User`, `Account`, `Transaction` and `Budget` tables, kept as sequences of
 * rows in a `Db` object that the operations change in place. Row ids are
 * allocated by the store from `nextId`.
 */
module Store {
  import opened Wrappers
  import opened Calendar
  import Currency

  type Id = nat

  datatype AccountType = CURRENT | SAVINGS
  datatype TransactionType = INCOME | EXPENSE
  datatype RecurringInterval = DAILY | WEEKLY | MONTHLY | YEARLY

  /** A user row; `currency` is null until the user picks one. */
  datatype User = User(id: Id, clerkUserId: string, name: string, imageUrl: string, email: string,
                       currency: Option<Currency.Code>)

  datatype Account = Account(id: Id, userId: Id, name: string, accountType: AccountType,
                             balance: real, isDefault: bool)

  /** A transaction row; amounts are in minor currency units. */
  datatype Transaction = Transaction(id: Id, userId: Id, accountId: Id, txType: TransactionType,
                                     amount: int, date: Instant, category: string,
                                     description: Option<string>)

  /** A budget row: the owner's monthly limit and when it last alerted. */
  datatype Budget = Budget(id: Id, userId: Id, amount: int, lastAlertSent: Option<Instant>)

  /** Position of the first element satisfying `p`, as a `findFirst` query returns it. */
  function FirstIndex<T>(s: seq<T>, p: T -> bool): (r: Option<nat>)
    ensures r.Some? ==> r.value < |s| && p(s[r.value]) && forall k :: 0 <= k < r.value ==> !p(s[k])
    ensures r.None? ==> forall k :: 0 <= k < |s| ==> !p(s[k])
  {
    if s == [] then None
    else if p(s[0]) then Some(0)
    else match FirstIndex(s[1..], p)
      case None => None
      case Some(i) => Some(i + 1)
  }

  /** Position of the row with this `clerkUserId`. */
  function UserIndexByClerkId(users: seq<User>, clerkUserId: string): (r: Option<nat>)
    ensures r.Some? ==> r.value < |users| && users[r.value].clerkUserId == clerkUserId
    ensures r.Some? ==> forall k :: 0 <= k < r.value ==> users[k].clerkUserId != clerkUserId
    ensures r.None? ==> forall k :: 0 <= k < |users| ==> users[k].clerkUserId != clerkUserId
  {
    FirstIndex(users, (u: User) => u.clerkUserId == clerkUserId)
  }

  /** `db.user.findUnique({ where: { clerkUserId } })` */
  function FindUserByClerkId(users: seq<User>, clerkUserId: string): (r: Option<User>)
    ensures r.Some? ==> r.value in users && r.value.clerkUserId == clerkUserId
    ensures r.None? ==> forall k :: 0 <= k < |users| ==> users[k].clerkUserId != clerkUserId
  {
    match UserIndexByClerkId(users, clerkUserId)
    case Some(i) => Some(users[i])
    case None => None
  }

  /** How a server action resolves the caller: the session's Clerk id, then the user row. */
  datatype Auth = Unauthorized | UserNotFound | SignedIn(user: User)

  function Authenticate(users: seq<User>, session: Option<string>): (r: Auth)
    ensures r == Unauthorized <==> session.None?
    ensures r == UserNotFound <==> session.Some? && FindUserByClerkId(users, session.value).None?
    ensures r.SignedIn? ==> r.user in users && r.user.clerkUserId == session.value
  {
    if session.None? then Unauthorized
    else match FindUserByClerkId(users, session.value)
      case None => UserNotFound
      case Some(u) => SignedIn(u)
  }

  /** The message each action throws when the caller cannot be resolved. */
  function AuthError(a: Auth): string {
    if a == Unauthorized then "Unauthorized" else "User Not Found"
  }

  /** The user row a foreign key points at. */
  function FindUserById(users: seq<User>, id: Id): (r: Option<User>)
    ensures r.Some? ==> r.value in users && r.value.id == id
    ensures r.None? ==> forall k :: 0 <= k < |users| ==> users[k].id != id
  {
    match FirstIndex(users, (u: User) => u.id == id)
    case Some(i) => Some(users[i])
    case None => None
  }

  /** Index of the account row with this id owned by this user. */
  function FindOwnedAccount(accounts: seq<Account>, id: Id, userId: Id): (r: Option<nat>)
    ensures r.Some? ==> r.value < |accounts| && accounts[r.value].id == id && accounts[r.value].userId == userId
    ensures r.None? ==> forall k :: 0 <= k < |accounts| ==> !(accounts[k].id == id && accounts[k].userId == userId)
  {
    FirstIndex(accounts, (a: Account) => a.id == id && a.userId == userId)
  }

  /** Index of the transaction row with this id owned by this user. */
  function FindOwnedTransaction(txs: seq<Transaction>, id: Id, userId: Id): (r: Option<nat>)
    ensures r.Some? ==> r.value < |txs| && txs[r.value].id == id && txs[r.value].userId == userId
    ensures r.None? ==> forall k :: 0 <= k < |txs| ==> !(txs[k].id == id && txs[k].userId == userId)
  {
    FirstIndex(txs, (t: Transaction) => t.id == id && t.userId == userId)
  }

  /** How many of the user's accounts are flagged default. */
  function DefaultCount(accounts: seq<Account>, userId: Id): nat {
    if accounts == [] then 0
    else DefaultCount(accounts[..|accounts| - 1], userId)
         + (if accounts[|accounts| - 1].userId == userId && accounts[|accounts| - 1].isDefault then 1 else 0)
  }

  /** How many of the user's accounts there are. */
  function AccountCount(accounts: seq<Account>, userId: Id): nat {
    if accounts == [] then 0
    else AccountCount(accounts[..|accounts| - 1], userId)
         + (if accounts[|accounts| - 1].userId == userId then 1 else 0)
  }

  /** `existingAccounts.length === 0` agrees with the user owning no row. */
  lemma {:induction false} AccountCountZero(accounts: seq<Account>, userId: Id)
    ensures AccountCount(accounts, userId) == 0 <==> forall k :: 0 <= k < |accounts| ==> accounts[k].userId != userId
  {
    if accounts != [] {
      AccountCountZero(accounts[..|accounts| - 1], userId);
    }
  }

  /** No user has two default accounts. */
  ghost predicate AtMostOneDefault(accounts: seq<Account>) {
    forall i, j :: 0 <= i < j < |accounts| && accounts[i].isDefault && accounts[j].isDefault ==>
      accounts[i].userId != accounts[j].userId
  }

  /** `updateMany({ where: { userId, isDefault: true }, data: { isDefault: false } })` */
  function ClearDefaults(accounts: seq<Account>, userId: Id): (r: seq<Account>)
    ensures |r| == |accounts|
    ensures forall k :: 0 <= k < |r| ==> r[k].userId == userId ==> !r[k].isDefault
    ensures forall k :: 0 <= k < |r| ==> r[k].userId != userId ==> r[k] == accounts[k]
    ensures forall k :: 0 <= k < |r| ==> r[k] == accounts[k].(isDefault := r[k].isDefault)
  {
    seq(|accounts|, k requires 0 <= k < |accounts| =>
      if accounts[k].userId == userId && accounts[k].isDefault then accounts[k].(isDefault := false)
      else accounts[k])
  }

  /** After clearing, the user has no default account. */
  lemma {:induction false} ClearDefaultsLeavesNone(accounts: seq<Account>, userId: Id)
    ensures DefaultCount(ClearDefaults(accounts, userId), userId) == 0
  {
    if accounts != [] {
      var n := |accounts| - 1;
      assert ClearDefaults(accounts, userId)[..n] == ClearDefaults(accounts[..n], userId);
      ClearDefaultsLeavesNone(accounts[..n], userId);
    }
  }

  /** Counting defaults agrees with looking for them. */
  lemma {:induction false} DefaultCountZero(accounts: seq<Account>, userId: Id)
    ensures DefaultCount(accounts, userId) == 0 <==>
      forall k :: 0 <= k < |accounts| ==> !(accounts[k].userId == userId && accounts[k].isDefault)
  {
    if accounts != [] {
      DefaultCountZero(accounts[..|accounts| - 1], userId);
    }
  }

  /** A single index that carries the user's only default account. */
  ghost predicate OnlyDefault(accounts: seq<Account>, userId: Id, idx: nat) {
    && idx < |accounts|
    && accounts[idx].userId == userId
    && accounts[idx].isDefault
    && forall k :: 0 <= k < |accounts| && k != idx && accounts[k].userId == userId ==> !accounts[k].isDefault
  }

  /** A lone default account is counted once. */
  lemma {:induction false} OnlyDefaultCountsOne(accounts: seq<Account>, userId: Id, idx: nat)
    requires OnlyDefault(accounts, userId, idx)
    ensures DefaultCount(accounts, userId) == 1
  {
    var n := |accounts| - 1;
    if idx == n {
      DefaultCountZero(accounts[..n], userId);
    } else {
      assert OnlyDefault(accounts[..n], userId, idx);
      OnlyDefaultCountsOne(accounts[..n], userId, idx);
    }
  }

  /** Transactions sorted newest first, as `orderBy: { date: "desc" }` returns them. */
  ghost predicate SortedByDateDesc(s: seq<Transaction>) {
    forall i, j :: 0 <= i < j < |s| ==> Ordinal(s[j].date) <= Ordinal(s[i].date)
  }

  /** Putting a row no older than every row of a sorted list in front keeps it sorted. */
  lemma PrependSorted(x: Transaction, s: seq<Transaction>)
    requires SortedByDateDesc(s)
    requires forall k :: 0 <= k < |s| ==> Ordinal(s[k].date) <= Ordinal(x.date)
    ensures SortedByDateDesc([x] + s)
  {
    var r := [x] + s;
    forall i, j | 0 <= i < j < |r| ensures Ordinal(r[j].date) <= Ordinal(r[i].date) {
      assert r[j] == s[j - 1];
      if i > 0 {
        assert r[i] == s[i - 1];
      }
    }
  }

  function InsertByDateDesc(t: Transaction, s: seq<Transaction>): (r: seq<Transaction>)
    requires SortedByDateDesc(s)
    ensures SortedByDateDesc(r)
    ensures multiset(r) == multiset(s) + multiset{t}
    ensures |r| == |s| + 1
  {
    if s == [] then [t]
    else if Ordinal(s[0].date) <= Ordinal(t.date) then
      PrependSorted(t, s);
      [t] + s
    else
      var rest := InsertByDateDesc(t, s[1..]);
      assert s == [s[0]] + s[1..];
      assert forall k :: 0 <= k < |rest| ==> Ordinal(rest[k].date) <= Ordinal(s[0].date) by {
        forall k | 0 <= k < |rest| ensures Ordinal(rest[k].date) <= Ordinal(s[0].date) {
          assert rest[k] in multiset(rest);
          assert rest[k] == t || rest[k] in s[1..];
        }
      }
      PrependSorted(s[0], rest);
      [s[0]] + rest
  }

  /** One ordering of the rows by date, newest first (ties in any order). */
  function SortByDateDesc(s: seq<Transaction>): (r: seq<Transaction>)
    ensures SortedByDateDesc(r)
    ensures multiset(r) == multiset(s)
  {
    if s == [] then []
    else
      assert s == [s[0]] + s[1..];
      InsertByDateDesc(s[0], SortByDateDesc(s[1..]))
  }

  /** `where: { userId }` on the transaction table, in table order. */
  function UserTransactions(txs: seq<Transaction>, userId: Id): (r: seq<Transaction>)
    ensures forall t :: multiset(r)[t] == if t.userId == userId then multiset(txs)[t] else 0
  {
    if txs == [] then []
    else
      assert txs == [txs[0]] + txs[1..];
      (if txs[0].userId == userId then [txs[0]] else []) + UserTransactions(txs[1..], userId)
  }

  /** The account's own transactions (the `transactions` relation of an account), in table order. */
  function AccountTransactions(txs: seq<Transaction>, accountId: Id): (r: seq<Transaction>)
    ensures forall t :: multiset(r)[t] == if t.accountId == accountId then multiset(txs)[t] else 0
  {
    if txs == [] then []
    else
      assert txs == [txs[0]] + txs[1..];
      (if txs[0].accountId == accountId then [txs[0]] else []) + AccountTransactions(txs[1..], accountId)
  }

  /**
   * The store's own guarantees: ids are unique per table and below the next
   * id to hand out, `clerkUserId` is unique, and every budget's owner exists.
   */
  ghost predicate ValidTables(users: seq<User>, accounts: seq<Account>, transactions: seq<Transaction>,
                              budgets: seq<Budget>, nextId: nat) {
    && (forall i :: 0 <= i < |users| ==> users[i].id < nextId)
    && (forall i, j :: 0 <= i < j < |users| ==> users[i].id != users[j].id)
    && (forall i, j :: 0 <= i < j < |users| ==> users[i].clerkUserId != users[j].clerkUserId)
    && (forall i :: 0 <= i < |accounts| ==> accounts[i].id < nextId)
    && (forall i, j :: 0 <= i < j < |accounts| ==> accounts[i].id != accounts[j].id)
    && (forall i :: 0 <= i < |transactions| ==> transactions[i].id < nextId)
    && (forall i, j :: 0 <= i < j < |transactions| ==> transactions[i].id != transactions[j].id)
    && UniqueBudgetIds(budgets)
    && (forall i :: 0 <= i < |budgets| ==> FindUserById(users, budgets[i].userId).Some?)
  }

  /** Budget ids are unique. */
  ghost predicate UniqueBudgetIds(budgets: seq<Budget>) {
    forall i, j :: 0 <= i < j < |budgets| ==> budgets[i].id != budgets[j].id
  }

  /** Rewriting budget rows without changing their ids or owners keeps the tables valid. */
  lemma BudgetOwnersKept(users: seq<User>, accounts: seq<Account>, transactions: seq<Transaction>,
                         budgets: seq<Budget>, budgets': seq<Budget>, nextId: nat)
    requires ValidTables(users, accounts, transactions, budgets, nextId)
    requires |budgets'| == |budgets|
    requires forall k :: 0 <= k < |budgets| ==> budgets'[k].id == budgets[k].id && budgets'[k].userId == budgets[k].userId
    ensures ValidTables(users, accounts, transactions, budgets', nextId)
  {
    assert forall i :: 0 <= i < |budgets'| ==> FindUserById(users, budgets'[i].userId).Some? by {
      forall i | 0 <= i < |budgets'| ensures FindUserById(users, budgets'[i].userId).Some? {
        assert budgets'[i].userId == budgets[i].userId;
      }
    }
  }

  class Db {
    var users: seq<User>
    var accounts: seq<Account>
    var transactions: seq<Transaction>
    var budgets: seq<Budget>
    var nextId: nat

    ghost predicate Valid()
      reads this
    {
      ValidTables(users, accounts, transactions, budgets, nextId)
    }

    constructor ()
      ensures Valid()
      ensures users == [] && accounts == [] && transactions == [] && budgets == []
    {
      users, accounts, transactions, budgets := [], [], [], [];
      nextId := 0;
    }
  }
}
