/**
 * The dashboard's server actions (actions/dashboard.ts): creating an account
 * with the one-default-account rule, and reading the caller's transactions.
 * Clerk's session is the `session` input, `parseFloat` is JavaScript's, and a
 * failing insert is the `insertError` input with the message it throws.
 */
module Dashboard {
  import opened Wrappers
  import opened JsNumbers
  import opened Calendar
  import opened Store
  import Schema

  /** What an action that rethrows ends with: its value, or the error it throws. */
  datatype Outcome<T> = Returned(value: T) | Thrown(message: string)

  /** A user's first account is default whatever was asked; later ones take the request. */
  function ShouldBeDefault(accounts: seq<Account>, userId: Id, requested: bool): bool {
    AccountCount(accounts, userId) == 0 || requested
  }

  lemma FirstAccountIsDefault(accounts: seq<Account>, userId: Id, requested: bool)
    requires forall k :: 0 <= k < |accounts| ==> accounts[k].userId != userId
    ensures ShouldBeDefault(accounts, userId, requested)
  {
    AccountCountZero(accounts, userId);
  }

  lemma LaterAccountTakesRequest(accounts: seq<Account>, userId: Id, requested: bool, k: nat)
    requires k < |accounts| && accounts[k].userId == userId
    ensures ShouldBeDefault(accounts, userId, requested) == requested
  {
    AccountCountZero(accounts, userId);
  }

  /** The accounts table once the new row is in: a default row clears the user's other defaults first. */
  function AccountsAfterCreate(accounts: seq<Account>, userId: Id, row: Account): seq<Account> {
    (if row.isDefault then ClearDefaults(accounts, userId) else accounts) + [row]
  }

  /** A new default account is the user's only default. */
  lemma NewDefaultIsOnly(accounts: seq<Account>, userId: Id, row: Account)
    requires row.userId == userId && row.isDefault
    ensures OnlyDefault(AccountsAfterCreate(accounts, userId, row), userId, |accounts|)
  {
  }

  /** A non-default account leaves every existing row as it was. */
  lemma NonDefaultLeavesRows(accounts: seq<Account>, userId: Id, row: Account)
    requires !row.isDefault
    ensures AccountsAfterCreate(accounts, userId, row)[..|accounts|] == accounts
  {
  }

  /** Other users' rows are never touched. */
  lemma OtherUsersUntouched(accounts: seq<Account>, userId: Id, row: Account)
    ensures forall k :: 0 <= k < |accounts| && accounts[k].userId != userId ==>
      AccountsAfterCreate(accounts, userId, row)[k] == accounts[k]
  {
  }

  /** Creating an account of `userId` keeps every user at one default account at most. */
  lemma CreateKeepsAtMostOneDefault(accounts: seq<Account>, userId: Id, row: Account)
    requires AtMostOneDefault(accounts) && row.userId == userId
    ensures AtMostOneDefault(AccountsAfterCreate(accounts, userId, row))
  {
    var r := AccountsAfterCreate(accounts, userId, row);
    var n := |accounts|;
    forall i, j | 0 <= i < j < |r| && r[i].isDefault && r[j].isDefault
      ensures r[i].userId != r[j].userId
    {
      if j < n {
        assert r[i] == accounts[i].(isDefault := r[i].isDefault) && r[j] == accounts[j].(isDefault := r[j].isDefault);
        assert accounts[i].isDefault && accounts[j].isDefault;
      }
    }
  }

  /** Clearing defaults keeps each row's id. */
  lemma ClearDefaultsKeepsValid(users: seq<User>, accounts: seq<Account>, txs: seq<Transaction>,
                                budgets: seq<Budget>, nextId: nat, userId: Id)
    requires ValidTables(users, accounts, txs, budgets, nextId)
    ensures ValidTables(users, ClearDefaults(accounts, userId), txs, budgets, nextId)
  {
  }

  /** Appending an account row with the next id keeps the tables valid. */
  lemma AddAccountValid(users: seq<User>, accounts: seq<Account>, txs: seq<Transaction>,
                        budgets: seq<Budget>, nextId: nat, row: Account)
    requires ValidTables(users, accounts, txs, budgets, nextId) && row.id == nextId
    ensures ValidTables(users, accounts + [row], txs, budgets, nextId + 1)
  {
  }

  /** `createAccount(data)` with data already accepted by the account form's schema. */
  method CreateAccount(db: Db, session: Option<string>, data: Schema.AccountData,
                       parseFloat: string -> JsNumber, insertError: Option<string>)
    returns (r: Outcome<Account>)
    requires db.Valid()
    modifies db`accounts, db`nextId
    ensures db.Valid()
    ensures AtMostOneDefault(old(db.accounts)) ==> AtMostOneDefault(db.accounts)
    ensures !Authenticate(old(db.users), session).SignedIn? ==>
      r == Thrown(AuthError(Authenticate(old(db.users), session)))
      && db.accounts == old(db.accounts) && db.nextId == old(db.nextId)
    ensures Authenticate(old(db.users), session).SignedIn? && parseFloat(data.balance).NaN? ==>
      r == Thrown("Invalid balance amount") && db.accounts == old(db.accounts) && db.nextId == old(db.nextId)
    ensures Authenticate(old(db.users), session).SignedIn? && parseFloat(data.balance).Num? ==>
      var userId := Authenticate(old(db.users), session).user.id;
      var isDefault := ShouldBeDefault(old(db.accounts), userId, data.isDefault);
      var row := Account(old(db.nextId), userId, data.name, data.accountType, parseFloat(data.balance).value, isDefault);
      if insertError.Some? then
        // the defaults were already cleared when the insert failed
        && r == Thrown(insertError.value)
        && db.accounts == (if isDefault then ClearDefaults(old(db.accounts), userId) else old(db.accounts))
        && db.nextId == old(db.nextId)
      else
        && r == Returned(row)
        && db.accounts == AccountsAfterCreate(old(db.accounts), userId, row)
        && db.nextId == old(db.nextId) + 1
  {
    var auth := Authenticate(db.users, session);
    if !auth.SignedIn? {
      return Thrown(AuthError(auth));
    }
    var balance := parseFloat(data.balance);
    if balance.NaN? {
      return Thrown("Invalid balance amount");
    }
    var userId := auth.user.id;
    var isDefault := ShouldBeDefault(db.accounts, userId, data.isDefault);
    var row := Account(db.nextId, userId, data.name, data.accountType, balance.value, isDefault);
    ghost var before := db.accounts;
    if AtMostOneDefault(before) {
      CreateKeepsAtMostOneDefault(before, userId, row);
    }
    if isDefault {
      ClearDefaultsKeepsValid(db.users, db.accounts, db.transactions, db.budgets, db.nextId, userId);
      db.accounts := ClearDefaults(db.accounts, userId);
      if AtMostOneDefault(before) {
        assert AtMostOneDefault(db.accounts) by {
          assert db.accounts == AccountsAfterCreate(before, userId, row)[..|before|];
        }
      }
    }
    if insertError.Some? {
      return Thrown(insertError.value);
    }
    AddAccountValid(db.users, db.accounts, db.transactions, db.budgets, db.nextId, row);
    db.accounts := db.accounts + [row];
    db.nextId := db.nextId + 1;
    return Returned(row);
  }

  /** `getDashboardData()`: the caller's transactions newest first; any error gives undefined. */
  method GetDashboardData(db: Db, session: Option<string>, queryFails: bool)
    returns (r: Option<seq<Transaction>>)
    ensures r.Some? <==> Authenticate(db.users, session).SignedIn? && !queryFails
    ensures r.Some? ==>
      && SortedByDateDesc(r.value)
      && multiset(r.value) == multiset(UserTransactions(db.transactions, Authenticate(db.users, session).user.id))
  {
    var auth := Authenticate(db.users, session);
    if !auth.SignedIn? || queryFails {
      return None;
    }
    return Some(SortByDateDesc(UserTransactions(db.transactions, auth.user.id)));
  }

  /** Every row on the dashboard is the caller's own, and every row of the caller's is there. */
  lemma DashboardShowsOwnRows(txs: seq<Transaction>, shown: seq<Transaction>, userId: Id)
    requires multiset(shown) == multiset(UserTransactions(txs, userId))
    ensures forall t :: t in shown <==> t in txs && t.userId == userId
  {
    forall t ensures t in shown <==> t in txs && t.userId == userId {
      assert t in shown <==> multiset(shown)[t] > 0;
      assert t in txs <==> multiset(txs)[t] > 0;
    }
  }
}
