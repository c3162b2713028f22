/**
 * The account page's server actions (actions/accounts.ts): making one account
 * the default, and reading an account with its transactions. The two writes of
 * `updateDefaultAccount` are not in one transaction, so a failed second write
 * leaves the first in place. A missing row makes the ORM throw; its message
 * is the `notFound` input.
 */
module Accounts {
  import opened Wrappers
  import opened Calendar
  import opened Store

  /** `{ success, data?, error? }` */
  datatype ActionResult = ActionResult(success: bool, data: Option<Account>, error: Option<string>)

  /** Clear the user's defaults, then flag the account with this id if the user owns it. */
  function SetDefault(accounts: seq<Account>, userId: Id, id: Id): (r: seq<Account>)
    ensures |r| == |accounts|
  {
    var cleared := ClearDefaults(accounts, userId);
    match FindOwnedAccount(cleared, id, userId)
    case Some(i) => cleared[i := cleared[i].(isDefault := true)]
    case None => cleared
  }

  /** The first write changes nothing but the flags, so it finds the same target. */
  lemma FindAfterClear(accounts: seq<Account>, userId: Id, id: Id)
    ensures FindOwnedAccount(ClearDefaults(accounts, userId), id, userId) == FindOwnedAccount(accounts, id, userId)
  {
  }

  /** When the user owns the target it is their only default. */
  lemma TargetIsOnlyDefault(accounts: seq<Account>, userId: Id, id: Id)
    requires FindOwnedAccount(accounts, id, userId).Some?
    ensures OnlyDefault(SetDefault(accounts, userId, id), userId, FindOwnedAccount(accounts, id, userId).value)
  {
    FindAfterClear(accounts, userId, id);
  }

  /** When the target is missing or someone else's, the user is left with no default at all. */
  lemma MissingTargetLeavesNoDefault(accounts: seq<Account>, userId: Id, id: Id)
    requires FindOwnedAccount(accounts, id, userId).None?
    ensures SetDefault(accounts, userId, id) == ClearDefaults(accounts, userId)
    ensures DefaultCount(SetDefault(accounts, userId, id), userId) == 0
  {
    FindAfterClear(accounts, userId, id);
    ClearDefaultsLeavesNone(accounts, userId);
  }

  /** Other users' rows stay as they were. */
  lemma SetDefaultOthersUnchanged(accounts: seq<Account>, userId: Id, id: Id)
    ensures forall k :: 0 <= k < |accounts| && accounts[k].userId != userId ==>
      SetDefault(accounts, userId, id)[k] == accounts[k]
  {
  }

  /** Clearing a table that has no default of the user changes nothing. */
  lemma ClearDefaultsIdle(accounts: seq<Account>, userId: Id)
    requires forall k :: 0 <= k < |accounts| ==> !(accounts[k].userId == userId && accounts[k].isDefault)
    ensures ClearDefaults(accounts, userId) == accounts
  {
  }

  /** Making the same account default twice leaves the table as making it default once. */
  lemma SetDefaultIdempotent(accounts: seq<Account>, userId: Id, id: Id)
    ensures SetDefault(SetDefault(accounts, userId, id), userId, id) == SetDefault(accounts, userId, id)
  {
    var c := ClearDefaults(accounts, userId);
    var s1 := SetDefault(accounts, userId, id);
    FindAfterClear(accounts, userId, id);
    FindAfterClear(s1, userId, id);
    ClearDefaultsIdle(c, userId);
    var c1 := ClearDefaults(s1, userId);
    assert c1 == c by {
      forall k | 0 <= k < |c| ensures c1[k] == c[k] {
        assert c1[k] == s1[k].(isDefault := c1[k].isDefault);
      }
    }
    match FindOwnedAccount(accounts, id, userId)
    case None =>
    case Some(i) =>
      assert FindOwnedAccount(s1, id, userId) == Some(i) by {
        assert s1[i].id == id && s1[i].userId == userId;
      }
  }

  /** Row ids do not change when only default flags do. */
  lemma SetDefaultKeepsValid(users: seq<User>, accounts: seq<Account>, txs: seq<Transaction>,
                             budgets: seq<Budget>, nextId: nat, userId: Id, id: Id)
    requires ValidTables(users, accounts, txs, budgets, nextId)
    ensures ValidTables(users, SetDefault(accounts, userId, id), txs, budgets, nextId)
  {
    var c := ClearDefaults(accounts, userId);
    assert ValidTables(users, c, txs, budgets, nextId);
  }

  /** `updateDefaultAccount(accountId)` */
  method UpdateDefaultAccount(db: Db, session: Option<string>, accountId: Id, notFound: string)
    returns (r: ActionResult)
    requires db.Valid()
    modifies db`accounts
    ensures db.Valid()
    ensures !Authenticate(old(db.users), session).SignedIn? ==>
      r == ActionResult(false, None, Some(AuthError(Authenticate(old(db.users), session))))
      && db.accounts == old(db.accounts)
    ensures Authenticate(old(db.users), session).SignedIn? ==>
      var userId := Authenticate(old(db.users), session).user.id;
      && db.accounts == SetDefault(old(db.accounts), userId, accountId)
      && match FindOwnedAccount(old(db.accounts), accountId, userId)
         case Some(i) => r == ActionResult(true, Some(db.accounts[i]), None) && db.accounts[i].isDefault
         case None => r == ActionResult(false, None, Some(notFound))
  {
    var auth := Authenticate(db.users, session);
    if !auth.SignedIn? {
      return ActionResult(false, None, Some(AuthError(auth)));
    }
    var userId := auth.user.id;
    SetDefaultKeepsValid(db.users, db.accounts, db.transactions, db.budgets, db.nextId, userId, accountId);
    FindAfterClear(db.accounts, userId, accountId);
    db.accounts := ClearDefaults(db.accounts, userId);
    var target := FindOwnedAccount(db.accounts, accountId, userId);
    if target.None? {
      return ActionResult(false, None, Some(notFound));
    }
    var i := target.value;
    db.accounts := db.accounts[i := db.accounts[i].(isDefault := true)];
    return ActionResult(true, Some(db.accounts[i]), None);
  }

  /** An account with its own transactions (newest first) and their count. */
  datatype AccountView = AccountView(account: Account, transactions: seq<Transaction>, count: nat)

  /** `getAccountWithTransactions(accountId)`: null when missing, not owned, or on any error. */
  method GetAccountWithTransactions(db: Db, session: Option<string>, accountId: Id, queryFails: bool)
    returns (r: Option<AccountView>)
    ensures r.Some? <==>
      && !queryFails
      && Authenticate(db.users, session).SignedIn?
      && FindOwnedAccount(db.accounts, accountId, Authenticate(db.users, session).user.id).Some?
    ensures r.Some? ==>
      && r.value.account == db.accounts[FindOwnedAccount(db.accounts, accountId, Authenticate(db.users, session).user.id).value]
      && SortedByDateDesc(r.value.transactions)
      && multiset(r.value.transactions) == multiset(AccountTransactions(db.transactions, accountId))
      && r.value.count == |r.value.transactions|
  {
    var auth := Authenticate(db.users, session);
    if !auth.SignedIn? || queryFails {
      return None;
    }
    var found := FindOwnedAccount(db.accounts, accountId, auth.user.id);
    if found.None? {
      return None;
    }
    var txs := SortByDateDesc(AccountTransactions(db.transactions, accountId));
    return Some(AccountView(db.accounts[found.value], txs, |txs|));
  }
}
