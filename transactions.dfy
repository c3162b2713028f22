/**
 * Deleting a transaction (actions/transactions.ts). The delete is keyed on
 * both the row id and the caller's user id; when no row matches, the ORM
 * throws and its message (the `notFound` input) is returned.
 */
module Transactions {
  import opened Wrappers
  import opened Calendar
  import opened Store

  /**
   * The object the action returns. The success branch spells its flag
   * `sucess`, so a successful result has no `success` key at all.
   */
  datatype ResultObject = ResultObject(success: Option<bool>, sucess: Option<bool>, error: Option<string>)

  const Deleted := ResultObject(None, Some(true), None)

  function Failed(message: string): (r: ResultObject)
    ensures r.success == Some(false) && r.sucess.None? && r.error == Some(message)
  {
    ResultObject(Some(false), None, Some(message))
  }

  /** The table without row `i`. */
  function RemoveAt(txs: seq<Transaction>, i: nat): (r: seq<Transaction>)
    requires i < |txs|
    ensures |r| == |txs| - 1
    ensures multiset(r) == multiset(txs) - multiset{txs[i]}
  {
    assert txs == txs[..i] + [txs[i]] + txs[i + 1..];
    txs[..i] + txs[i + 1..]
  }

  /** With unique ids, removing row `i` removes exactly the rows carrying its id. */
  lemma RemoveOnlyTarget(txs: seq<Transaction>, i: nat)
    requires i < |txs|
    requires forall a, b :: 0 <= a < b < |txs| ==> txs[a].id != txs[b].id
    ensures forall t :: t in RemoveAt(txs, i) <==> t in txs && t.id != txs[i].id
  {
    var r := RemoveAt(txs, i);
    assert r == txs[..i] + txs[i + 1..];
    forall t ensures t in r <==> t in txs && t.id != txs[i].id {
      if t in r {
        var k :| 0 <= k < |r| && r[k] == t;
        if k < i { assert t == txs[k]; } else { assert t == txs[k + 1]; }
      }
      if t in txs && t.id != txs[i].id {
        var k :| 0 <= k < |txs| && txs[k] == t;
        if k < i { assert r[k] == t; } else { assert r[k - 1] == t; }
      }
    }
  }

  lemma RemoveKeepsValid(users: seq<User>, accounts: seq<Account>, txs: seq<Transaction>,
                         budgets: seq<Budget>, nextId: nat, i: nat)
    requires ValidTables(users, accounts, txs, budgets, nextId) && i < |txs|
    ensures ValidTables(users, accounts, RemoveAt(txs, i), budgets, nextId)
  {
    var r := RemoveAt(txs, i);
    assert forall k :: 0 <= k < |r| ==> r[k] == if k < i then txs[k] else txs[k + 1];
  }

  /** `deleteTransaction(transactionId)` */
  method DeleteTransaction(db: Db, session: Option<string>, transactionId: Id, notFound: string)
    returns (r: ResultObject)
    requires db.Valid()
    modifies db`transactions
    ensures db.Valid()
    ensures !Authenticate(old(db.users), session).SignedIn? ==>
      r == Failed(AuthError(Authenticate(old(db.users), session))) && db.transactions == old(db.transactions)
    ensures Authenticate(old(db.users), session).SignedIn? ==>
      match FindOwnedTransaction(old(db.transactions), transactionId, Authenticate(old(db.users), session).user.id)
      case None => r == Failed(notFound) && db.transactions == old(db.transactions)
      case Some(i) => r == Deleted && db.transactions == RemoveAt(old(db.transactions), i)
  {
    var auth := Authenticate(db.users, session);
    if !auth.SignedIn? {
      return Failed(AuthError(auth));
    }
    var found := FindOwnedTransaction(db.transactions, transactionId, auth.user.id);
    if found.None? {
      return Failed(notFound);
    }
    RemoveKeepsValid(db.users, db.accounts, db.transactions, db.budgets, db.nextId, found.value);
    db.transactions := RemoveAt(db.transactions, found.value);
    return Deleted;
  }

  /** Another user's transaction id matches no row of the caller, so nothing is removed. */
  lemma OthersRowsNotDeletable(txs: seq<Transaction>, k: nat, userId: Id)
    requires k < |txs| && txs[k].userId != userId
    requires forall a, b :: 0 <= a < b < |txs| ==> txs[a].id != txs[b].id
    ensures FindOwnedTransaction(txs, txs[k].id, userId).None?
  {
  }
}
