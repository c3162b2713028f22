/**
 * Find-or-create of the signed-in user's row (lib/check-user.ts). The Clerk
 * profile of the current session is an input; a failing store call is a
 * `Fault` input, and every fault makes the call return null.
 */
module CheckUser {
  import opened Wrappers
  import opened Store

  /** The parts of Clerk's `currentUser()` profile that are read. */
  datatype ClerkUser = ClerkUser(id: string, firstName: Option<string>, lastName: Option<string>,
                                 imageUrl: Option<string>, emailAddresses: seq<string>)

  /** Where the store call throws, if it does. */
  datatype Fault = NoFault | LookupFails | InsertFails

  /** The characters `String.prototype.trim` removes: white space and line terminators. */
  predicate IsJsWhitespace(c: char) {
    || c == '\t' || c == '\n' || c == '\U{B}' || c == '\U{C}' || c == '\r' || c == ' '
    || c == '\U{A0}' || c == '\U{1680}' || ('\U{2000}' <= c <= '\U{200A}')
    || c == '\U{2028}' || c == '\U{2029}' || c == '\U{202F}' || c == '\U{205F}'
    || c == '\U{3000}' || c == '\U{FEFF}'
  }

  function TrimStart(s: string): (r: string)
    ensures |r| <= |s| && r == s[|s| - |r|..]
    ensures forall k :: 0 <= k < |s| - |r| ==> IsJsWhitespace(s[k])
    ensures r != [] ==> !IsJsWhitespace(r[0])
  {
    if s != [] && IsJsWhitespace(s[0]) then TrimStart(s[1..]) else s
  }

  function TrimEnd(s: string): (r: string)
    ensures |r| <= |s| && r == s[..|r|]
    ensures forall k :: |r| <= k < |s| ==> IsJsWhitespace(s[k])
    ensures r != [] ==> !IsJsWhitespace(r[|r| - 1])
  {
    if s != [] && IsJsWhitespace(s[|s| - 1]) then TrimEnd(s[..|s| - 1]) else s
  }

  /** `s.trim()`: the middle of `s` between white space at either end. */
  predicate AllWhitespace(s: string) {
    forall k :: 0 <= k < |s| ==> IsJsWhitespace(s[k])
  }

  function Trim(s: string): (r: string)
    ensures exists i, j :: 0 <= i <= j <= |s| && r == s[i..j] && AllWhitespace(s[..i]) && AllWhitespace(s[j..])
    ensures r != [] ==> !IsJsWhitespace(r[0]) && !IsJsWhitespace(r[|r| - 1])
  {
    var t := TrimStart(s);
    var r := TrimEnd(t);
    var i := |s| - |t|;
    assert r == s[i..i + |r|];
    assert AllWhitespace(s[..i]);
    var tail := s[i + |r|..];
    assert AllWhitespace(tail) by {
      forall k | 0 <= k < |tail| ensures IsJsWhitespace(tail[k]) {
        assert tail[k] == t[|r| + k];
      }
    }
    r
  }

  lemma TrimStartFixed(s: string)
    requires s == [] || !IsJsWhitespace(s[0])
    ensures TrimStart(s) == s
  {
  }

  lemma TrimEndFixed(s: string)
    requires s == [] || !IsJsWhitespace(s[|s| - 1])
    ensures TrimEnd(s) == s
  {
  }

  /** A string with no white space at either end is its own trim, so trimming twice is trimming once. */
  lemma TrimIdempotent(s: string)
    ensures Trim(Trim(s)) == Trim(s)
  {
    var r := Trim(s);
    assert TrimStart(r) == r;
    assert TrimEnd(r) == r;
  }

  /** `${firstName ?? ""} ${lastName ?? ""}`.trim() */
  function DisplayName(u: ClerkUser): string {
    Trim(u.firstName.GetOr("") + " " + u.lastName.GetOr(""))
  }

  /** Names with no white space at their outer ends are joined by a single space. */
  lemma FullName(u: ClerkUser, first: string, last: string)
    requires u.firstName == Some(first) && u.lastName == Some(last)
    requires first != [] && !IsJsWhitespace(first[0])
    requires last != [] && !IsJsWhitespace(last[|last| - 1])
    ensures DisplayName(u) == first + " " + last
  {
    var s := first + " " + last;
    assert s[0] == first[0] && s[|s| - 1] == last[|last| - 1];
    assert TrimStart(s) == s;
    assert TrimEnd(s) == s;
  }

  /** Without a last name the trailing space goes. */
  lemma FirstNameOnly(u: ClerkUser, first: string)
    requires u.firstName == Some(first) && u.lastName.None?
    requires first != [] && !IsJsWhitespace(first[0]) && !IsJsWhitespace(first[|first| - 1])
    ensures DisplayName(u) == first
  {
    var s := first + " ";
    TrimStartFixed(s);
    assert s[..|s| - 1] == first;
    TrimEndFixed(first);
    assert TrimEnd(s) == TrimEnd(first);
    assert u.firstName.GetOr("") + " " + u.lastName.GetOr("") == s;
    assert Trim(s) == TrimEnd(TrimStart(s));
  }

  /** With neither name the stored name is empty. */
  lemma NoNames(u: ClerkUser)
    requires u.firstName.None? && u.lastName.None?
    ensures DisplayName(u) == ""
  {
    assert TrimStart(" ") == "";
  }

  /** The row `db.user.create` inserts for a first-time user. */
  function NewUserRow(id: Id, u: ClerkUser): (row: User)
    requires |u.emailAddresses| > 0
    ensures row.id == id && row.clerkUserId == u.id && row.currency.None?
    ensures row.imageUrl == u.imageUrl.GetOr("") && row.email == u.emailAddresses[0]
  {
    User(id, u.id, DisplayName(u), u.imageUrl.GetOr(""), u.emailAddresses[0], None)
  }

  /** After the insert, a lookup by the same Clerk id finds the new row. */
  lemma FoundAfterInsert(users: seq<User>, row: User)
    requires FindUserByClerkId(users, row.clerkUserId).None?
    ensures FindUserByClerkId(users + [row], row.clerkUserId) == Some(row)
  {
    var s := users + [row];
    assert s[|users|] == row;
  }

  /** Adding a user whose id is fresh and whose Clerk id is new keeps the tables valid. */
  lemma AddUserValid(users: seq<User>, accounts: seq<Account>, transactions: seq<Transaction>,
                     budgets: seq<Budget>, nextId: nat, row: User)
    requires ValidTables(users, accounts, transactions, budgets, nextId)
    requires row.id == nextId && FindUserByClerkId(users, row.clerkUserId).None?
    ensures ValidTables(users + [row], accounts, transactions, budgets, nextId + 1)
  {
    var s := users + [row];
    forall i | 0 <= i < |budgets| ensures FindUserById(s, budgets[i].userId).Some? {
      var owner := FindUserById(users, budgets[i].userId).value;
      var k :| 0 <= k < |users| && users[k] == owner;
      assert s[k].id == budgets[i].userId;
    }
  }

  /** `checkUser()` with the current session's profile (`None` when signed out). */
  method CheckUser(db: Db, current: Option<ClerkUser>, fault: Fault) returns (r: Option<User>)
    requires db.Valid()
    modifies db`users, db`nextId
    ensures db.Valid()
    ensures current.None? || fault == LookupFails ==>
      r.None? && db.users == old(db.users) && db.nextId == old(db.nextId)
    ensures current.Some? && fault != LookupFails && FindUserByClerkId(old(db.users), current.value.id).Some? ==>
      r == FindUserByClerkId(old(db.users), current.value.id) && db.users == old(db.users) && db.nextId == old(db.nextId)
    ensures current.Some? && fault != LookupFails && FindUserByClerkId(old(db.users), current.value.id).None? ==>
      if current.value.emailAddresses == [] || fault == InsertFails then
        r.None? && db.users == old(db.users) && db.nextId == old(db.nextId)
      else
        && r == Some(NewUserRow(old(db.nextId), current.value))
        && db.users == old(db.users) + [r.value]
        && db.nextId == old(db.nextId) + 1
  {
    if current.None? {
      return None;
    }
    var u := current.value;
    if fault == LookupFails {
      return None;
    }
    var existing := FindUserByClerkId(db.users, u.id);
    if existing.Some? {
      return existing;
    }
    if u.emailAddresses == [] || fault == InsertFails {
      // reading `emailAddresses[0].emailAddress` or the insert throws; the error is swallowed
      return None;
    }
    var row := NewUserRow(db.nextId, u);
    AddUserValid(db.users, db.accounts, db.transactions, db.budgets, db.nextId, row);
    db.users := db.users + [row];
    db.nextId := db.nextId + 1;
    return Some(row);
  }

  /** A second call for the same profile returns the row the first one created and inserts nothing. */
  method CheckUserTwice(db: Db, u: ClerkUser) returns (first: Option<User>, second: Option<User>)
    requires db.Valid()
    modifies db`users, db`nextId
    ensures db.Valid()
    ensures first.Some? ==> second == first
    ensures |db.users| <= |old(db.users)| + 1
    ensures db.users == old(db.users) || (first.Some? && db.users == old(db.users) + [first.value])
  {
    first := CheckUser(db, Some(u), NoFault);
    ghost var afterFirst := db.users;
    if first.Some? && FindUserByClerkId(old(db.users), u.id).None? {
      FoundAfterInsert(old(db.users), first.value);
    }
    second := CheckUser(db, Some(u), NoFault);
    assert first.Some? ==> db.users == afterFirst;
  }
}
