/**
 * The `/api/user/currency` route (app/api/user/currency/route.ts). PATCH
 * validates the requested code, makes sure the caller has a user row, and
 * stores the code on it; GET reads it back. The session's Clerk profile, the
 * parsed request body and the store's failures are inputs.
 */
module CurrencyRoute {
  import opened Wrappers
  import opened Store
  import opened Http
  import Currency
  import CheckUser

  /** The codes `updateCurrencySchema` accepts. */
  const AcceptedCodes: seq<string> := ["USD", "EUR", "INR", "GBP", "JPY", "CAD", "AUD", "CHF", "CNY", "SEK"]

  /** The route accepts exactly the `Currency` type's codes. */
  lemma AcceptedCodesAreCurrencyType(s: string)
    ensures s in AcceptedCodes <==> Currency.ParseCode(s).Some?
  {
    if Currency.ParseCode(s).Some? {
      Currency.CodeStringRoundTrip(Currency.ParseCode(s).value);
    }
  }

  /** What `request.json()` gives: it throws, or yields a non-object or an object. */
  datatype RequestBody = Malformed | NonObject | Object(fields: map<string, Json>)

  /** `updateCurrencySchema.safeParse(body)` */
  function ValidateCurrency(body: RequestBody): (r: Option<Currency.Code>)
    ensures r.Some? <==> body.Object? && "currency" in body.fields && body.fields["currency"].Str?
                         && body.fields["currency"].s in AcceptedCodes
    ensures r.Some? ==> Currency.CodeString(r.value) == body.fields["currency"].s
  {
    if body.Object? && "currency" in body.fields && body.fields["currency"].Str?
       && body.fields["currency"].s in AcceptedCodes
    then
      AcceptedCodesAreCurrencyType(body.fields["currency"].s);
      Currency.ParseCode(body.fields["currency"].s)
    else None
  }

  /** `db.user.update({ where: { clerkUserId }, data: { currency } })`; `None` when no row matches. */
  function SetCurrencyOf(users: seq<User>, clerkUserId: string, c: Currency.Code): (r: Option<seq<User>>)
    ensures r.None? <==> FindUserByClerkId(users, clerkUserId).None?
    ensures r.Some? ==> |r.value| == |users|
    ensures r.Some? ==>
      && (forall k :: 0 <= k < |users| && users[k].clerkUserId != clerkUserId ==> r.value[k] == users[k])
      && (forall k :: 0 <= k < |users| && users[k].clerkUserId == clerkUserId ==>
            r.value[k] == users[k] || r.value[k] == users[k].(currency := Some(c)))
      && FindUserByClerkId(r.value, clerkUserId) == Some(FindUserByClerkId(users, clerkUserId).value.(currency := Some(c)))
  {
    match UserIndexByClerkId(users, clerkUserId)
    case None => None
    case Some(i) =>
      var r := users[i := users[i].(currency := Some(c))];
      assert UserIndexByClerkId(r, clerkUserId) == Some(i) by {
        var j := UserIndexByClerkId(r, clerkUserId);
        assert forall k :: 0 <= k < i ==> r[k] == users[k];
        assert r[i].clerkUserId == clerkUserId;
      }
      Some(r)
  }

  const InternalError := ErrorReply(500, "Internal server error")

  const RejectedCode := Response(400, map["error" := Str("Invalid currency code"), "details" := Other])

  lemma RejectedCodeHasNoMessage()
    ensures "message" !in RejectedCode.body && !Ok(RejectedCode)
  {
  }

  function Updated(c: Currency.Code): (r: Response)
    ensures Ok(r) && "message" in r.body
  {
    Reply(map["message" := Str("Currency updated successfully"), "currency" := Str(Currency.CodeString(c))])
  }

  /** `PATCH`: the session's profile, the request body, and how the store calls fail. */
  method Patch(db: Db, profile: Option<CheckUser.ClerkUser>, body: RequestBody,
               checkFault: CheckUser.Fault, updateFails: bool)
    returns (resp: Response)
    requires db.Valid()
    modifies db`users, db`nextId
    ensures db.Valid()
    ensures profile.None? ==> resp == ErrorReply(401, "Unauthorized") && db.users == old(db.users) && db.nextId == old(db.nextId)
    ensures profile.Some? && body.Malformed? ==> resp == InternalError && db.users == old(db.users) && db.nextId == old(db.nextId)
    ensures profile.Some? && !body.Malformed? && ValidateCurrency(body).None? ==>
      resp == RejectedCode && db.users == old(db.users) && db.nextId == old(db.nextId)
    ensures profile.Some? && ValidateCurrency(body).Some? ==>
      var c := ValidateCurrency(body).value;
      var id := profile.value.id;
      var found := FindUserByClerkId(old(db.users), id).Some?;
      var created := !found && checkFault == CheckUser.NoFault && profile.value.emailAddresses != [];
      && (resp == InternalError || resp == Updated(c))
      && (resp == Updated(c) <==> !updateFails && (found || created))
      && (found && resp == Updated(c) ==> db.users == SetCurrencyOf(old(db.users), id, c).value)
      && (created && resp == Updated(c) ==>
            db.users == old(db.users) + [CheckUser.NewUserRow(old(db.nextId), profile.value).(currency := Some(c))])
      && (created && resp == InternalError ==>
            db.users == old(db.users) + [CheckUser.NewUserRow(old(db.nextId), profile.value)])
      && (!created && resp == InternalError ==> db.users == old(db.users))
      && (resp == Updated(c) ==> FindUserByClerkId(db.users, id).Some?
                                 && FindUserByClerkId(db.users, id).value.currency == Some(c))
      && (updateFails ==> resp == InternalError)
      && |old(db.users)| <= |db.users| <= |old(db.users)| + 1
      && (forall k :: 0 <= k < |old(db.users)| && old(db.users)[k].clerkUserId != id ==>
            db.users[k] == old(db.users)[k])
    ensures !Ok(resp) ==> "message" !in resp.body
  {
    if profile.None? {
      return ErrorReply(401, "Unauthorized");
    }
    if body.Malformed? {
      return InternalError;
    }
    var code := ValidateCurrency(body);
    if code.None? {
      return RejectedCode;
    }
    var c := code.value;
    ghost var before := db.users;
    var created := CheckUser.CheckUser(db, profile, checkFault);
    assert forall k :: 0 <= k < |before| ==> db.users[k] == before[k];
    if FindUserByClerkId(before, profile.value.id).None? && created.Some? {
      CheckUser.FoundAfterInsert(before, created.value);
      SetCurrencyOfNewRow(before, created.value, c);
    }
    resp := StoreCurrency(db, profile.value.id, c, updateFails);
  }

  /** Updating the row just inserted for a new Clerk id appends that row with the currency set. */
  lemma SetCurrencyOfNewRow(users: seq<User>, row: User, c: Currency.Code)
    requires FindUserByClerkId(users, row.clerkUserId).None?
    ensures SetCurrencyOf(users + [row], row.clerkUserId, c) == Some(users + [row.(currency := Some(c))])
  {
    var s := users + [row];
    assert s[|users|] == row;
    assert UserIndexByClerkId(s, row.clerkUserId) == Some(|users|);
    assert s[|users| := row.(currency := Some(c))] == users + [row.(currency := Some(c))];
  }

  /** The update after `checkUser()`: a failing write or a missing row becomes a 500. */
  method StoreCurrency(db: Db, clerkUserId: string, c: Currency.Code, updateFails: bool)
    returns (resp: Response)
    requires db.Valid()
    modifies db`users
    ensures db.Valid()
    ensures resp == InternalError || resp == Updated(c)
    ensures resp == InternalError <==> updateFails || FindUserByClerkId(old(db.users), clerkUserId).None?
    ensures resp == InternalError ==> db.users == old(db.users)
    ensures resp == Updated(c) ==> db.users == SetCurrencyOf(old(db.users), clerkUserId, c).value
  {
    if updateFails {
      return InternalError;
    }
    var updated := SetCurrencyOf(db.users, clerkUserId, c);
    if updated.None? {
      // the update finds no row and throws
      return InternalError;
    }
    SetCurrencyKeepsValid(db.users, db.accounts, db.transactions, db.budgets, db.nextId, clerkUserId, c);
    db.users := updated.value;
    return Updated(c);
  }

  /** Changing a user's currency keeps ids, Clerk ids and budget owners. */
  lemma SetCurrencyKeepsValid(users: seq<User>, accounts: seq<Account>, txs: seq<Transaction>,
                              budgets: seq<Budget>, nextId: nat, clerkUserId: string, c: Currency.Code)
    requires ValidTables(users, accounts, txs, budgets, nextId)
    requires SetCurrencyOf(users, clerkUserId, c).Some?
    ensures ValidTables(users, accounts, txs, budgets, nextId) &&
            ValidTables(SetCurrencyOf(users, clerkUserId, c).value, accounts, txs, budgets, nextId)
  {
    var r := SetCurrencyOf(users, clerkUserId, c).value;
    assert forall k :: 0 <= k < |r| ==> r[k].id == users[k].id && r[k].clerkUserId == users[k].clerkUserId;
    forall i | 0 <= i < |budgets| ensures FindUserById(r, budgets[i].userId).Some? {
      var owner := FindUserById(users, budgets[i].userId).value;
      var k :| 0 <= k < |users| && users[k] == owner;
      assert r[k].id == budgets[i].userId;
    }
  }

  /** The stored currency as JSON: its code, or null when unset. */
  function CurrencyJson(c: Option<Currency.Code>): Json {
    match c
    case Some(code) => Str(Currency.CodeString(code))
    case None => Null
  }

  /** `GET`: 401 without a session, 404 without a user row, else the stored currency. */
  method Get(db: Db, session: Option<string>, queryFails: bool) returns (resp: Response)
    ensures session.None? ==> resp == ErrorReply(401, "Unauthorized")
    ensures session.Some? && queryFails ==> resp == InternalError
    ensures session.Some? && !queryFails ==>
      match FindUserByClerkId(db.users, session.value)
      case None => resp == ErrorReply(404, "User not found")
      case Some(u) => resp == Reply(map["currency" := CurrencyJson(u.currency)])
    ensures !Ok(resp) ==> "message" !in resp.body
  {
    if session.None? {
      return ErrorReply(401, "Unauthorized");
    }
    if queryFails {
      return InternalError;
    }
    var user := FindUserByClerkId(db.users, session.value);
    if user.None? {
      return ErrorReply(404, "User not found");
    }
    return Reply(map["currency" := CurrencyJson(user.value.currency)]);
  }
}
