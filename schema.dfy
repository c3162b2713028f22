/**
 * The form validators (lib/schema.ts), as zod runs them: every field is
 * checked in declaration order and its issues collected; a wrong enum value or
 * a missing required value makes the object invalid outright, and only when no
 * field did so does the object-level `refine` run and possibly add its issue.
 * Inputs arrive with the JavaScript types the forms give them; a missing
 * enum, date or optional value is `None`.
 */
module Schema {
  import opened Wrappers
  import opened Calendar
  import opened JsNumbers
  import opened Store

  /** A zod issue: the offending field and its message. */
  datatype Issue = Issue(path: string, message: string)

  datatype Parsed<T> = Success(data: T) | Failure(issues: seq<Issue>)

  /** What one field contributes: its issues, and whether it aborts the object. */
  datatype FieldCheck = FieldCheck(issues: seq<Issue>, aborted: bool)

  /** `z.string().min(1, message)`: a short string is an issue that does not abort. */
  function NonEmpty(path: string, value: string, message: string): (c: FieldCheck)
    ensures !c.aborted
    ensures c.issues == [] <==> |value| >= 1
  {
    FieldCheck(if |value| >= 1 then [] else [Issue(path, message)], false)
  }

  /** zod's message for a value outside a `z.enum`. */
  function EnumMessage(expected: string, received: string): string {
    "Invalid enum value. Expected " + expected + ", received '" + received + "'"
  }

  /** A required `z.enum`: absent or unlisted aborts. */
  function EnumField(path: string, value: Option<string>, valid: bool, expected: string, requiredMessage: string): (c: FieldCheck)
    ensures c.issues == [] <==> value.Some? && valid
    ensures c.aborted <==> c.issues != []
  {
    if value.None? then FieldCheck([Issue(path, requiredMessage)], true)
    else if valid then FieldCheck([], false)
    else FieldCheck([Issue(path, EnumMessage(expected, value.value))], true)
  }

  /** The issues of several fields together. */
  function Combine(checks: seq<FieldCheck>): (c: FieldCheck)
    ensures c.issues == [] <==> forall k :: 0 <= k < |checks| ==> checks[k].issues == []
    ensures c.aborted <==> exists k :: 0 <= k < |checks| && checks[k].aborted
  {
    if checks == [] then FieldCheck([], false)
    else
      var rest := Combine(checks[1..]);
      assert forall k :: 1 <= k < |checks| ==> checks[k] == checks[1..][k - 1];
      FieldCheck(checks[0].issues + rest.issues, checks[0].aborted || rest.aborted)
  }

  /** Every issue of a combination comes from one of the fields. */
  lemma {:induction false} CombineIssuesFrom(checks: seq<FieldCheck>, i: Issue)
    requires i in Combine(checks).issues
    ensures exists k :: 0 <= k < |checks| && i in checks[k].issues
  {
    if i !in checks[0].issues {
      CombineIssuesFrom(checks[1..], i);
      var k :| 0 <= k < |checks[1..]| && i in checks[1..][k].issues;
      assert i in checks[k + 1].issues;
    }
  }

  /** Every issue of a field is an issue of the combination. */
  lemma {:induction false} CombineIssuesKept(checks: seq<FieldCheck>, k: nat, i: Issue)
    requires k < |checks| && i in checks[k].issues
    ensures i in Combine(checks).issues
  {
    if k > 0 {
      assert checks[1..][k - 1] == checks[k];
      CombineIssuesKept(checks[1..], k - 1, i);
    }
  }

  // ---- accountSchema ----

  datatype AccountInput = AccountInput(name: string, accountType: Option<string>, balance: string,
                                       isDefault: Option<bool>)

  datatype AccountData = AccountData(name: string, accountType: AccountType, balance: string, isDefault: bool)

  function ParseAccountType(s: string): (r: Option<AccountType>)
    ensures r.Some? <==> s == "CURRENT" || s == "SAVINGS"
  {
    if s == "CURRENT" then Some(CURRENT) else if s == "SAVINGS" then Some(SAVINGS) else None
  }

  function AccountChecks(input: AccountInput): seq<FieldCheck> {
    [ NonEmpty("name", input.name, "Name is required"),
      EnumField("type", input.accountType,
                input.accountType.Some? && ParseAccountType(input.accountType.value).Some?,
                "'CURRENT' | 'SAVINGS'", "Required"),
      NonEmpty("balance", input.balance, "Initial Balance is required") ]
  }

  /** `accountSchema.safeParse(input)` */
  function AccountSchema(input: AccountInput): (r: Parsed<AccountData>)
    ensures r.Success? <==>
      && |input.name| >= 1
      && input.accountType.Some? && (input.accountType.value == "CURRENT" || input.accountType.value == "SAVINGS")
      && |input.balance| >= 1
    ensures r.Success? ==>
      && r.data.name == input.name && r.data.balance == input.balance
      && ParseAccountType(input.accountType.value) == Some(r.data.accountType)
      && r.data.isDefault == input.isDefault.GetOr(false)
    ensures r.Failure? ==> r.issues != []
    ensures r.Failure? ==> forall i :: i in r.issues ==> i.path == "name" || i.path == "type" || i.path == "balance"
  {
    var checks := AccountChecks(input);
    var all := Combine(checks);
    if all.issues != [] then
      assert !(checks[0].issues == [] && checks[1].issues == [] && checks[2].issues == []);
      assert forall i :: i in all.issues ==> i.path == "name" || i.path == "type" || i.path == "balance" by {
        forall i | i in all.issues ensures i.path == "name" || i.path == "type" || i.path == "balance" {
          CombineIssuesFrom(checks, i);
        }
      }
      Failure(all.issues)
    else
      assert checks[0].issues == [] && checks[1].issues == [] && checks[2].issues == [];
      Success(AccountData(input.name, ParseAccountType(input.accountType.value).value, input.balance,
                          input.isDefault.GetOr(false)))
  }

  // ---- transactionSchema ----

  datatype TransactionInput = TransactionInput(
    txType: Option<string>, amount: string, category: string, date: Option<Instant>,
    accountId: string, description: Option<string>, isRecurring: Option<bool>,
    recurringInterval: Option<string>)

  datatype TransactionData = TransactionData(
    txType: TransactionType, amount: string, category: string, date: Instant,
    accountId: string, description: Option<string>, isRecurring: bool,
    recurringInterval: Option<RecurringInterval>)

  function ParseTransactionType(s: string): (r: Option<TransactionType>)
    ensures r.Some? <==> s == "INCOME" || s == "EXPENSE"
  {
    if s == "INCOME" then Some(INCOME) else if s == "EXPENSE" then Some(EXPENSE) else None
  }

  function ParseInterval(s: string): (r: Option<RecurringInterval>)
    ensures r.Some? <==> s == "DAILY" || s == "WEEKLY" || s == "MONTHLY" || s == "YEARLY"
  {
    if s == "DAILY" then Some(DAILY)
    else if s == "WEEKLY" then Some(WEEKLY)
    else if s == "MONTHLY" then Some(MONTHLY)
    else if s == "YEARLY" then Some(YEARLY)
    else None
  }

  /** `!isNaN(Number(val)) && Number(val) > 0`; `toNumber` is JavaScript's `Number()`. */
  predicate IsPositiveNumber(value: string, toNumber: string -> JsNumber) {
    toNumber(value).Num? && toNumber(value).value > 0.0
  }

  /** `z.string().min(1, ...).refine(...)`: both checks run, neither aborts. */
  function AmountField(value: string, toNumber: string -> JsNumber): (c: FieldCheck)
    ensures !c.aborted
    ensures c.issues == [] <==> |value| >= 1 && IsPositiveNumber(value, toNumber)
  {
    FieldCheck((if |value| >= 1 then [] else [Issue("amount", "Amount is required")])
               + (if IsPositiveNumber(value, toNumber) then [] else [Issue("amount", "Amount must be a valid positive number")]),
               false)
  }

  /** A required `z.date`: absence aborts. */
  function DateField(value: Option<Instant>): (c: FieldCheck)
    ensures c.issues == [] <==> value.Some?
    ensures c.aborted <==> value.None?
  {
    if value.Some? then FieldCheck([], false) else FieldCheck([Issue("date", "Please select a date.")], true)
  }

  /** An optional `z.enum`: absence is fine, an unlisted value aborts. */
  function IntervalField(value: Option<string>): (c: FieldCheck)
    ensures c.issues == [] <==> value.None? || ParseInterval(value.value).Some?
    ensures c.aborted <==> c.issues != []
  {
    if value.None? || ParseInterval(value.value).Some? then FieldCheck([], false)
    else FieldCheck([Issue("recurringInterval", EnumMessage("'DAILY' | 'WEEKLY' | 'MONTHLY' | 'YEARLY'", value.value))], true)
  }

  function TransactionChecks(input: TransactionInput, toNumber: string -> JsNumber): seq<FieldCheck> {
    [ EnumField("type", input.txType,
                input.txType.Some? && ParseTransactionType(input.txType.value).Some?,
                "'INCOME' | 'EXPENSE'", "Transaction type is required."),
      AmountField(input.amount, toNumber),
      NonEmpty("category", input.category, "Category is required."),
      DateField(input.date),
      NonEmpty("accountId", input.accountId, "Please select an account."),
      IntervalField(input.recurringInterval) ]
  }

  /** The object-level `refine`: a recurring transaction needs an interval. */
  predicate HasIntervalIfRecurring(isRecurring: bool, recurringInterval: Option<string>) {
    !(isRecurring && recurringInterval.None?)
  }

  const IntervalRequired := Issue("recurringInterval", "Frequency is required for recurring transactions.")

  /** `transactionSchema.safeParse(input)` */
  function TransactionSchema(input: TransactionInput, toNumber: string -> JsNumber): (r: Parsed<TransactionData>)
    ensures r.Success? <==>
      && input.txType.Some? && ParseTransactionType(input.txType.value).Some?
      && |input.amount| >= 1 && IsPositiveNumber(input.amount, toNumber)
      && |input.category| >= 1
      && input.date.Some?
      && |input.accountId| >= 1
      && (input.recurringInterval.None? || ParseInterval(input.recurringInterval.value).Some?)
      && HasIntervalIfRecurring(input.isRecurring.GetOr(false), input.recurringInterval)
    ensures r.Success? ==>
      && Some(r.data.txType) == ParseTransactionType(input.txType.value)
      && r.data.amount == input.amount && r.data.category == input.category
      && r.data.date == input.date.value && r.data.accountId == input.accountId
      && r.data.description == input.description
      && r.data.isRecurring == input.isRecurring.GetOr(false)
      && (r.data.recurringInterval.Some? <==> input.recurringInterval.Some?)
      && (input.recurringInterval.Some? ==> Some(r.data.recurringInterval.value) == ParseInterval(input.recurringInterval.value))
    ensures r.Failure? ==> r.issues != []
  {
    var checks := TransactionChecks(input, toNumber);
    var fields := Combine(checks);
    var isRecurring := input.isRecurring.GetOr(false);
    var issues := fields.issues
      + (if !fields.aborted && !HasIntervalIfRecurring(isRecurring, input.recurringInterval) then [IntervalRequired] else []);
    if issues != [] then
      Failure(issues)
    else
      assert checks[0].issues == [] && checks[1].issues == [] && checks[2].issues == [];
      assert checks[3].issues == [] && checks[4].issues == [] && checks[5].issues == [];
      Success(TransactionData(
        ParseTransactionType(input.txType.value).value, input.amount, input.category, input.date.value,
        input.accountId, input.description, isRecurring,
        if input.recurringInterval.Some? then ParseInterval(input.recurringInterval.value) else None))
  }

  /**
   * A recurring transaction without an interval fails with the refine's issue
   * on `recurringInterval`, unless a field aborted first; with every field
   * valid that issue is the only one.
   */
  lemma RecurringNeedsInterval(input: TransactionInput, toNumber: string -> JsNumber)
    requires input.isRecurring == Some(true) && input.recurringInterval.None?
    requires !Combine(TransactionChecks(input, toNumber)).aborted
    ensures TransactionSchema(input, toNumber).Failure?
    ensures IntervalRequired in TransactionSchema(input, toNumber).issues
    ensures IntervalRequired.path == "recurringInterval"
    ensures Combine(TransactionChecks(input, toNumber)).issues == [] ==>
      TransactionSchema(input, toNumber).issues == [IntervalRequired]
  {
  }

  /** A valid non-recurring transaction is accepted even when it carries an interval. */
  lemma NonRecurringMayCarryInterval(input: TransactionInput, toNumber: string -> JsNumber)
    requires input.isRecurring != Some(true) && input.recurringInterval.Some?
    requires Combine(TransactionChecks(input, toNumber)).issues == []
    ensures TransactionSchema(input, toNumber).Success?
    ensures !TransactionSchema(input, toNumber).data.isRecurring
    ensures TransactionSchema(input, toNumber).data.recurringInterval.Some?
  {
  }

  /** An empty, non-numeric or non-positive amount is rejected with an issue on `amount`. */
  lemma BadAmountRejected(input: TransactionInput, toNumber: string -> JsNumber)
    requires |input.amount| == 0 || !IsPositiveNumber(input.amount, toNumber)
    ensures TransactionSchema(input, toNumber).Failure?
    ensures exists i :: i in TransactionSchema(input, toNumber).issues && i.path == "amount"
  {
    var checks := TransactionChecks(input, toNumber);
    var i := if |input.amount| == 0 then Issue("amount", "Amount is required")
             else Issue("amount", "Amount must be a valid positive number");
    assert i in checks[1].issues;
    CombineIssuesKept(checks, 1, i);
  }

  /** An empty amount draws both amount issues: `min(1)` does not stop the `refine` from running. */
  lemma EmptyAmountTwoIssues(input: TransactionInput, toNumber: string -> JsNumber)
    requires input.amount == "" && !IsPositiveNumber("", toNumber)
    ensures AmountField(input.amount, toNumber).issues
         == [Issue("amount", "Amount is required"), Issue("amount", "Amount must be a valid positive number")]
  {
  }
}
