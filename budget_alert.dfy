/**
 * The scheduled budget check (lib/innngest/functions.ts): for every budget,
 * sum the owner's expenses on their default account for the current month
 * and e-mail an alert when at least 80% of the limit is used, at most once
 * per calendar month, stamping `lastAlertSent` after the e-mail call.
 *
 * The clock is the parameter `now`: the instant the job reads both for the
 * month window and for the `lastAlertSent` it writes.
 */
module BudgetAlert {
  import opened Wrappers
  import opened Calendar
  import opened Store

  /** `isNewMonth(lastAlertSent, currentDate)` */
  function IsNewMonth(lastAlertSent: Instant, currentDate: Instant): (r: bool)
    ensures r <==> MonthIndex(lastAlertSent) != MonthIndex(currentDate)
  {
    MonthIndexInjective(lastAlertSent, currentDate);
    lastAlertSent.month != currentDate.month || lastAlertSent.year != currentDate.year
  }

  /** Whether two instants are in a new month to each other does not depend on their order. */
  lemma IsNewMonthSymmetric(a: Instant, b: Instant)
    ensures IsNewMonth(a, b) == IsNewMonth(b, a)
  {
  }

  /** `startOfMonth = new Date(y, m, 1)` */
  function StartOfMonth(now: Instant): Instant {
    NewDate(now.year, now.month, 1)
  }

  /** `endOfMonth = new Date(y, m + 1, 0)` */
  function EndOfMonth(now: Instant): Instant {
    NewDate(now.year, now.month + 1, 0)
  }

  /** `date: { gte: startOfMonth, lte: endOfMonth }` */
  predicate InSpendingWindow(t: Instant, now: Instant) {
    Ordinal(StartOfMonth(now)) <= Ordinal(t) <= Ordinal(EndOfMonth(now))
  }

  /**
   * The window holds exactly the instants of the current calendar month up to
   * midnight at the start of its last day: anything later on the last day is
   * outside it.
   */
  lemma SpendingWindowIsMonthToLastMidnight(t: Instant, now: Instant)
    ensures InSpendingWindow(t, now) <==>
      && t.year == now.year && t.month == now.month
      && (t.day < DaysInMonth(now.year, now.month) || t.ms == 0)
  {
    FirstOfMonth(now.year, now.month);
    LastOfMonth(now.year, now.month);
    var start, end := StartOfMonth(now), EndOfMonth(now);
    assert MonthIndex(start) == MonthIndex(now) == MonthIndex(end);
    MonthIndexInjective(t, now);
    if MonthIndex(t) < MonthIndex(now) {
      EarlierMonthIsEarlier(t, start);
    } else if MonthIndex(t) > MonthIndex(now) {
      EarlierMonthIsEarlier(end, t);
    }
  }

  /** The rows the aggregate sums: the user's EXPENSE rows on that account inside the window. */
  predicate IsCountedExpense(tx: Transaction, userId: Id, accountId: Id, now: Instant) {
    && tx.userId == userId
    && tx.txType == EXPENSE
    && InSpendingWindow(tx.date, now)
    && tx.accountId == accountId
  }

  /** `Number(aggregate(_sum: amount)) || 0`: a sum over no rows is null, which counts as 0. */
  function MonthlyExpenses(txs: seq<Transaction>, userId: Id, accountId: Id, now: Instant): (spent: int)
    ensures (forall k :: 0 <= k < |txs| ==> !IsCountedExpense(txs[k], userId, accountId, now)) ==> spent == 0
  {
    if txs == [] then 0
    else
      (if IsCountedExpense(txs[0], userId, accountId, now) then txs[0].amount else 0)
      + MonthlyExpenses(txs[1..], userId, accountId, now)
  }

  /** The sum is additive over the table. */
  lemma {:induction false} MonthlyExpensesAppend(a: seq<Transaction>, b: seq<Transaction>, userId: Id, accountId: Id, now: Instant)
    ensures MonthlyExpenses(a + b, userId, accountId, now)
         == MonthlyExpenses(a, userId, accountId, now) + MonthlyExpenses(b, userId, accountId, now)
  {
    if a == [] {
      assert a + b == b;
    } else {
      assert (a + b)[0] == a[0];
      assert (a + b)[1..] == a[1..] + b;
      MonthlyExpensesAppend(a[1..], b, userId, accountId, now);
    }
  }

  /**
   * A row adds its amount exactly when it is a counted expense: an income,
   * another user's or another account's row, or one outside the window
   * changes nothing.
   */
  lemma OneMoreRow(txs: seq<Transaction>, tx: Transaction, userId: Id, accountId: Id, now: Instant)
    ensures MonthlyExpenses(txs + [tx], userId, accountId, now)
         == MonthlyExpenses(txs, userId, accountId, now)
            + (if IsCountedExpense(tx, userId, accountId, now) then tx.amount else 0)
  {
    MonthlyExpensesAppend(txs, [tx], userId, accountId, now);
  }

  /**
   * `(spent / limit) * 100 >= 80` in integers; the limit is non-zero because
   * the job returns early on a zero limit.
   */
  predicate ThresholdReached(spent: int, limit: int)
    requires limit != 0
  {
    if limit > 0 then spent * 100 >= 80 * limit else spent * 100 <= 80 * limit
  }

  /** Multiplying by a positive number keeps an inequality. */
  lemma ScalePositive(x: real, y: real, f: real)
    requires f > 0.0
    ensures x >= y <==> x * f >= y * f
  {
    assert (x - y) * f == x * f - y * f;
    if x >= y {
      assert (x - y) * f >= 0.0;
    } else {
      assert (y - x) * f > 0.0;
    }
  }

  /** The integer test is the source's percentage test, computed exactly. */
  lemma ThresholdIsPercentUsed(spent: int, limit: int)
    requires limit != 0
    ensures ThresholdReached(spent, limit) <==> (spent as real / limit as real) * 100.0 >= 80.0
  {
    var l := limit as real;
    var q := spent as real / l;
    assert q * l == spent as real;
    assert (q * 100.0) * l == spent as real * 100.0;
    if limit > 0 {
      ScalePositive(q * 100.0, 80.0, l);
    } else {
      ScalePositive(q * 100.0, 80.0, -l);
      assert (q * 100.0) * -l == -(spent as real * 100.0);
    }
  }

  /** `shouldSendAlert` */
  predicate ShouldSendAlert(spent: int, limit: int, lastAlertSent: Option<Instant>, now: Instant)
    requires limit != 0
  {
    ThresholdReached(spent, limit) && (lastAlertSent.None? || IsNewMonth(lastAlertSent.value, now))
  }

  /** `budget.user.accounts[0]` with `where: { isDefault: true }`: the owner's first default account. */
  function DefaultAccount(accounts: seq<Account>, userId: Id): (r: Option<Account>)
    ensures r.Some? ==> r.value in accounts && r.value.userId == userId && r.value.isDefault
    ensures r.None? <==> forall k :: 0 <= k < |accounts| ==> !(accounts[k].userId == userId && accounts[k].isDefault)
  {
    match FirstIndex(accounts, (a: Account) => a.userId == userId && a.isDefault)
    case Some(i) => Some(accounts[i])
    case None => None
  }

  /** What one iteration of the loop decides for one budget. */
  datatype Evaluation =
    | NoDefaultAccount                                       // `continue`: nothing queried, sent or written
    | NoLimit(account: Account, spent: int)                  // `if (limit === 0) return`
    | Checked(account: Account, spent: int, limit: int, sendAlert: bool)
  {
    predicate Fires() { Checked? && sendAlert }
  }

  function Evaluate(b: Budget, accounts: seq<Account>, txs: seq<Transaction>, now: Instant): (e: Evaluation)
    ensures e.NoDefaultAccount? <==> DefaultAccount(accounts, b.userId).None?
    ensures e.NoLimit? <==> DefaultAccount(accounts, b.userId).Some? && b.amount == 0
    ensures !e.NoDefaultAccount? ==>
      && e.account == DefaultAccount(accounts, b.userId).value
      && e.spent == MonthlyExpenses(txs, b.userId, e.account.id, now)
    ensures e.Checked? ==> e.limit == b.amount != 0 && e.sendAlert == ShouldSendAlert(e.spent, e.limit, b.lastAlertSent, now)
  {
    match DefaultAccount(accounts, b.userId)
    case None => NoDefaultAccount
    case Some(account) =>
      var spent := MonthlyExpenses(txs, b.userId, account.id, now);
      var limit := b.amount;
      if limit == 0 then NoLimit(account, spent)
      else Checked(account, spent, limit, ShouldSendAlert(spent, limit, b.lastAlertSent, now))
  }

  /** The budget row after its iteration: `lastAlertSent := now` exactly when an alert fires. */
  function AfterEvaluation(b: Budget, e: Evaluation, now: Instant): (r: Budget)
    ensures r == b.(lastAlertSent := r.lastAlertSent)
    ensures r.lastAlertSent == if e.Fires() then Some(now) else b.lastAlertSent
  {
    if e.Fires() then b.(lastAlertSent := Some(now)) else b
  }

  /** The message handed to `sendEmail` (the template renders these fields). */
  datatype AlertEmail = AlertEmail(to: string, subject: string, userName: string,
                                   accountName: string, spent: int, limit: int)

  function AlertFor(owner: User, e: Evaluation): (r: Option<AlertEmail>)
    ensures r.Some? <==> e.Fires()
  {
    if e.Fires() then
      Some(AlertEmail(owner.email, "Budget Alert for " + e.account.name, owner.name,
                      e.account.name, e.spent, e.limit))
    else None
  }

  /** A budget whose owner has no default account is skipped: no e-mail and no write. */
  lemma NoDefaultAccountSkipped(b: Budget, owner: User, accounts: seq<Account>, txs: seq<Transaction>, now: Instant)
    requires forall k :: 0 <= k < |accounts| ==> !(accounts[k].userId == b.userId && accounts[k].isDefault)
    ensures Evaluate(b, accounts, txs, now) == NoDefaultAccount
    ensures AfterEvaluation(b, Evaluate(b, accounts, txs, now), now) == b
    ensures AlertFor(owner, Evaluate(b, accounts, txs, now)).None?
  {
  }

  /** A zero limit sends nothing and writes nothing, whatever the spending. */
  lemma ZeroLimitIsQuiet(b: Budget, owner: User, accounts: seq<Account>, txs: seq<Transaction>, now: Instant)
    requires b.amount == 0
    ensures AfterEvaluation(b, Evaluate(b, accounts, txs, now), now) == b
    ensures AlertFor(owner, Evaluate(b, accounts, txs, now)).None?
  {
  }

  /** A budget that already alerted in the current month stays silent and is not written, whatever the spending. */
  lemma AlertedThisMonthIsQuiet(b: Budget, accounts: seq<Account>, txs: seq<Transaction>, now: Instant)
    requires b.lastAlertSent.Some? && MonthIndex(b.lastAlertSent.value) == MonthIndex(now)
    ensures !Evaluate(b, accounts, txs, now).Fires()
    ensures AfterEvaluation(b, Evaluate(b, accounts, txs, now), now) == b
  {
  }

  /** For a positive limit, an alert fires iff 80% is used and none was sent this calendar month. */
  lemma FiresIff(b: Budget, accounts: seq<Account>, txs: seq<Transaction>, now: Instant)
    requires DefaultAccount(accounts, b.userId).Some? && b.amount > 0
    ensures var spent := MonthlyExpenses(txs, b.userId, DefaultAccount(accounts, b.userId).value.id, now);
      Evaluate(b, accounts, txs, now).Fires() <==>
        && spent * 100 >= 80 * b.amount
        && (b.lastAlertSent.None? || MonthIndex(b.lastAlertSent.value) != MonthIndex(now))
  {
  }

  /** One run of the job as one budget sees it: the clock and the tables it reads. */
  datatype Run = Run(now: Instant, accounts: seq<Account>, txs: seq<Transaction>)

  /** Replays the job over `runs` for one budget: its final row and how many alerts it sent. */
  function Replay(b: Budget, runs: seq<Run>): (Budget, nat)
    decreases |runs|
  {
    if runs == [] then (b, 0)
    else
      var e := Evaluate(b, runs[0].accounts, runs[0].txs, runs[0].now);
      var rest := Replay(AfterEvaluation(b, e, runs[0].now), runs[1..]);
      (rest.0, rest.1 + if e.Fires() then 1 else 0)
  }

  /** Once a budget has alerted in month `m`, runs in month `m` send nothing and write nothing. */
  lemma {:induction false} QuietForRestOfMonth(b: Budget, runs: seq<Run>, m: int)
    requires b.lastAlertSent.Some? && MonthIndex(b.lastAlertSent.value) == m
    requires forall k :: 0 <= k < |runs| ==> MonthIndex(runs[k].now) == m
    ensures Replay(b, runs) == (b, 0)
  {
    if runs != [] {
      AlertedThisMonthIsQuiet(b, runs[0].accounts, runs[0].txs, runs[0].now);
      QuietForRestOfMonth(b, runs[1..], m);
    }
  }

  /** The throttle: however often the job runs within one calendar month, a budget alerts at most once. */
  lemma {:induction false} AtMostOneAlertPerMonth(b: Budget, runs: seq<Run>, m: int)
    requires forall k :: 0 <= k < |runs| ==> MonthIndex(runs[k].now) == m
    ensures Replay(b, runs).1 <= 1
  {
    if runs != [] {
      var e := Evaluate(b, runs[0].accounts, runs[0].txs, runs[0].now);
      if e.Fires() {
        QuietForRestOfMonth(AfterEvaluation(b, e, runs[0].now), runs[1..], m);
      } else {
        AtMostOneAlertPerMonth(b, runs[1..], m);
      }
    }
  }

  /** When the month's first run fires, the month holds exactly one alert and one write, stamped with that run's time. */
  lemma ExactlyOneAlertWhenFirstRunFires(b: Budget, runs: seq<Run>, m: int)
    requires forall k :: 0 <= k < |runs| ==> MonthIndex(runs[k].now) == m
    requires runs != [] && Evaluate(b, runs[0].accounts, runs[0].txs, runs[0].now).Fires()
    ensures Replay(b, runs) == (b.(lastAlertSent := Some(runs[0].now)), 1)
  {
    var e := Evaluate(b, runs[0].accounts, runs[0].txs, runs[0].now);
    QuietForRestOfMonth(AfterEvaluation(b, e, runs[0].now), runs[1..], m);
  }

  /** Every budget's owner is in the user table (the budget-to-user foreign key). */
  ghost predicate OwnersExist(budgets: seq<Budget>, users: seq<User>) {
    forall k :: 0 <= k < |budgets| ==> FindUserById(users, budgets[k].userId).Some?
  }

  /** The budget table after a run. */
  function EvaluatedBudgets(budgets: seq<Budget>, accounts: seq<Account>, txs: seq<Transaction>, now: Instant): (r: seq<Budget>)
    ensures |r| == |budgets|
    ensures forall k :: 0 <= k < |r| ==> r[k] == AfterEvaluation(budgets[k], Evaluate(budgets[k], accounts, txs, now), now)
  {
    seq(|budgets|, k requires 0 <= k < |budgets| =>
      AfterEvaluation(budgets[k], Evaluate(budgets[k], accounts, txs, now), now))
  }

  /** The e-mails a run hands to `sendEmail`, in budget order. */
  function AlertEmails(budgets: seq<Budget>, users: seq<User>, accounts: seq<Account>, txs: seq<Transaction>, now: Instant): (r: seq<AlertEmail>)
    requires OwnersExist(budgets, users)
    ensures |r| <= |budgets|
  {
    if budgets == [] then []
    else
      var n := |budgets| - 1;
      var b := budgets[n];
      var prefix := AlertEmails(budgets[..n], users, accounts, txs, now);
      match AlertFor(FindUserById(users, b.userId).value, Evaluate(b, accounts, txs, now))
      case Some(mail) => prefix + [mail]
      case None => prefix
  }

  /**
   * `sendEmail`: the attempts that reach the mail client, in order. The call
   * swallows delivery failures and returns nothing the job looks at, so an
   * attempt is all the job can observe.
   */
  class Mailer {
    var sent: seq<AlertEmail>

    constructor ()
      ensures sent == []
    {
      sent := [];
    }

    method SendEmail(mail: AlertEmail)
      modifies this
      ensures sent == old(sent) + [mail]
    {
      sent := sent + [mail];
    }
  }

  /** `db.budget.update({ where: { id }, data: { lastAlertSent } })` */
  function StampBudget(budgets: seq<Budget>, id: Id, at: Instant): (r: seq<Budget>)
    ensures |r| == |budgets|
    ensures forall k :: 0 <= k < |r| ==> r[k] == if budgets[k].id == id then budgets[k].(lastAlertSent := Some(at)) else budgets[k]
  {
    seq(|budgets|, k requires 0 <= k < |budgets| =>
      if budgets[k].id == id then budgets[k].(lastAlertSent := Some(at)) else budgets[k])
  }

  /** Stamping by id touches exactly the row at that id's position when ids are unique. */
  lemma StampAt(budgets: seq<Budget>, i: nat, at: Instant)
    requires UniqueBudgetIds(budgets) && i < |budgets|
    ensures StampBudget(budgets, budgets[i].id, at) == budgets[i := budgets[i].(lastAlertSent := Some(at))]
  {
  }

  /** One more budget adds its alert, if any, at the end of the list. */
  lemma AlertEmailsStep(budgets: seq<Budget>, i: nat, users: seq<User>, accounts: seq<Account>, txs: seq<Transaction>, now: Instant)
    requires OwnersExist(budgets, users) && i < |budgets|
    ensures OwnersExist(budgets[..i], users) && OwnersExist(budgets[..i + 1], users)
    ensures AlertEmails(budgets[..i + 1], users, accounts, txs, now)
         == AlertEmails(budgets[..i], users, accounts, txs, now)
            + MailsOf(FindUserById(users, budgets[i].userId).value, Evaluate(budgets[i], accounts, txs, now))
  {
    assert budgets[..i + 1][..i] == budgets[..i];
  }

  /** The alert of one evaluation as a list of zero or one e-mails. */
  function MailsOf(owner: User, e: Evaluation): seq<AlertEmail> {
    match AlertFor(owner, e)
    case Some(mail) => [mail]
    case None => []
  }

  /**
   * The `check-budget-${budget.id}` step for the budget at position `i` of the
   * fetched list: aggregate, decide, e-mail, stamp.
   */
  method CheckBudget(db: Db, mailer: Mailer, budget: Budget, i: nat, now: Instant)
    requires i < |db.budgets| && db.budgets[i] == budget && UniqueBudgetIds(db.budgets)
    requires FindUserById(db.users, budget.userId).Some?
    modifies db`budgets, mailer
    ensures var e := Evaluate(budget, db.accounts, db.transactions, now);
      && db.budgets == old(db.budgets)[i := AfterEvaluation(budget, e, now)]
      && mailer.sent == old(mailer.sent) + MailsOf(FindUserById(db.users, budget.userId).value, e)
  {
    ghost var e := Evaluate(budget, db.accounts, db.transactions, now);
    var defaultAccount := DefaultAccount(db.accounts, budget.userId);
    if defaultAccount.Some? {
      var accountId := defaultAccount.value.id;
      var spent := MonthlyExpenses(db.transactions, budget.userId, accountId, now);
      var limit := budget.amount;
      if limit != 0 {
        if ShouldSendAlert(spent, limit, budget.lastAlertSent, now) {
          var owner := FindUserById(db.users, budget.userId).value;
          mailer.SendEmail(AlertEmail(owner.email, "Budget Alert for " + defaultAccount.value.name, owner.name,
                                      defaultAccount.value.name, spent, limit));
          StampAt(db.budgets, i, now);
          db.budgets := StampBudget(db.budgets, budget.id, now);
        }
      }
    }
  }

  /** The budget table part-way through the loop: the first `i` rows evaluated, the rest as fetched. */
  ghost predicate EvaluatedUpTo(cur: seq<Budget>, budgets: seq<Budget>, i: nat, accounts: seq<Account>, txs: seq<Transaction>, now: Instant) {
    && i <= |budgets| && |cur| == |budgets|
    && (forall k :: 0 <= k < i ==> cur[k] == AfterEvaluation(budgets[k], Evaluate(budgets[k], accounts, txs, now), now))
    && (forall k :: i <= k < |budgets| ==> cur[k] == budgets[k])
  }

  /** Evaluating the next row extends the evaluated prefix by one. */
  lemma EvaluatedUpToStep(cur: seq<Budget>, budgets: seq<Budget>, i: nat, accounts: seq<Account>, txs: seq<Transaction>, now: Instant)
    requires EvaluatedUpTo(cur, budgets, i, accounts, txs, now) && i < |budgets|
    ensures cur[i] == budgets[i]
    ensures EvaluatedUpTo(cur[i := AfterEvaluation(budgets[i], Evaluate(budgets[i], accounts, txs, now), now)],
                          budgets, i + 1, accounts, txs, now)
  {
  }

  /** Part-way through, rows keep their ids and owners, so ids stay unique. */
  lemma EvaluatedUpToKeepsIds(cur: seq<Budget>, budgets: seq<Budget>, i: nat, accounts: seq<Account>, txs: seq<Transaction>, now: Instant)
    requires EvaluatedUpTo(cur, budgets, i, accounts, txs, now) && UniqueBudgetIds(budgets)
    ensures UniqueBudgetIds(cur)
    ensures forall k :: 0 <= k < |cur| ==> cur[k].userId == budgets[k].userId
  {
    assert forall k :: 0 <= k < |cur| ==> cur[k].id == budgets[k].id && cur[k].userId == budgets[k].userId;
  }

  /** Once every row is evaluated the table is the run's result. */
  lemma EvaluatedUpToAll(cur: seq<Budget>, budgets: seq<Budget>, accounts: seq<Account>, txs: seq<Transaction>, now: Instant)
    requires EvaluatedUpTo(cur, budgets, |budgets|, accounts, txs, now)
    ensures cur == EvaluatedBudgets(budgets, accounts, txs, now)
  {
  }

  /** The loop of the handler over the fetched budgets, one step per budget. */
  method CheckAllBudgets(db: Db, mailer: Mailer, now: Instant)
    requires OwnersExist(db.budgets, db.users) && UniqueBudgetIds(db.budgets)
    modifies db`budgets, mailer
    ensures db.budgets == EvaluatedBudgets(old(db.budgets), db.accounts, db.transactions, now)
    ensures mailer.sent == old(mailer.sent) + AlertEmails(old(db.budgets), db.users, db.accounts, db.transactions, now)
  {
    var budgets := db.budgets;
    ghost var start := mailer.sent;
    var i := 0;
    while i < |budgets|
      invariant EvaluatedUpTo(db.budgets, budgets, i, db.accounts, db.transactions, now)
      invariant mailer.sent == start + AlertEmails(budgets[..i], db.users, db.accounts, db.transactions, now)
    {
      AlertEmailsStep(budgets, i, db.users, db.accounts, db.transactions, now);
      EvaluatedUpToKeepsIds(db.budgets, budgets, i, db.accounts, db.transactions, now);
      EvaluatedUpToStep(db.budgets, budgets, i, db.accounts, db.transactions, now);
      ghost var done := AlertEmails(budgets[..i], db.users, db.accounts, db.transactions, now);
      CheckBudget(db, mailer, budgets[i], i, now);
      assert mailer.sent == start + (done + MailsOf(FindUserById(db.users, budgets[i].userId).value,
                                                    Evaluate(budgets[i], db.accounts, db.transactions, now)));
      i := i + 1;
    }
    EvaluatedUpToAll(db.budgets, budgets, db.accounts, db.transactions, now);
    assert budgets[..i] == budgets;
  }

  /**
   * The `checkBudgetAlert` handler. Budgets are fetched once, then handled in
   * order; only `lastAlertSent` of alerted budgets changes, and the alert
   * e-mails go out in budget order, each before its budget's write.
   */
  method CheckBudgetAlert(db: Db, mailer: Mailer, now: Instant)
    requires db.Valid()
    modifies db`budgets, mailer
    ensures db.budgets == EvaluatedBudgets(old(db.budgets), db.accounts, db.transactions, now)
    ensures mailer.sent == old(mailer.sent) + AlertEmails(old(db.budgets), db.users, db.accounts, db.transactions, now)
    ensures db.Valid()
  {
    assert OwnersExist(db.budgets, db.users);
    ghost var before := db.budgets;
    CheckAllBudgets(db, mailer, now);
    assert forall k :: 0 <= k < |before| ==> db.budgets[k].id == before[k].id && db.budgets[k].userId == before[k].userId;
    BudgetOwnersKept(db.users, db.accounts, db.transactions, before, db.budgets, db.nextId);
  }
}
