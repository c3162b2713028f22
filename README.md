# Chingu core, modelled in Dafny

Chingu is a personal-finance web app. Users sign in, keep accounts and transactions, pick a display currency, and set a monthly budget. A scheduled job e-mails a user who has spent at least 80% of that budget, once per calendar month.

This project models the logic behind those features and proves what it promises:

- **The budget-alert job** (`BudgetAlert`). It covers the calendar it uses (`Calendar`): JavaScript `new Date(y, m, d)` normalisation, leap years, and the month's last day.
- **The form validators** (`Schema`).
- **The currency table and its helpers** (`Currency`).
- **The client-side currency store** (`CurrencyStore`), the provider that initialises it (`CurrencyProvider`), and the `/api/user/currency` route (`CurrencyRoute`).
- **The amount display component** (`CurrencyDisplay`).
- **The server actions on store tables** (`Dashboard`, `Accounts`, `Transactions`) and the find-or-create of the user row (`CheckUser`).
- **The request-state hook** (`UseFetch`) and the job client's retry backoff (`InngestClient`).

The model's shape:

- **Database.** `Store.Db` is a class whose table fields (`users`, `accounts`, `transactions`, `budgets`) are sequences of rows. The actions update them in place. `Db.Valid()` holds the store's own guarantees: unique ids in every table (budgets included), unique Clerk ids, and that every budget's owner exists. Every action preserves it.
- **Outside world.** The session, the Clerk profile, the clock, parsed request bodies, network outcomes and store failures are all inputs.
- **Library calls.** `parseFloat`, `Number()`, `Intl.NumberFormat` and `toFixed` are function parameters.
- **Money.** Amounts are integers of minor units.
- **Numbers.** JavaScript numbers are `JsNumber` (NaN or an exact real).

Where the code and the design description disagree, the model follows the code:

- **Alert stamp.** The design asks that `lastAlertSent` be written only after a successful e-mail. The code calls `sendEmail`, which swallows delivery failures, and then always writes `lastAlertSent`. `BudgetAlert.CheckBudget` stamps every alert that was attempted.
- **Error text.** The route's error bodies use the key `error`, but the client store reads `message`. So a refused currency update always shows the text "Failed to update currency" (`CurrencyStore.MessagelessReplyShowsFallback`, with `CurrencyRoute.Patch`).
- **Spending window.** It ends at midnight at the start of the month's last day, compared inclusively. Expenses later on that last day are not counted (`BudgetAlert.SpendingWindowIsMonthToLastMidnight`).
- **Per-budget isolation.** The design expects a failure in one budget's check not to stop the others. The loop has no `try`/`catch`, so a throwing aggregate or stamp fails the step and the run (see "Left out").
- **`sucess` key.** `deleteTransaction` reports success under the misspelled key `sucess`, so a successful result has no `success` key (`Transactions.Deleted`).

## Model

| member | source | states |
|---|---|---|
| Calendar.DaysInMonth | lib/innngest/functions.ts:44 | month lengths are 28..31; February has 29 days exactly in leap years; April, June, September and November have 30 |
| Calendar.NewDate | lib/innngest/functions.ts:43-44 | `new Date(y, m, d)` is always at midnight, and an in-range month and day give exactly that date |
| Calendar.NormalizeDay | lib/innngest/functions.ts:44 | the result is a valid date at midnight, and a day within the month is kept as it is |
| Calendar.NewDateMonthCarry | lib/innngest/functions.ts:44 | month m + 12 of year y is month m of year y + 1, so a month outside 0..11 carries into the year |
| Calendar.DayRollsForward | lib/innngest/functions.ts:44 | a day past the month's end becomes that many days into the next month, across the December carry |
| Calendar.DayRollsBack | lib/innngest/functions.ts:44 | a day before the first counts back from the end of the previous month; day 0 is that month's last day |
| Calendar.FirstOfMonth | lib/innngest/functions.ts:43 | `new Date(y, m, 1)` is midnight of the first of month m |
| Calendar.LastOfMonth | lib/innngest/functions.ts:44 | `new Date(y, m + 1, 0)` is midnight at the start of month m's last day, including the December carry into January |
| Calendar.EarlierMonthIsEarlier | lib/innngest/functions.ts:51-54 | any instant of an earlier calendar month orders before any instant of a later one |
| Calendar.MonthIndexInjective | lib/innngest/functions.ts:107-112 | two instants have the same month number iff they share month and year |
| BudgetAlert.IsNewMonth | lib/innngest/functions.ts:107-112 | true exactly when the two instants lie in different calendar months (by month and year) |
| BudgetAlert.IsNewMonthSymmetric | lib/innngest/functions.ts:107-112 | the test does not depend on argument order |
| BudgetAlert.SpendingWindowIsMonthToLastMidnight | lib/innngest/functions.ts:43-54 | a date is in the queried window iff it is in the current month and before its last day, or exactly at that day's midnight |
| BudgetAlert.MonthlyExpenses | lib/innngest/functions.ts:47-63 | a null sum (no matching row) counts as 0 |
| BudgetAlert.MonthlyExpensesAppend | lib/innngest/functions.ts:47-63 | the monthly sum is additive over the table |
| BudgetAlert.OneMoreRow | lib/innngest/functions.ts:47-56 | a row adds its amount iff it is an EXPENSE of that user on that account inside the window |
| BudgetAlert.ThresholdIsPercentUsed | lib/innngest/functions.ts:64-71 | the integer test `spent*100 >= 80*limit` (reversed for a negative limit) equals the percentage test `(spent/limit)*100 >= 80` |
| BudgetAlert.DefaultAccount | lib/innngest/functions.ts:34 | the account found is a default account of the owner; none is found iff the owner has no default account |
| BudgetAlert.Evaluate | lib/innngest/functions.ts:33-72 | skipped without a default account; no check on a zero limit; otherwise spending is summed on the default account and the alert decision is `shouldSendAlert` |
| BudgetAlert.AfterEvaluation | lib/innngest/functions.ts:74-96 | the budget row changes only in `lastAlertSent`, which becomes now exactly when an alert fires |
| BudgetAlert.AlertFor | lib/innngest/functions.ts:80-90 | an e-mail is produced exactly when the alert fires |
| BudgetAlert.NoDefaultAccountSkipped | lib/innngest/functions.ts:34-35 | without a default account there is no e-mail and no write |
| BudgetAlert.ZeroLimitIsQuiet | lib/innngest/functions.ts:64-65 | a zero limit sends nothing and writes nothing |
| BudgetAlert.AlertedThisMonthIsQuiet | lib/innngest/functions.ts:72-96 | a budget stamped this month sends nothing and is not written, whatever the spending |
| BudgetAlert.FiresIff | lib/innngest/functions.ts:64-72 | for a positive limit an alert fires iff `spent*100 >= 80*limit` and no alert was stamped in the current month |
| BudgetAlert.QuietForRestOfMonth | lib/innngest/functions.ts:70-96 | after a stamp in month m, any number of runs in m send nothing and leave the row unchanged |
| BudgetAlert.AtMostOneAlertPerMonth | lib/innngest/functions.ts:70-96 | any number of runs within one calendar month send at most one alert per budget |
| BudgetAlert.ExactlyOneAlertWhenFirstRunFires | lib/innngest/functions.ts:70-96 | when the month's first run fires, the month has exactly one alert and one write, stamped with that run's time |
| BudgetAlert.EvaluatedBudgets | lib/innngest/functions.ts:33-99 | the budget table after a run is each row after its own evaluation |
| BudgetAlert.AlertEmails | lib/innngest/functions.ts:74-91 | a run sends at most one e-mail per budget |
| BudgetAlert.StampBudget | lib/innngest/functions.ts:93-96 | the update by id stamps exactly the rows with that id |
| BudgetAlert.StampAt | lib/innngest/functions.ts:93-96 | with unique ids, the update by id changes only that budget's position |
| BudgetAlert.AlertEmailsStep | lib/innngest/functions.ts:33-99 | each budget appends its alert, if any, after those of earlier budgets |
| BudgetAlert.Mailer.SendEmail | actions/send-email.ts:8-21 | every call is recorded as an attempt; no failure reaches the caller |
| BudgetAlert.CheckBudget | lib/innngest/functions.ts:34-97 | one step: the budget row becomes its evaluation's result, and its alert, if any, is sent before the stamp |
| BudgetAlert.CheckAllBudgets | lib/innngest/functions.ts:33-99 | the loop leaves every budget evaluated and has sent all alerts in budget order |
| BudgetAlert.CheckBudgetAlert | lib/innngest/functions.ts:12-101 | the handler: the budget table becomes `EvaluatedBudgets`, e-mails are the run's alerts in order, and the store stays valid |
| Schema.NonEmpty | lib/schema.ts:4-6 | `min(1)` reports an issue iff the string is empty and never aborts the object |
| Schema.EnumField | lib/schema.ts:5-15 | a required enum has no issue iff it is present and listed; its issue aborts the object |
| Schema.Combine | lib/schema.ts:3-28 | the object has no field issue iff no field has one, and is aborted iff some field aborted |
| Schema.CombineIssuesFrom | lib/schema.ts:11-28 | every collected issue is some field's issue |
| Schema.CombineIssuesKept | lib/schema.ts:11-28 | every field's issue is collected |
| Schema.ParseAccountType | lib/schema.ts:5 | exactly CURRENT and SAVINGS are account types |
| Schema.AccountSchema | lib/schema.ts:3-9 | accepted iff name and balance are non-empty and type is CURRENT or SAVINGS; the data copies the inputs, and isDefault defaults to false; rejected inputs have issues only on name, type or balance |
| Schema.ParseTransactionType | lib/schema.ts:13 | exactly INCOME and EXPENSE are transaction types |
| Schema.ParseInterval | lib/schema.ts:27 | exactly DAILY, WEEKLY, MONTHLY and YEARLY are intervals |
| Schema.AmountField | lib/schema.ts:16-21 | an amount has no issue iff it is non-empty and its `Number()` value is a number above 0 |
| Schema.DateField | lib/schema.ts:23 | a missing date is an aborting issue |
| Schema.IntervalField | lib/schema.ts:27 | an absent interval is fine; an unlisted one is an aborting issue |
| Schema.TransactionSchema | lib/schema.ts:11-41 | accepted iff type is listed, amount is a positive number, category and account are non-empty, a date is given, the interval (if any) is listed, and a recurring transaction has an interval; the data copies the inputs with isRecurring defaulting to false |
| Schema.RecurringNeedsInterval | lib/schema.ts:29-40 | a recurring transaction without interval fails with the refine's issue on path `recurringInterval`, its only issue when all fields are valid |
| Schema.NonRecurringMayCarryInterval | lib/schema.ts:31-35 | a valid non-recurring transaction with an interval is accepted and keeps it |
| Schema.BadAmountRejected | lib/schema.ts:16-21 | an empty, non-numeric or non-positive amount is rejected with an issue on `amount` |
| Schema.EmptyAmountTwoIssues | lib/schema.ts:16-21 | an empty amount gets both the required and the positive-number issue |
| Currency.Currencies | lib/currency.ts:3-80 | each entry's code is its key; every symbol is non-empty and has no digit, '.' or '-' |
| Currency.ParseCode | lib/currency.ts:1 | recognises exactly the ten code strings |
| Currency.CodeStringRoundTrip | lib/currency.ts:1 | the code strings are distinct and read back to their code |
| Currency.TableIsComplete | lib/currency.ts:1-80 | the table's keys are exactly the ten currencies, in declaration order, each entry's code equal to its key |
| Currency.DecimalsRule | lib/currency.ts:38-44 | JPY has 0 decimals and the other nine have 2 |
| Currency.SymbolsNotDistinct | lib/currency.ts:38-72 | JPY and CNY are distinct codes with the same symbol '¥' |
| Currency.FormatCurrency | lib/currency.ts:84-110 | a NaN amount gives the symbol followed by "0.00"; otherwise the Intl text, or symbol plus `toFixed(decimals)` when Intl throws |
| Currency.FormatCurrencyCompact | lib/currency.ts:112-120 | compact formatting has the same NaN fallback |
| Currency.NaNFallbackForYen | lib/currency.ts:89-93 | a non-numeric yen amount shows "¥0.00", two decimals although JPY has none |
| Currency.KeepAmountChars | lib/currency.ts:124 | the result has only digits, '.' and '-', each kept as many times as in the input |
| Currency.KeepAmountCharsAppend | lib/currency.ts:124 | the filter keeps the original order |
| Currency.KeepAmountCharsIdentity | lib/currency.ts:124 | a string of only kept characters is unchanged |
| Currency.KeepAmountCharsNone | lib/currency.ts:124 | a string with no kept character becomes empty |
| Currency.SymbolPrefixIgnored | lib/currency.ts:122-127 | a currency symbol in front of the amount does not change the parsed value |
| Currency.ParseCurrencyAmount | lib/currency.ts:122-127 | the value parsed from the filtered text, 0 when that is NaN |
| Currency.GetCurrencySymbol | lib/currency.ts:129-131 | the table symbol of a known code, '$' otherwise |
| Currency.GetCurrencyList | lib/currency.ts:133-139 | ten entries in table order, each copying code, name and symbol |
| JsNumbers.Abs | components/ui/currency.tsx:36 | `Math.abs` keeps NaN and gives a non-negative value of the same magnitude |
| Store.FirstIndex | lib/innngest/functions.ts:34 | the first position satisfying the condition, or none when no position does |
| Store.UserIndexByClerkId | lib/check-user.ts:10-14 | the first row with that Clerk id, or none when no row has it |
| Store.FindUserByClerkId | lib/check-user.ts:10-14 | the row found has that Clerk id; none is found iff no row has it |
| Store.FindUserById | lib/innngest/functions.ts:21-27 | the budget's owner row by id |
| Store.FindOwnedAccount | actions/accounts.ts:27-35 | the account with that id and owner; none found iff no row has both |
| Store.FindOwnedTransaction | actions/transactions.ts:19-21 | the transaction with that id and owner; none found iff no row has both |
| Store.Authenticate | actions/accounts.ts:9-18 | Unauthorized iff no session, UserNotFound iff no row for the session's Clerk id, else that row |
| Store.ClearDefaults | actions/accounts.ts:22-25 | the user's rows lose their default flag and nothing else; other users' rows are unchanged |
| Store.ClearDefaultsLeavesNone | actions/accounts.ts:22-25 | after clearing, the user has no default account |
| Store.DefaultCountZero | actions/accounts.ts:22-25 | a zero default count means no default account of the user |
| Store.AccountCountZero | actions/dashboard.ts:35-41 | `existingAccounts.length === 0` iff the user owns no account |
| Store.OnlyDefaultCountsOne | actions/accounts.ts:22-35 | a user's sole default account is counted once |
| Store.PrependSorted | actions/dashboard.ts:111-114 | a row no older than all rows of a date-descending list keeps it sorted when put in front |
| Store.InsertByDateDesc | actions/dashboard.ts:111-114 | insertion keeps date-descending order and adds exactly the row |
| Store.SortByDateDesc | actions/dashboard.ts:111-114 | `orderBy: { date: "desc" }`: sorted newest first, a permutation of its input |
| Store.UserTransactions | actions/dashboard.ts:111-113 | exactly the user's rows, with their multiplicities |
| Store.AccountTransactions | actions/accounts.ts:65-70 | exactly the account's rows, with their multiplicities |
| Store.BudgetOwnersKept | lib/innngest/functions.ts:93-96 | rewriting budgets without changing their ids or owners keeps the store valid, budget ids included |
| Store.Db.constructor | lib/check-user.ts:10-29 | an empty store is valid |
| CheckUser.TrimStart | lib/check-user.ts:20 | removes exactly the leading white space |
| CheckUser.TrimEnd | lib/check-user.ts:20 | removes exactly the trailing white space |
| CheckUser.TrimStartFixed | lib/check-user.ts:20 | a string not starting with white space is unchanged by the leading trim |
| CheckUser.TrimEndFixed | lib/check-user.ts:20 | a string not ending with white space is unchanged by the trailing trim |
| CheckUser.Trim | lib/check-user.ts:20 | `trim()` is the middle of the string between white space at both ends and starts and ends with non-space |
| CheckUser.TrimIdempotent | lib/check-user.ts:20 | trimming twice equals trimming once |
| CheckUser.FullName | lib/check-user.ts:20 | first and last name are joined by a single space |
| CheckUser.FirstNameOnly | lib/check-user.ts:20 | without a last name the trailing space is dropped |
| CheckUser.NoNames | lib/check-user.ts:20 | without either name the stored name is empty |
| CheckUser.NewUserRow | lib/check-user.ts:22-29 | a new row has the Clerk id, `imageUrl` defaulting to "", the first e-mail address and no currency |
| CheckUser.FoundAfterInsert | lib/check-user.ts:10-18 | after the insert, looking up the Clerk id finds the new row |
| CheckUser.AddUserValid | lib/check-user.ts:22-29 | inserting a row with a fresh id and a new Clerk id keeps the store valid |
| CheckUser.CheckUser | lib/check-user.ts:4-36 | null when signed out or on any store error; the existing row when there is one; otherwise exactly one new row, which is returned |
| CheckUser.CheckUserTwice | lib/check-user.ts:10-31 | a second call returns the row of the first; the table ends unchanged or with the first call's row appended, so the second call inserts nothing |
| Dashboard.FirstAccountIsDefault | actions/dashboard.ts:35-41 | a user's first account is default whatever was requested |
| Dashboard.LaterAccountTakesRequest | actions/dashboard.ts:41 | later accounts are default iff requested |
| Dashboard.NewDefaultIsOnly | actions/dashboard.ts:44-58 | a new default account is the user's only default |
| Dashboard.NonDefaultLeavesRows | actions/dashboard.ts:44-49 | a non-default account leaves existing rows untouched |
| Dashboard.OtherUsersUntouched | actions/dashboard.ts:44-49 | other users' accounts are never touched |
| Dashboard.CreateKeepsAtMostOneDefault | actions/dashboard.ts:35-58 | no user ends with two default accounts |
| Dashboard.ClearDefaultsKeepsValid | actions/dashboard.ts:44-49 | clearing defaults keeps the store valid |
| Dashboard.AddAccountValid | actions/dashboard.ts:51-58 | inserting an account with the next id keeps the store valid |
| Dashboard.CreateAccount | actions/dashboard.ts:16-68 | throws Unauthorized, User Not Found or Invalid balance amount with no write; otherwise inserts the row with the computed default flag after clearing defaults; a failed insert rethrows its message and leaves the defaults cleared |
| Dashboard.GetDashboardData | actions/dashboard.ts:101-120 | undefined when signed out, without a user row or on error; otherwise the caller's transactions newest first |
| Dashboard.DashboardShowsOwnRows | actions/dashboard.ts:111-116 | the dashboard holds exactly the caller's rows |
| Accounts.FindAfterClear | actions/accounts.ts:22-35 | the first write does not change which row the second write targets |
| Accounts.SetDefault | actions/accounts.ts:22-35 | the two writes keep the number of accounts |
| Accounts.TargetIsOnlyDefault | actions/accounts.ts:22-35 | an owned target ends as the user's only default |
| Accounts.MissingTargetLeavesNoDefault | actions/accounts.ts:22-44 | a missing or foreign target leaves the user with no default account at all |
| Accounts.SetDefaultOthersUnchanged | actions/accounts.ts:22-31 | other users' accounts are unchanged |
| Accounts.ClearDefaultsIdle | actions/accounts.ts:22-25 | clearing a table without the user's defaults changes nothing |
| Accounts.SetDefaultIdempotent | actions/accounts.ts:22-35 | making the same account default twice leaves the state of doing it once |
| Accounts.SetDefaultKeepsValid | actions/accounts.ts:22-35 | the two writes keep the store valid |
| Accounts.UpdateDefaultAccount | actions/accounts.ts:7-45 | auth failures return `success:false` with the message and no write; otherwise defaults are cleared and the owned target is set, and a missing target fails with the clear kept |
| Accounts.GetAccountWithTransactions | actions/accounts.ts:47-81 | null when signed out, missing, not owned or on error; otherwise the account with its own transactions newest first and their count |
| Transactions.Failed | actions/transactions.ts:25-27 | a failure result has `success:false` and the message |
| Transactions.RemoveAt | actions/transactions.ts:19-21 | the table loses exactly that one row |
| Transactions.RemoveOnlyTarget | actions/transactions.ts:19-21 | with unique ids, exactly the rows with another id remain |
| Transactions.RemoveKeepsValid | actions/transactions.ts:19-21 | deleting a row keeps the store valid |
| Transactions.DeleteTransaction | actions/transactions.ts:6-28 | auth failures return their message; only the row matching both id and caller is removed; no match removes nothing and fails; success is reported under `sucess` |
| Transactions.OthersRowsNotDeletable | actions/transactions.ts:19-27 | another user's transaction id matches no row of the caller |
| InngestClient.RetryFunction | lib/innngest/client.ts:6-9 | the delay is a positive whole number of seconds and maxAttempts is 5 |
| InngestClient.FirstDelay | lib/innngest/client.ts:7 | attempt 0 waits 1000 ms |
| InngestClient.DelayDoubles | lib/innngest/client.ts:7 | each attempt waits twice as long as the previous |
| InngestClient.DelayIncreasing | lib/innngest/client.ts:7 | delays are strictly increasing |
| InngestClient.DelayScales | lib/innngest/client.ts:7 | k more attempts wait 2^k times as long |
| Http.Reply | app/api/user/currency/route.ts:52-55 | a default reply is ok |
| Http.ErrorReply | app/api/user/currency/route.ts:17-20 | an error reply carries `error` and no `message` |
| CurrencyStore.ErrorDataMessage | hooks/use-currency-store.ts:52-55 | the reply's non-empty string `message`; 'Failed to update currency' when `message` is absent, empty or not a string |
| CurrencyStore.CaughtMessage | hooks/use-currency-store.ts:58-59 | an Error's message, else 'Unknown error occurred' |
| CurrencyStore.UpdateError | hooks/use-currency-store.ts:40-60 | an update ends without error iff the server replied ok |
| CurrencyStore.MessagelessReplyShowsFallback | hooks/use-currency-store.ts:52-55 | a refused reply without `message` shows the fallback text |
| CurrencyStore.CurrencyStore.constructor | hooks/use-currency-store.ts:22-31 | initial state: USD, not loading, no error |
| CurrencyStore.CurrencyStore.SetCurrency | hooks/use-currency-store.ts:33-35 | sets the currency, clears the error, keeps loading |
| CurrencyStore.CurrencyStore.SetLoading | hooks/use-currency-store.ts:73-75 | sets only the loading flag |
| CurrencyStore.CurrencyStore.SetError | hooks/use-currency-store.ts:77-79 | sets only the error |
| CurrencyStore.CurrencyStore.InitializeCurrency | hooks/use-currency-store.ts:67-71 | no currency changes nothing; a currency is set and clears the error |
| CurrencyStore.CurrencyStore.Reset | hooks/use-currency-store.ts:81-83 | back to USD, not loading, no error |
| CurrencyStore.CurrencyStore.UpdateUserCurrency | hooks/use-currency-store.ts:37-65 | an ok reply sets the currency with no error; otherwise the currency stays and the error is recorded; loading ends false; nothing is rethrown |
| CurrencyStore.CurrencyStore.Persisted | hooks/use-currency-store.ts:85-91 | only the currency is persisted |
| CurrencyStore.PersistIgnoresTransientFields | hooks/use-currency-store.ts:85-91 | stores differing only in loading or error persist alike |
| CurrencyRoute.AcceptedCodesAreCurrencyType | app/api/user/currency/route.ts:8-10 | the accepted codes are exactly the `Currency` type's ten codes |
| CurrencyRoute.ValidateCurrency | app/api/user/currency/route.ts:24-33 | accepted iff the body is an object whose `currency` is one of the listed strings; the code read is that string |
| CurrencyRoute.SetCurrencyOf | app/api/user/currency/route.ts:39-50 | fails iff no row has the Clerk id; otherwise only that row gets the currency |
| CurrencyRoute.RejectedCodeHasNoMessage | app/api/user/currency/route.ts:26-31 | the 400 body has no `message` |
| CurrencyRoute.Updated | app/api/user/currency/route.ts:52-55 | the success reply is ok and carries a message |
| CurrencyRoute.Patch | app/api/user/currency/route.ts:12-65 | 401 without session, 500 on malformed JSON, 400 on an invalid code, each without a write. For a valid code the reply is the success echo exactly when the update does not fail and the caller has a row, either found or just inserted by `checkUser()`. The final user table is given in every case: the currency set on the found row, the inserted row with the currency, or the inserted row alone after a failed update. Error replies have no `message` |
| CurrencyRoute.SetCurrencyOfNewRow | app/api/user/currency/route.ts:36-50 | updating the row `checkUser()` just appended appends it with the currency set |
| CurrencyRoute.StoreCurrency | app/api/user/currency/route.ts:39-64 | a failed or targetless update is a 500 with no write; otherwise the row gets the currency and the reply echoes it |
| CurrencyRoute.SetCurrencyKeepsValid | app/api/user/currency/route.ts:39-50 | changing a currency keeps the store valid |
| CurrencyRoute.Get | app/api/user/currency/route.ts:67-106 | 401 without session, 500 on error, 404 without user row, else `{currency}` |
| CurrencyProvider.InitialChoice | components/providers/currency-provider.tsx:21-39 | signed in with an ok reply: the server's currency or USD; otherwise `initialCurrency` or USD |
| CurrencyProvider.FallbackIsUsd | components/providers/currency-provider.tsx:29-39 | with no initial currency and no server answer the currency is USD |
| CurrencyProvider.Provider.constructor | components/providers/currency-provider.tsx:16 | starts uninitialised |
| CurrencyProvider.Provider.RunEffect | components/providers/currency-provider.tsx:18-46 | nothing before Clerk loads; after, the store currency is overwritten with the resolved one, its error cleared, and the provider initialised |
| CurrencyProvider.Provider.Render | components/providers/currency-provider.tsx:49-59 | children render iff initialised, a placeholder otherwise |
| CurrencyProvider.InitializedHook.Effect | components/providers/currency-provider.tsx:63-74 | becomes true once Clerk is loaded and stays true |
| CurrencyDisplay.Sign | components/ui/currency.tsx:38-44 | '-' iff showing signs and negative, '+' iff showing signs and positive, otherwise none |
| CurrencyDisplay.Affix | components/ui/currency.tsx:46-52 | a truthy prefix is put in front with one space and a truthy suffix after with one space, in all four combinations; empty or absent ones add nothing |
| CurrencyDisplay.ColorClass | components/ui/currency.tsx:54-60 | red iff negative, green iff positive, slate otherwise when colourised; empty when not |
| CurrencyDisplay.Display | components/ui/currency.tsx:18-67 | without affixes the text is the formatted magnitude, with '-' or '+' only when signs are shown and the amount is non-zero; a truthy prefix starts the text with it and a space, and a truthy suffix ends it with a space and it (what lies between is given by `DisplayAffixesOutsideSign`); the class is empty iff not colourised, otherwise red, green or slate by sign |
| CurrencyDisplay.FormatIgnoresSign | components/ui/currency.tsx:35-36 | an amount and its negation format alike |
| CurrencyDisplay.NaNAmountShown | components/ui/currency.tsx:31-36 | a NaN amount shows the symbol and "0.00" with no sign and the slate class |
| CurrencyDisplay.IncomeAmount | components/ui/currency.tsx:70-79 | always has a colour class, green for a gain, red for a loss and slate for zero or NaN; without affixes the text is '+', '-' or no sign before the formatted magnitude |
| CurrencyDisplay.ExpenseAmount | components/ui/currency.tsx:81-90 | never green; a non-zero expense is red and a zero or NaN one slate; without affixes the text is '-' before the plain amount's digits, or those digits alone for zero or NaN |
| CurrencyDisplay.DisplayAffixesOutsideSign | components/ui/currency.tsx:38-52 | a display with a prefix or suffix is the display without them wrapped by `Affix`: the affixes go outside the sign, and the colour is unchanged |
| CurrencyDisplay.IncomeAffixesOutsideSign | components/ui/currency.tsx:70-79 | an income with affixes is the unaffixed income wrapped by `Affix`, same colour; so its sign rules hold with affixes too |
| CurrencyDisplay.ExpenseAffixesOutsideSign | components/ui/currency.tsx:81-90 | an expense with affixes is the unaffixed expense wrapped by `Affix`, same colour; so it never shows '+' with affixes either |
| CurrencyDisplay.BalanceAmount | components/ui/currency.tsx:92-100 | the same text as the plain display, the sign left to the caller's `showSign`; always coloured, red iff negative and green iff positive |
| CurrencyDisplay.SignedBalanceIsIncome | components/ui/currency.tsx:70-100 | a balance shown with its sign is exactly the income display of that amount |
| CurrencyDisplay.IncomeAndExpenseMirror | components/ui/currency.tsx:70-90 | for a positive amount without affixes, the income is '+' and green and the expense '-' and red, over the same digits |
| CurrencyDisplay.ExpenseAndIncomeShareDigits | components/ui/currency.tsx:81-90 | an expense formats the same digits as the plain amount |
| UseFetch.FetchHook.constructor | hooks/use-fetch.ts:7-9 | starts with no data, not loading, no error |
| UseFetch.FetchHook.Start | hooks/use-fetch.ts:12-13 | `fn` begins by clearing the error and setting loading |
| UseFetch.FetchHook.Settle | hooks/use-fetch.ts:15-27 | success stores and returns the value; failure stores the error, keeps data, returns null; loading ends false |
| UseFetch.FetchHook.Fn | hooks/use-fetch.ts:11-28 | the whole call: success leaves the value and no error, failure leaves the error and the old data; never rethrows |

## Left out

- Recurring transactions (materialisation, next dates, monthly reports): the core's code does not implement them.
- Presentation-only UI, the HTML e-mail template with its floating-point percentages, and the `Math.random` seed data.
- The Resend mail client, the authentication middleware, the bot and rate-limit rules, and job registration. The mail call is modelled as a recorded attempt whose failure is swallowed.
- `getUserAccounts` and `CompactCurrency`: neither is among the modelled operations. `CompactCurrency` only adds `compact` to `CurrencyDisplay`, which `Display` covers.
- Library semantics are parameters, not models: `Intl.NumberFormat`, `parseFloat`, `Number()` and `toFixed`. JavaScript numbers are exact reals or NaN; infinities and rounding are not modelled.
- Money is integer minor units; the store's decimal type and float conversions are not modelled.
- Time zones and the clock: instants are (year, month, day, millisecond of day) in one local zone. A job run is modelled with one clock value, `now`. The source reads the clock again in every budget's step and once more for the stamp, so one run can straddle a month boundary. The model does not capture a run in which budgets see different months, or whose stamp falls in the month after the one checked.
- Row ids are natural numbers rather than generated strings. ORM "record not found" texts are the `notFound` input.
- A failing store call is an input only where a path depends on it:
  - check-user lookup and insert;
  - the account insert;
  - the currency update;
  - the GET queries;
  - the dashboard and account reads.

  Failures of the other lookups in the actions are not modelled.
- `Dashboard.CreateAccount`: a failure of the default-clearing `updateMany` is not modelled.
- `Accounts.UpdateDefaultAccount`: a failure of its first write (the clear) is not modelled.
- Store failures in the budget job are not modelled: the fetch of budgets, the aggregate, and the stamp update. The loop has no `try`/`catch`, so one throwing step fails the whole run rather than that budget alone.
- `BudgetAlert.AtMostOneAlertPerMonth`: holds only when every stamp write succeeds. A stamp update that fails after `sendEmail` fails the step. The scheduler then retries the step, and the retry sends the alert again.
- `UseFetch.FetchHook.Fn`: the thrown value is an object, as the core's callbacks throw only `Error`s. A callback that rejects with `null` or `undefined` makes the `error.message` read in the catch throw, so the source's `fn` rejects, after `setError` and the `finally`'s `setLoading(false)`. The model does not capture that rejection.
- `CurrencyStore.ErrorDataMessage`: a truthy `message` that is not a string (a number, say) becomes the error text via `new Error(...)` in the source. The model has no string conversion of such values and shows the fallback text; the route never sends a `message` in an error reply.
- zod internals: issue codes, paths beyond the field name, and the `details` array (modelled as an opaque value). Type errors for inputs of the wrong JavaScript type are not modelled; inputs carry the types the forms send.
- `CurrencyProvider.InitialChoice`: the server's currency is modelled as one of the ten codes or null, as the user table stores it. A reply with another string is not modelled.
- React re-rendering and effect re-runs, `revalidatePath`, toasts, console logs, `localStorage` rehydration of the store, and the job scheduler's step, cron and retry execution.
- Concurrency between jobs or requests. `Db` operations run one at a time.
- `InngestClient.RetryFunction`: attempts are natural numbers; floating-point overflow of `Math.pow` for very large attempts is not modelled.
