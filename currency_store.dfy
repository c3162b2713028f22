/**
 * The client's currency store (hooks/use-currency-store.ts): the selected
 * currency, whether an update is in flight, and the last error. Each action
 * of the store is a method that updates the fields in place; the network call
 * of `updateUserCurrency` is replaced by its outcome.
 */
module CurrencyStore {
  import opened Wrappers
  import opened Currency
  import opened Http

  /** A value a `catch` block can receive: an `Error` with its message, or anything else. */
  datatype Thrown = ErrorObject(message: string) | NonError

  /** What `fetch` of the PATCH endpoint gives: a thrown value, or a response. */
  datatype FetchOutcome = Rejected(thrown: Thrown) | Responded(response: Response, jsonThrows: Option<Thrown>)

  /** `errorData.message || 'Failed to update currency'` */
  function ErrorDataMessage(body: map<string, Json>): (m: string)
    ensures "message" in body && body["message"].Str? && body["message"].s != "" ==> m == body["message"].s
    ensures "message" !in body ==> m == "Failed to update currency"
    ensures "message" in body && (!body["message"].Str? || body["message"].s == "") ==> m == "Failed to update currency"
    ensures m != ""
  {
    if "message" in body && body["message"].Str? && body["message"].s != "" then body["message"].s
    else "Failed to update currency"
  }

  /** `error instanceof Error ? error.message : 'Unknown error occurred'` */
  function CaughtMessage(t: Thrown): (m: string)
    ensures t.NonError? ==> m == "Unknown error occurred"
    ensures t.ErrorObject? ==> m == t.message
  {
    match t
    case ErrorObject(message) => message
    case NonError => "Unknown error occurred"
  }

  /** The error an update ends with, or `None` when the server accepted it. */
  function UpdateError(outcome: FetchOutcome): (e: Option<string>)
    ensures e.None? <==> outcome.Responded? && Ok(outcome.response)
  {
    match outcome
    case Rejected(t) => Some(CaughtMessage(t))
    case Responded(response, jsonThrows) =>
      if Ok(response) then None
      else if jsonThrows.Some? then Some(CaughtMessage(jsonThrows.value))
      else Some(ErrorDataMessage(response.body))
  }

  /** A refused update whose reply carries no `message` shows the fallback text. */
  lemma MessagelessReplyShowsFallback(response: Response)
    requires !Ok(response) && "message" !in response.body
    ensures UpdateError(Responded(response, None)) == Some("Failed to update currency")
  {
  }

  /** What `partialize` keeps in local storage. */
  datatype PersistedState = PersistedState(currency: Code)

  class CurrencyStore {
    var currency: Code
    var isLoading: bool
    var error: Option<string>

    /** The store as `initialState` creates it. */
    constructor ()
      ensures currency == DefaultCurrency && currency == USD && !isLoading && error.None?
    {
      currency, isLoading, error := DefaultCurrency, false, None;
    }

    method SetCurrency(c: Code)
      modifies this
      ensures currency == c && error.None? && isLoading == old(isLoading)
    {
      currency, error := c, None;
    }

    method SetLoading(loading: bool)
      modifies this
      ensures isLoading == loading && currency == old(currency) && error == old(error)
    {
      isLoading := loading;
    }

    method SetError(e: Option<string>)
      modifies this
      ensures error == e && currency == old(currency) && isLoading == old(isLoading)
    {
      error := e;
    }

    /** `initializeCurrency(currency?)`: an absent currency changes nothing. */
    method InitializeCurrency(c: Option<Code>)
      modifies this
      ensures c.None? ==> currency == old(currency) && error == old(error)
      ensures c.Some? ==> currency == c.value && error.None?
      ensures isLoading == old(isLoading)
    {
      if c.Some? {
        currency, error := c.value, None;
      }
    }

    method Reset()
      modifies this
      ensures currency == DefaultCurrency && !isLoading && error.None?
    {
      currency, isLoading, error := DefaultCurrency, false, None;
    }

    /**
     * `updateUserCurrency(c)`: the currency changes only when the server
     * accepts it; otherwise the error is recorded. Nothing is rethrown, and
     * loading ends false either way.
     */
    method UpdateUserCurrency(c: Code, outcome: FetchOutcome)
      modifies this
      ensures error == UpdateError(outcome)
      ensures currency == (if UpdateError(outcome).None? then c else old(currency))
      ensures !isLoading
    {
      SetLoading(true);
      SetError(None);
      var failure := UpdateError(outcome);
      if failure.None? {
        SetCurrency(c);
      } else {
        SetError(failure);
      }
      SetLoading(false);
    }

    /** `partialize`: only the currency is persisted. */
    function Persisted(): (p: PersistedState)
      reads this
      ensures p.currency == currency
    {
      PersistedState(currency)
    }
  }

  /** Loading and error never reach local storage: stores differing only there persist alike. */
  lemma PersistIgnoresTransientFields(a: CurrencyStore, b: CurrencyStore)
    requires a.currency == b.currency
    ensures a.Persisted() == b.Persisted()
  {
  }
}
