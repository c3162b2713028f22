/**
 * The currency provider (components/providers/currency-provider.tsx): once
 * Clerk has loaded, it resolves the starting currency, writes it into the
 * store and lets its children render. The effect's inputs are whether Clerk
 * has loaded, whether a user is signed in, and what the GET request gave.
 */
module CurrencyProvider {
  import opened Wrappers
  import opened Currency
  import CurrencyStore

  /**
   * What `fetch('/api/user/currency')` and `response.json()` give: a thrown
   * value, a refused reply, or an accepted one with the stored currency (null
   * when the user has none).
   */
  datatype FetchResult = Threw | NotOk | Accepted(currency: Option<Code>)

  /**
   * The currency `initCurrency` hands to `initializeCurrency`: the server's
   * when signed in and accepted (USD when it is null), else `initialCurrency`
   * or USD.
   */
  function InitialChoice(signedIn: bool, initialCurrency: Option<Code>, fetched: FetchResult): (c: Code)
    ensures signedIn && fetched.Accepted? ==> c == fetched.currency.GetOr(DefaultCurrency)
    ensures !(signedIn && fetched.Accepted?) ==> c == initialCurrency.GetOr(DefaultCurrency)
  {
    if signedIn then
      match fetched
      case Accepted(currency) => currency.GetOr(DefaultCurrency)
      case NotOk => initialCurrency.GetOr(DefaultCurrency)
      case Threw => initialCurrency.GetOr(DefaultCurrency)
    else initialCurrency.GetOr(DefaultCurrency)
  }

  /** Without an `initialCurrency` and without the server's answer, the store starts at USD. */
  lemma FallbackIsUsd(signedIn: bool, fetched: FetchResult)
    requires !(signedIn && fetched.Accepted?)
    ensures InitialChoice(signedIn, None, fetched) == USD
  {
  }

  /** What the provider renders. */
  datatype View = Placeholder | Children

  class Provider {
    var isInitialized: bool
    const store: CurrencyStore.CurrencyStore

    constructor (store: CurrencyStore.CurrencyStore)
      ensures this.store == store && !isInitialized
    {
      this.store := store;
      isInitialized := false;
    }

    /**
     * The effect: nothing happens before Clerk has loaded; afterwards every
     * branch overwrites the store's currency and then marks the provider
     * initialised.
     */
    method RunEffect(isLoaded: bool, signedIn: bool, initialCurrency: Option<Code>, fetched: FetchResult)
      modifies this, store
      ensures !isLoaded ==>
        isInitialized == old(isInitialized) && store.currency == old(store.currency) && store.error == old(store.error)
      ensures isLoaded ==>
        isInitialized && store.currency == InitialChoice(signedIn, initialCurrency, fetched) && store.error.None?
      ensures store.isLoading == old(store.isLoading)
    {
      if !isLoaded {
        return;
      }
      var c := InitialChoice(signedIn, initialCurrency, fetched);
      store.InitializeCurrency(Some(c));
      isInitialized := true;
    }

    /** Children render only once initialised; until then a placeholder shows. */
    function Render(): (v: View)
      reads this
      ensures v == Children <==> isInitialized
    {
      if isInitialized then Children else Placeholder
    }
  }

  /** `useCurrencyInitialized()`: true from the first effect run that sees Clerk loaded. */
  class InitializedHook {
    var isInitialized: bool

    constructor ()
      ensures !isInitialized
    {
      isInitialized := false;
    }

    method Effect(isLoaded: bool)
      modifies this
      ensures isInitialized == (old(isInitialized) || isLoaded)
    {
      if isLoaded {
        isInitialized := true;
      }
    }
  }
}
