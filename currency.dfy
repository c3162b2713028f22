/**
 * The currency table and its helpers (lib/currency.ts): ten supported
 * currencies, the default one, formatting with a fallback for non-numeric
 * amounts, and parsing of user-typed amounts.
 *
 * The library calls the helpers rely on (`parseFloat`, `Intl.NumberFormat`,
 * `Number.prototype.toFixed`) are parameters: their results are data here.
 */
module Currency {
  import opened Wrappers
  import opened JsNumbers

  /** The `Currency` union type. */
  datatype Code = USD | EUR | INR | GBP | JPY | CAD | AUD | CHF | CNY | SEK

  /** One entry of the `CURRENCIES` table. */
  datatype Config = Config(code: Code, symbol: string, name: string, locale: string, decimals: nat)

  /** `CURRENCIES[c]`. */
  function Currencies(c: Code): (cfg: Config)
    ensures cfg.code == c
    ensures cfg.symbol != ""
    ensures forall i :: 0 <= i < |cfg.symbol| ==> !IsAmountChar(cfg.symbol[i])
  {
    match c
    case USD => Config(USD, "$", "US Dollar", "en-US", 2)
    case EUR => Config(EUR, "€", "Euro", "en-GB", 2)
    case INR => Config(INR, "₹", "Indian Rupee", "en-IN", 2)
    case GBP => Config(GBP, "£", "British Pound", "en-GB", 2)
    case JPY => Config(JPY, "¥", "Japanese Yen", "ja-JP", 0)
    case CAD => Config(CAD, "C$", "Canadian Dollar", "en-CA", 2)
    case AUD => Config(AUD, "A$", "Australian Dollar", "en-AU", 2)
    case CHF => Config(CHF, "CHF", "Swiss Franc", "de-CH", 2)
    case CNY => Config(CNY, "¥", "Chinese Yuan", "zh-CN", 2)
    case SEK => Config(SEK, "kr", "Swedish Krona", "sv-SE", 2)
  }

  /** The keys of `CURRENCIES` in declaration order, which is the order `Object.values` lists them in. */
  const TableOrder: seq<Code> := [USD, EUR, INR, GBP, JPY, CAD, AUD, CHF, CNY, SEK]

  /** `DEFAULT_CURRENCY`. */
  const DefaultCurrency: Code := USD

  /** The ISO code as the string the JSON bodies and the table keys carry. */
  function CodeString(c: Code): string {
    match c
    case USD => "USD"
    case EUR => "EUR"
    case INR => "INR"
    case GBP => "GBP"
    case JPY => "JPY"
    case CAD => "CAD"
    case AUD => "AUD"
    case CHF => "CHF"
    case CNY => "CNY"
    case SEK => "SEK"
  }

  /** Recognises a key of the table (equivalently, a member of the route's `z.enum` list). */
  function ParseCode(s: string): (r: Option<Code>)
    ensures r.Some? ==> CodeString(r.value) == s
    ensures r.None? ==> forall c: Code :: CodeString(c) != s
  {
    if s == "USD" then Some(USD)
    else if s == "EUR" then Some(EUR)
    else if s == "INR" then Some(INR)
    else if s == "GBP" then Some(GBP)
    else if s == "JPY" then Some(JPY)
    else if s == "CAD" then Some(CAD)
    else if s == "AUD" then Some(AUD)
    else if s == "CHF" then Some(CHF)
    else if s == "CNY" then Some(CNY)
    else if s == "SEK" then Some(SEK)
    else None
  }

  /** Reading back a code's string gives the code: the strings are distinct. */
  lemma CodeStringRoundTrip(c: Code)
    ensures ParseCode(CodeString(c)) == Some(c)
  {
  }

  /** The table has exactly the ten currencies as keys, each entry's code is its key, no key twice. */
  lemma TableIsComplete()
    ensures |TableOrder| == 10
    ensures forall c: Code :: c in TableOrder
    ensures forall i, j :: 0 <= i < j < |TableOrder| ==> TableOrder[i] != TableOrder[j]
    ensures forall c: Code :: Currencies(c).code == c
  {
    forall c: Code ensures c in TableOrder {
      match c
      case USD => assert TableOrder[0] == c;
      case EUR => assert TableOrder[1] == c;
      case INR => assert TableOrder[2] == c;
      case GBP => assert TableOrder[3] == c;
      case JPY => assert TableOrder[4] == c;
      case CAD => assert TableOrder[5] == c;
      case AUD => assert TableOrder[6] == c;
      case CHF => assert TableOrder[7] == c;
      case CNY => assert TableOrder[8] == c;
      case SEK => assert TableOrder[9] == c;
    }
  }

  /** The yen has no minor unit; every other supported currency has two decimals. */
  lemma DecimalsRule(c: Code)
    ensures Currencies(c).decimals == if c == JPY then 0 else 2
  {
  }

  /** Codes are distinct but symbols are not: the yen and the yuan share a symbol. */
  lemma SymbolsNotDistinct()
    ensures JPY != CNY && CodeString(JPY) != CodeString(CNY)
    ensures Currencies(JPY).symbol == Currencies(CNY).symbol == "¥"
  {
  }

  /** The number formatting styles the callers ask `Intl.NumberFormat` for. */
  datatype Notation = Standard | Compact

  /** A `number | string` amount argument. */
  datatype AmountArg = NumberArg(n: JsNumber) | StringArg(s: string)

  /** `typeof amount === 'string' ? parseFloat(amount) : amount` */
  function AmountValue(amount: AmountArg, parseFloat: string -> JsNumber): JsNumber {
    match amount
    case NumberArg(n) => n
    case StringArg(s) => parseFloat(s)
  }

  /**
   * `formatCurrency`. `intl` stands for `Intl.NumberFormat(...).format`, with
   * `None` when it throws; `toFixed` for `Number.prototype.toFixed`.
   */
  function FormatCurrency(amount: AmountArg, currency: Code, notation: Notation,
                          parseFloat: string -> JsNumber,
                          intl: (Config, Notation, real) -> Option<string>,
                          toFixed: (real, nat) -> string): (r: string)
    ensures AmountValue(amount, parseFloat).NaN? ==> r == Currencies(currency).symbol + "0.00"
    ensures AmountValue(amount, parseFloat).Num? ==>
      var v := AmountValue(amount, parseFloat).value;
      var cfg := Currencies(currency);
      r == (match intl(cfg, notation, v)
            case Some(text) => text
            case None => cfg.symbol + toFixed(v, cfg.decimals))
  {
    var num := AmountValue(amount, parseFloat);
    if num.NaN? then
      Currencies(currency).symbol + "0.00"
    else
      var cfg := Currencies(currency);
      match intl(cfg, notation, num.value)
      case Some(text) => text
      case None => cfg.symbol + toFixed(num.value, cfg.decimals)
  }

  /** `formatCurrencyCompact`: the same with compact notation. */
  function FormatCurrencyCompact(amount: AmountArg, currency: Code,
                                 parseFloat: string -> JsNumber,
                                 intl: (Config, Notation, real) -> Option<string>,
                                 toFixed: (real, nat) -> string): (r: string)
    ensures AmountValue(amount, parseFloat).NaN? ==> r == Currencies(currency).symbol + "0.00"
  {
    FormatCurrency(amount, currency, Compact, parseFloat, intl, toFixed)
  }

  /**
   * The non-numeric fallback ignores the currency's own decimals: a yen
   * amount that does not parse is shown with two decimals.
   */
  lemma NaNFallbackForYen(amount: AmountArg, notation: Notation,
                          parseFloat: string -> JsNumber,
                          intl: (Config, Notation, real) -> Option<string>,
                          toFixed: (real, nat) -> string)
    requires AmountValue(amount, parseFloat).NaN?
    ensures Currencies(JPY).decimals == 0
    ensures FormatCurrency(amount, JPY, notation, parseFloat, intl, toFixed) == "¥0.00"
  {
  }

  /** The characters `/[^\d.-]/g` does not remove: ASCII digits, '.' and '-'. */
  predicate IsAmountChar(c: char) {
    ('0' <= c <= '9') || c == '.' || c == '-'
  }

  /** `value.replace(/[^\d.-]/g, '')` */
  function KeepAmountChars(s: string): (r: string)
    ensures |r| <= |s|
    ensures forall i :: 0 <= i < |r| ==> IsAmountChar(r[i])
    ensures forall c :: multiset(r)[c] == if IsAmountChar(c) then multiset(s)[c] else 0
  {
    if s == [] then []
    else
      assert s == [s[0]] + s[1..];
      (if IsAmountChar(s[0]) then [s[0]] else []) + KeepAmountChars(s[1..])
  }

  /** The filter keeps order: filtering a concatenation concatenates the filtered parts. */
  lemma {:induction false} KeepAmountCharsAppend(a: string, b: string)
    ensures KeepAmountChars(a + b) == KeepAmountChars(a) + KeepAmountChars(b)
  {
    if a == [] {
      assert a + b == b;
    } else {
      assert (a + b)[0] == a[0];
      assert (a + b)[1..] == a[1..] + b;
      KeepAmountCharsAppend(a[1..], b);
    }
  }

  /** A string made only of amount characters passes the filter unchanged. */
  lemma {:induction false} KeepAmountCharsIdentity(s: string)
    requires forall i :: 0 <= i < |s| ==> IsAmountChar(s[i])
    ensures KeepAmountChars(s) == s
  {
    if s != [] {
      KeepAmountCharsIdentity(s[1..]);
    }
  }

  /** `parseCurrencyAmount`: filter, `parseFloat`, and 0 for NaN. */
  function ParseCurrencyAmount(value: string, parseFloat: string -> JsNumber): (r: real)
    ensures parseFloat(KeepAmountChars(value)).NaN? ==> r == 0.0
    ensures parseFloat(KeepAmountChars(value)).Num? ==> r == parseFloat(KeepAmountChars(value)).value
  {
    match parseFloat(KeepAmountChars(value))
    case NaN => 0.0
    case Num(v) => v
  }

  /** A string without amount characters is removed entirely. */
  lemma {:induction false} KeepAmountCharsNone(s: string)
    requires forall i :: 0 <= i < |s| ==> !IsAmountChar(s[i])
    ensures KeepAmountChars(s) == []
  {
    if s != [] {
      KeepAmountCharsNone(s[1..]);
    }
  }

  /**
   * No table symbol contains an amount character, so a symbol in front of an
   * amount does not change what is parsed.
   */
  lemma SymbolPrefixIgnored(c: Code, s: string, parseFloat: string -> JsNumber)
    ensures ParseCurrencyAmount(Currencies(c).symbol + s, parseFloat) == ParseCurrencyAmount(s, parseFloat)
  {
    var sym := Currencies(c).symbol;
    KeepAmountCharsNone(sym);
    KeepAmountCharsAppend(sym, s);
    assert KeepAmountChars(sym + s) == KeepAmountChars(s);
  }

  /** `getCurrencySymbol`: the table symbol of a known code, '$' for anything else. */
  function GetCurrencySymbol(currency: string): (r: string)
    ensures ParseCode(currency).Some? ==> r == Currencies(ParseCode(currency).value).symbol
    ensures ParseCode(currency).None? ==> r == "$"
  {
    match ParseCode(currency)
    case Some(c) => (if Currencies(c).symbol != "" then Currencies(c).symbol else "$")
    case None => "$"
  }

  /** An element of `getCurrencyList()`. */
  datatype ListEntry = ListEntry(code: Code, name: string, symbol: string)

  /** `getCurrencyList`: one entry per table entry, in declaration order. */
  function GetCurrencyList(): (r: seq<ListEntry>)
    ensures |r| == |TableOrder| == 10
    ensures forall i :: 0 <= i < |r| ==>
      r[i] == ListEntry(TableOrder[i], Currencies(TableOrder[i]).name, Currencies(TableOrder[i]).symbol)
  {
    seq(|TableOrder|, i requires 0 <= i < |TableOrder| =>
      var cfg := Currencies(TableOrder[i]);
      ListEntry(cfg.code, cfg.name, cfg.symbol))
  }
}
