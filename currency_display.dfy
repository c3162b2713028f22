/**
 * The amount display (components/ui/currency.tsx): the amount is formatted
 * without its sign, then an optional sign, prefix and suffix are added, and a
 * colour class follows the sign. Formatting is `formatCurrency` (or its
 * compact form) with its library calls as parameters.
 */
module CurrencyDisplay {
  import opened Wrappers
  import opened JsNumbers
  import opened Currency

  /** The props of `CurrencyDisplay`; absent booleans are false. */
  datatype Props = Props(amount: AmountArg, currency: Option<Code>, compact: bool, showSign: bool,
                         colorized: bool, prefix: Option<string>, suffix: Option<string>)

  /** The library calls under the formatter: `parseFloat`, `Intl.NumberFormat` and `toFixed`. */
  datatype Lib = Lib(parseFloat: string -> JsNumber, intl: (Config, Notation, real) -> Option<string>,
                     toFixed: (real, nat) -> string)

  datatype Rendered = Rendered(text: string, colorClass: string)

  /** The currency shown: the override when given, else the store's. */
  function ActiveCurrency(override: Option<Code>, storeCurrency: Code): Code {
    override.GetOr(storeCurrency)
  }

  /** The sign shown before the formatted amount: '-' or '+' with `showSign`, never for zero or NaN. */
  function Sign(showSign: bool, n: JsNumber): (s: string)
    ensures s == "-" <==> showSign && IsNegative(n)
    ensures s == "+" <==> showSign && IsPositive(n)
    ensures s == "" <==> !showSign || !(IsNegative(n) || IsPositive(n))
  {
    if showSign && IsNegative(n) then "-" else if showSign && IsPositive(n) then "+" else ""
  }

  /** A truthy prefix goes in front and a truthy suffix after, each with one space. */
  function Affix(prefix: Option<string>, value: string, suffix: Option<string>): (r: string)
    ensures prefix.Some? && prefix.value != "" && suffix.Some? && suffix.value != "" ==>
      r == prefix.value + " " + value + " " + suffix.value
    ensures prefix.Some? && prefix.value != "" && (suffix.None? || suffix.value == "") ==>
      r == prefix.value + " " + value
    ensures (prefix.None? || prefix.value == "") && suffix.Some? && suffix.value != "" ==>
      r == value + " " + suffix.value
    ensures (prefix.None? || prefix.value == "") && (suffix.None? || suffix.value == "") ==> r == value
  {
    var withPrefix := if prefix.Some? && prefix.value != "" then prefix.value + " " + value else value;
    if suffix.Some? && suffix.value != "" then withPrefix + " " + suffix.value else withPrefix
  }

  /** The class the sign selects, or none when not colourised. */
  function ColorClass(colorized: bool, n: JsNumber): (c: string)
    ensures !colorized ==> c == ""
    ensures colorized ==> (c == "text-red-600" <==> IsNegative(n))
    ensures colorized ==> (c == "text-green-600" <==> IsPositive(n))
    ensures colorized ==> (c == "text-slate-600" <==> !IsNegative(n) && !IsPositive(n))
  {
    if !colorized then ""
    else if IsNegative(n) then "text-red-600"
    else if IsPositive(n) then "text-green-600"
    else "text-slate-600"
  }

  /** The formatted magnitude: `formatFunction(Math.abs(numAmount), activeCurrency)`. */
  function Formatted(p: Props, storeCurrency: Code, lib: Lib): string {
    FormatCurrency(NumberArg(Abs(AmountValue(p.amount, lib.parseFloat))), ActiveCurrency(p.currency, storeCurrency),
                   if p.compact then Compact else Standard, lib.parseFloat, lib.intl, lib.toFixed)
  }

  /** Neither prefix nor suffix is truthy. */
  predicate NoAffixes(p: Props) {
    (p.prefix.None? || p.prefix.value == "") && (p.suffix.None? || p.suffix.value == "")
  }

  /**
   * `CurrencyDisplay(props)`: the formatted magnitude, signed only with
   * `showSign` and a non-zero amount, between the truthy affixes; the class
   * follows the sign only when colourised.
   */
  function Display(p: Props, storeCurrency: Code, lib: Lib): (r: Rendered)
    ensures var n := AmountValue(p.amount, lib.parseFloat);
      NoAffixes(p) ==>
        && (!p.showSign || !(IsNegative(n) || IsPositive(n)) ==> r.text == Formatted(p, storeCurrency, lib))
        && (p.showSign && IsNegative(n) ==> r.text == "-" + Formatted(p, storeCurrency, lib))
        && (p.showSign && IsPositive(n) ==> r.text == "+" + Formatted(p, storeCurrency, lib))
    ensures p.prefix.Some? && p.prefix.value != "" ==> p.prefix.value + " " <= r.text
    ensures p.suffix.Some? && p.suffix.value != "" ==>
      |p.suffix.value| + 1 <= |r.text| && r.text[|r.text| - |p.suffix.value| - 1..] == " " + p.suffix.value
    ensures r.colorClass == "" <==> !p.colorized
    ensures var n := AmountValue(p.amount, lib.parseFloat);
      p.colorized ==>
        && (r.colorClass == "text-red-600" <==> IsNegative(n))
        && (r.colorClass == "text-green-600" <==> IsPositive(n))
        && (r.colorClass == "text-slate-600" <==> !IsNegative(n) && !IsPositive(n))
  {
    var n := AmountValue(p.amount, lib.parseFloat);
    Rendered(Affix(p.prefix, Sign(p.showSign, n) + Formatted(p, storeCurrency, lib), p.suffix), ColorClass(p.colorized, n))
  }

  /** The formatter only ever sees the magnitude: an amount and its negation format alike. */
  lemma FormatIgnoresSign(p: Props, storeCurrency: Code, lib: Lib, v: real)
    requires p.amount == NumberArg(Num(v))
    ensures Formatted(p, storeCurrency, lib) == Formatted(p.(amount := NumberArg(Num(-v))), storeCurrency, lib)
  {
  }

  /** A NaN amount is shown as the currency's symbol and "0.00", with no sign and the neutral class. */
  lemma NaNAmountShown(p: Props, storeCurrency: Code, lib: Lib)
    requires AmountValue(p.amount, lib.parseFloat).NaN?
    requires p.prefix.None? && p.suffix.None?
    ensures Display(p, storeCurrency, lib).text == Currencies(ActiveCurrency(p.currency, storeCurrency)).symbol + "0.00"
    ensures p.colorized ==> Display(p, storeCurrency, lib).colorClass == "text-slate-600"
  {
  }

  /** `IncomeAmount`: always coloured and signed, so a gain is green with '+' and a loss red with '-'. */
  function IncomeAmount(p: Props, storeCurrency: Code, lib: Lib): (r: Rendered)
    ensures r.colorClass != ""
    ensures var n := AmountValue(p.amount, lib.parseFloat);
      && (IsPositive(n) ==> r.colorClass == "text-green-600")
      && (IsNegative(n) ==> r.colorClass == "text-red-600")
      && (!IsNegative(n) && !IsPositive(n) ==> r.colorClass == "text-slate-600")
    ensures var n := AmountValue(p.amount, lib.parseFloat);
      NoAffixes(p) ==>
        && (IsPositive(n) ==> r.text == "+" + Formatted(p, storeCurrency, lib))
        && (IsNegative(n) ==> r.text == "-" + Formatted(p, storeCurrency, lib))
        && (!IsNegative(n) && !IsPositive(n) ==> r.text == Formatted(p, storeCurrency, lib))
  {
    Display(p.(colorized := true, showSign := true), storeCurrency, lib)
  }

  /**
   * `ExpenseAmount`: coloured and signed, shown as minus the magnitude, so it
   * is never green nor '+', and a non-zero expense is red with '-' before the
   * digits of the plain amount.
   */
  function ExpenseAmount(p: Props, storeCurrency: Code, lib: Lib): (r: Rendered)
    ensures var n := AmountValue(p.amount, lib.parseFloat);
      && r.colorClass != "" && r.colorClass != "text-green-600"
      && (IsNegative(n) || IsPositive(n) ==> r.colorClass == "text-red-600")
      && (!IsNegative(n) && !IsPositive(n) ==> r.colorClass == "text-slate-600")
    ensures var n := AmountValue(p.amount, lib.parseFloat);
      NoAffixes(p) ==>
        && (IsNegative(n) || IsPositive(n) ==> r.text == "-" + Formatted(p, storeCurrency, lib))
        && (!IsNegative(n) && !IsPositive(n) ==> r.text == Formatted(p, storeCurrency, lib))
  {
    var n := AmountValue(p.amount, lib.parseFloat);
    var q := p.(amount := NumberArg(Negate(Abs(n))), colorized := true, showSign := true);
    var m := AmountValue(q.amount, lib.parseFloat);
    assert !IsPositive(m) && (IsNegative(m) <==> IsNegative(n) || IsPositive(n));
    assert NoAffixes(q) == NoAffixes(p);
    assert Formatted(q, storeCurrency, lib) == Formatted(p, storeCurrency, lib) by {
      ExpenseAndIncomeShareDigits(p, storeCurrency, lib);
      assert Formatted(q, storeCurrency, lib) == Formatted(p.(amount := q.amount), storeCurrency, lib);
    }
    Display(q, storeCurrency, lib)
  }

  /** `BalanceAmount`: always coloured; the sign is the caller's choice. */
  function BalanceAmount(p: Props, storeCurrency: Code, lib: Lib): (r: Rendered)
    ensures r.text == Display(p, storeCurrency, lib).text
    ensures var n := AmountValue(p.amount, lib.parseFloat);
      && r.colorClass != ""
      && (r.colorClass == "text-red-600" <==> IsNegative(n))
      && (r.colorClass == "text-green-600" <==> IsPositive(n))
  {
    Display(p.(colorized := true), storeCurrency, lib)
  }

  /**
   * The affixes go outside the sign: a display with a prefix or suffix is the
   * display without them, wrapped by `Affix`, in the same colour.
   */
  lemma DisplayAffixesOutsideSign(p: Props, storeCurrency: Code, lib: Lib)
    ensures Display(p, storeCurrency, lib).text
         == Affix(p.prefix, Display(p.(prefix := None, suffix := None), storeCurrency, lib).text, p.suffix)
    ensures Display(p, storeCurrency, lib).colorClass == Display(p.(prefix := None, suffix := None), storeCurrency, lib).colorClass
  {
  }

  /** An income with affixes is the income without them, wrapped by `Affix`, in the same colour. */
  lemma IncomeAffixesOutsideSign(p: Props, storeCurrency: Code, lib: Lib)
    ensures IncomeAmount(p, storeCurrency, lib).text
         == Affix(p.prefix, IncomeAmount(p.(prefix := None, suffix := None), storeCurrency, lib).text, p.suffix)
    ensures IncomeAmount(p, storeCurrency, lib).colorClass
         == IncomeAmount(p.(prefix := None, suffix := None), storeCurrency, lib).colorClass
  {
  }

  /** An expense with affixes is the expense without them, wrapped by `Affix`, in the same colour. */
  lemma ExpenseAffixesOutsideSign(p: Props, storeCurrency: Code, lib: Lib)
    ensures ExpenseAmount(p, storeCurrency, lib).text
         == Affix(p.prefix, ExpenseAmount(p.(prefix := None, suffix := None), storeCurrency, lib).text, p.suffix)
    ensures ExpenseAmount(p, storeCurrency, lib).colorClass
         == ExpenseAmount(p.(prefix := None, suffix := None), storeCurrency, lib).colorClass
  {
    var q := p.(prefix := None, suffix := None);
    var e := p.(amount := NumberArg(Negate(Abs(AmountValue(p.amount, lib.parseFloat)))), colorized := true, showSign := true);
    assert ExpenseAmount(p, storeCurrency, lib) == Display(e, storeCurrency, lib);
    assert ExpenseAmount(q, storeCurrency, lib) == Display(e.(prefix := None, suffix := None), storeCurrency, lib);
    DisplayAffixesOutsideSign(e, storeCurrency, lib);
  }

  /** A balance shown with its sign looks exactly like an income of the same amount. */
  lemma SignedBalanceIsIncome(p: Props, storeCurrency: Code, lib: Lib)
    ensures BalanceAmount(p.(showSign := true), storeCurrency, lib) == IncomeAmount(p, storeCurrency, lib)
  {
  }

  /** For the same amount, an income and an expense differ only in sign and colour. */
  lemma IncomeAndExpenseMirror(p: Props, storeCurrency: Code, lib: Lib)
    requires NoAffixes(p) && IsPositive(AmountValue(p.amount, lib.parseFloat))
    ensures IncomeAmount(p, storeCurrency, lib) == Rendered("+" + Formatted(p, storeCurrency, lib), "text-green-600")
    ensures ExpenseAmount(p, storeCurrency, lib) == Rendered("-" + Formatted(p, storeCurrency, lib), "text-red-600")
  {
  }

  /** An expense and the income of the same magnitude format the same digits. */
  lemma ExpenseAndIncomeShareDigits(p: Props, storeCurrency: Code, lib: Lib)
    ensures Formatted(p.(amount := NumberArg(Negate(Abs(AmountValue(p.amount, lib.parseFloat))))), storeCurrency, lib)
         == Formatted(p, storeCurrency, lib)
  {
  }
}
