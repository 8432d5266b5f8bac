/**
 * Multi-currency display: amounts are held in AED and shown in the
 * currency the session selected, converted by a fixed rate and formatted
 * with that currency's symbol and number of decimals. The digit string a
 * format specification produces is kept abstract: a formatted number is
 * the value, the decimals and the K/M suffix it is rendered with.
 */
module Currency {
  import opened Common

  datatype CurrencyInfo = CurrencyInfo(symbol: string, rate: real, name: string, decimals: nat)

  /** CURRENCIES: the three supported currencies, by code. */
  function Currencies(code: string): (info: Option<CurrencyInfo>)
    ensures info.Some? <==> code in {"AED", "USD", "KWD"}
    ensures info.Some? ==> info.value.rate > 0.0
  {
    if code == "AED" then Some(CurrencyInfo("AED", 1.0, "UAE Dirham", 0))
    else if code == "USD" then Some(CurrencyInfo("$", 0.2723, "US Dollar", 2))
    else if code == "KWD" then Some(CurrencyInfo("KWD", 0.0838, "Kuwaiti Dinar", 3))
    else None
  }

  /** get_currency: the session's selection, AED when the session has none. */
  function GetCurrency(selected: Option<string>): (code: string)
    ensures selected.None? ==> code == "AED"
    ensures selected.Some? ==> code == selected.value
  {
    if selected.Some? then selected.value else "AED"
  }

  /** get_currency_info: None where the dictionary lookup raises KeyError. */
  function GetCurrencyInfo(selected: Option<string>): Option<CurrencyInfo> {
    Currencies(GetCurrency(selected))
  }

  /**
   * convert: the AED amount times the selected currency's rate. At rate 1.0
   * the amount is unchanged, and a positive rate keeps its sign.
   */
  function Convert(info: CurrencyInfo, amountAed: real): (x: real)
    ensures info.rate == 1.0 ==> x == amountAed
    ensures info.rate > 0.0 ==> (x >= 0.0 <==> amountAed >= 0.0) && (x == 0.0 <==> amountAed == 0.0)
  {
    amountAed * info.rate
  }

  /** A number as f"{x:,.{d}f}" renders it, followed by a magnitude suffix. */
  datatype Number = Number(value: real, decimals: nat, suffix: string)

  /** A displayed amount: the symbol prefix, the number, and a trailing text. */
  datatype Display = Display(prefix: string, number: Number, trailing: string)

  /** The symbol prefix: "$" directly before the number, any other symbol followed by a space. */
  function SymbolPrefix(info: CurrencyInfo, showSymbol: bool): (p: string)
    ensures !showSymbol ==> p == ""
    ensures showSymbol && info.symbol == "$" ==> p == "$"
    ensures showSymbol && info.symbol != "$" ==> p == info.symbol + " "
  {
    if showSymbol then (if info.symbol != "$" then info.symbol + " " else "$") else ""
  }

  /**
   * fmt. Compact mode shows millions from 1,000,000 in magnitude and
   * thousands from 10,000, each with at most one decimal (and no more than
   * the currency's own); the shown mantissa is at least 1 million-units, or
   * at least 10 and below 1000 thousand-units. Below 10,000, and always
   * without compact mode, the full converted amount is shown with the
   * currency's decimals. Nothing follows the number.
   */
  function Fmt(info: CurrencyInfo, amountAed: real, showSymbol: bool, compact: bool): (d: Display)
    ensures d.prefix == SymbolPrefix(info, showSymbol) && d.trailing == ""
    ensures var c := Convert(info, amountAed);
      var n := d.number;
      && (compact && Abs(c) >= 1000000.0 ==>
            n.suffix == "M" && n.value * 1000000.0 == c && Abs(n.value) >= 1.0
            && n.decimals == IMin(info.decimals, 1))
      && (compact && 10000.0 <= Abs(c) < 1000000.0 ==>
            n.suffix == "K" && n.value * 1000.0 == c && 10.0 <= Abs(n.value) < 1000.0
            && n.decimals == IMin(info.decimals, 1))
      && (!compact || Abs(c) < 10000.0 ==> n == Number(c, info.decimals, ""))
  {
    var converted := amountAed * info.rate;
    var formatted :=
      if compact && Abs(converted) >= 1000000.0 then Number(converted / 1000000.0, IMin(info.decimals, 1) as nat, "M")
      else if compact && Abs(converted) >= 10000.0 then Number(converted / 1000.0, IMin(info.decimals, 1) as nat, "K")
      else Number(converted, info.decimals, "");
    assert compact && Abs(converted) >= 1000000.0 ==> Abs(formatted.value) * 1000000.0 == Abs(converted);
    assert compact && 10000.0 <= Abs(converted) < 1000000.0 ==> Abs(formatted.value) * 1000.0 == Abs(converted);
    Display(SymbolPrefix(info, showSymbol), formatted, "")
  }

  /** fmt_rate: never compacts, and puts the suffix after the number, with fmt's symbol rule. */
  function FmtRate(info: CurrencyInfo, amountAed: real, suffix: string, showSymbol: bool): (d: Display)
    ensures d.number == Fmt(info, amountAed, showSymbol, false).number
    ensures d.prefix == Fmt(info, amountAed, showSymbol, false).prefix
    ensures d.trailing == suffix
  {
    var converted := amountAed * info.rate;
    Display(SymbolPrefix(info, showSymbol), Number(converted, info.decimals, ""), suffix)
  }

  /** AED is the base currency: it is the default, and converting to it changes nothing. */
  lemma AedIsIdentity(amountAed: real)
    ensures GetCurrencyInfo(None) == Currencies("AED")
    ensures Convert(Currencies("AED").value, amountAed) == amountAed
  {
  }

  /** Conversion preserves order and sign, since every rate is positive. */
  lemma ConvertMonotone(code: string, x: real, y: real)
    requires Currencies(code).Some? && x <= y
    ensures Convert(Currencies(code).value, x) <= Convert(Currencies(code).value, y)
    ensures x >= 0.0 ==> Convert(Currencies(code).value, x) >= 0.0
  {
    var rate := Currencies(code).value.rate;
    assert (y - x) * rate >= 0.0;
  }
}
