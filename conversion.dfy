/**
 * The conversion engine (script.js, convertAmount and updateCnyCalc):
 * pure functions over one snapshot of the rate table. Every conversion is
 * routed through the base currency; a missing quote gives 0.
 */
module Conversion {
  import opened Wrappers
  import opened Rates

  /**
   * The rates convertAmount reads on its route between from and to are
   * present and, the one it divides by, not zero: the target's buy rate
   * when converting out of the base, the source's sell rate when converting
   * into it, and both for a conversion between two quoted currencies. An
   * empty table, equal codes and a missing quote read no rate at all.
   */
  predicate Readable(rates: map<Code, Quote>, from: Code, to: Code) {
    |rates| != 0 && from != to ==>
      && (from == Base && to in rates ==> BuyOk(rates[to]))
      && (to == Base && from in rates ==> SellOk(rates[from]))
      && (from != Base && to != Base && from in rates && to in rates ==>
            SellOk(rates[from]) && BuyOk(rates[to]))
  }

  /** The buy rate of a present quote that has one. */
  function Buy(rates: map<Code, Quote>, c: Code): (r: real)
    requires c in rates && BuyOk(rates[c])
  {
    rates[c].rateBuy.value
  }

  /** The sell rate of a present quote that has one. */
  function Sell(rates: map<Code, Quote>, c: Code): (r: real)
    requires c in rates && SellOk(rates[c])
  {
    rates[c].rateSell.value
  }

  /**
   * convertAmount. The empty-table test comes before the identity test, so an
   * empty table gives 0 even when from == to. The final fall-through of the
   * source would need from == to == Base, which the identity test has taken.
   */
  function ConvertAmount(rates: map<Code, Quote>, amount: real, from: Code, to: Code): (r: real)
    requires Readable(rates, from, to)
  {
    if |rates| == 0 then 0.0
    else if from == to then amount
    else if from == Base && to != Base then
      if to !in rates then 0.0 else amount / Buy(rates, to)
    else if from != Base && to == Base then
      if from !in rates then 0.0 else amount * Sell(rates, from)
    else if from != Base && to != Base then
      if from !in rates || to !in rates then 0.0
      else
        var uahAmount := amount * Sell(rates, from);
        uahAmount / Buy(rates, to)
    else
      assert false; amount
  }

  /** An empty table converts everything to 0, the identity case included. */
  lemma EmptyTableGivesZero(rates: map<Code, Quote>, amount: real, from: Code, to: Code)
    requires rates == map[]
    ensures ConvertAmount(rates, amount, from, to) == 0.0
  {
  }

  /** On a non-empty table, converting a currency to itself keeps the amount. */
  lemma IdentityOnNonEmptyTable(rates: map<Code, Quote>, amount: real, c: Code)
    requires rates != map[]
    ensures ConvertAmount(rates, amount, c, c) == amount
  {
    assert exists k :: k in rates;
  }

  /** A quote the route needs is missing: the result is 0, with no partial computation. */
  lemma MissingQuoteGivesZero(rates: map<Code, Quote>, amount: real, from: Code, to: Code)
    requires from != to
    requires (from != Base && from !in rates) || (to != Base && to !in rates)
    ensures ConvertAmount(rates, amount, from, to) == 0.0
  {
  }

  /** Base to foreign divides by the foreign buy rate; nothing else is read. */
  lemma FromBaseRoute(rates: map<Code, Quote>, amount: real, f: Code)
    requires f != Base && f in rates && BuyOk(rates[f])
    ensures ConvertAmount(rates, amount, Base, f) == amount / rates[f].rateBuy.value
  {
  }

  /** Foreign to base multiplies by the foreign sell rate; nothing else is read. */
  lemma ToBaseRoute(rates: map<Code, Quote>, amount: real, f: Code)
    requires f != Base && f in rates && SellOk(rates[f])
    ensures ConvertAmount(rates, amount, f, Base) == amount * rates[f].rateSell.value
  {
  }

  /** Foreign to foreign multiplies by the sell rate of the source and divides by the buy rate of the target. */
  lemma CrossRoute(rates: map<Code, Quote>, amount: real, f: Code, g: Code)
    requires f != Base && g != Base && f != g
    requires f in rates && g in rates && SellOk(rates[f]) && BuyOk(rates[g])
    ensures ConvertAmount(rates, amount, f, g) == amount * rates[f].rateSell.value / rates[g].rateBuy.value
  {
  }

  /**
   * Every conversion between distinct codes is a conversion into the base
   * followed by one out of it, whenever both legs can be read.
   */
  lemma ViaBase(rates: map<Code, Quote>, amount: real, from: Code, to: Code)
    requires Readable(rates, from, Base) && Readable(rates, Base, to)
    requires from != to
    ensures ConvertAmount(rates, amount, from, to)
         == ConvertAmount(rates, ConvertAmount(rates, amount, from, Base), Base, to)
  {
    if |rates| != 0 && from != Base && to != Base && from in rates && to !in rates {
      assert Base != to;
    }
  }

  /** Arithmetic step of Linear: division by a non-zero rate distributes over a linear combination. */
  lemma DivideLinear(k: real, u: real, v: real, y: real)
    requires y != 0.0
    ensures (k * u + v) / y == k * (u / y) + v / y
  {
  }

  /** Arithmetic step of Linear for the two-hop route. */
  lemma ScaleThrough(k: real, a: real, b: real, x: real, y: real)
    requires y != 0.0
    ensures (k * a + b) * x / y == k * (a * x / y) + b * x / y
  {
    assert (k * a + b) * x == k * (a * x) + b * x;
    DivideLinear(k, a * x, b * x, y);
  }

  /** Linear, for the foreign-to-foreign route. */
  lemma LinearCross(rates: map<Code, Quote>, k: real, a: real, b: real, f: Code, g: Code)
    requires f != Base && g != Base && f != g
    requires f in rates && g in rates && SellOk(rates[f]) && BuyOk(rates[g])
    ensures ConvertAmount(rates, k * a + b, f, g)
         == k * ConvertAmount(rates, a, f, g) + ConvertAmount(rates, b, f, g)
  {
    CrossRoute(rates, k * a + b, f, g);
    CrossRoute(rates, a, f, g);
    CrossRoute(rates, b, f, g);
    ScaleThrough(k, a, b, rates[f].rateSell.value, rates[g].rateBuy.value);
  }

  /** Conversion is linear in the amount: it commutes with scaling and with sums. */
  lemma Linear(rates: map<Code, Quote>, k: real, a: real, b: real, from: Code, to: Code)
    requires Readable(rates, from, to)
    ensures ConvertAmount(rates, k * a + b, from, to)
         == k * ConvertAmount(rates, a, from, to) + ConvertAmount(rates, b, from, to)
  {
    if |rates| != 0 && from != to {
      if from == Base && to in rates {
        var y := Buy(rates, to);
        assert (k * a + b) / y == k * (a / y) + b / y;
      } else if to == Base && from in rates {
        var x := Sell(rates, from);
        assert (k * a + b) * x == k * (a * x) + b * x;
      } else if from != Base && to != Base && from in rates && to in rates {
        LinearCross(rates, k, a, b, from, to);
      }
    }
  }

  /**
   * Base to foreign and back multiplies by sell / buy; with a positive buy
   * rate and sell >= buy a non-negative amount comes back no smaller.
   */
  lemma RoundTrip(rates: map<Code, Quote>, amount: real, f: Code)
    requires f != Base && f in rates && Usable(rates[f])
    ensures ConvertAmount(rates, ConvertAmount(rates, amount, Base, f), f, Base)
         == amount * rates[f].rateSell.value / rates[f].rateBuy.value
    ensures amount >= 0.0 && rates[f].rateBuy.value > 0.0 && rates[f].rateSell.value >= rates[f].rateBuy.value ==>
              ConvertAmount(rates, ConvertAmount(rates, amount, Base, f), f, Base) >= amount
  {
    var b, s := Buy(rates, f), Sell(rates, f);
    assert amount / b * s == amount * s / b;
    if amount >= 0.0 && b > 0.0 && s >= b {
      assert amount * s >= amount * b;
      assert amount * s / b >= amount * b / b;
    }
  }

  /** The sample table (USD 41/41.5, EUR 44 cross only): 100 USD is 4150 UAH, 100 UAH is 100/41 USD, 100 USD is 4150/44 EUR. */
  lemma SampleConversions()
    ensures
      var rates := map[
        "USD" := Quote(Some(41.0), Some(41.5), None),
        "EUR" := Quote(Some(44.0), Some(44.0), Some(44.0))];
      && ConvertAmount(rates, 100.0, "USD", Base) == 4150.0
      && ConvertAmount(rates, 100.0, Base, "USD") == 100.0 / 41.0
      && ConvertAmount(rates, 100.0, "USD", "EUR") == 4150.0 / 44.0
      && 94.31 < ConvertAmount(rates, 100.0, "USD", "EUR") < 94.32
  {
  }

  /**
   * Quotes with rates missing: USD with only a sell rate still converts to
   * itself and into UAH, and a rate-less EUR quote gives 0 from USD.
   */
  lemma SparseQuotes()
    ensures
      var rates := map["USD" := Quote(None, Some(41.5), None)];
      && ConvertAmount(rates, 5.0, "USD", "USD") == 5.0
      && ConvertAmount(rates, 5.0, "USD", Base) == 207.5
    ensures ConvertAmount(map["EUR" := Quote(None, None, None)], 5.0, "USD", "EUR") == 0.0
  {
  }

  /** The fee applied by the CNY calculator (+3%). */
  const FeeMultiplier: real := 1.03

  const Usd: Code := "USD"
  const Cny: Code := "CNY"

  /** What the CNY calculator shows: a placeholder, or the three figures. */
  datatype CnyFigures = Unavailable | Figures(withFee: real, inUsd: real, inUah: real)

  /**
   * The rates updateCnyCalc reads once both quotes are present: the CNY sell
   * rate and the USD buy rate for CNY to USD, the USD sell rate for USD to UAH.
   */
  predicate CnyReadable(rates: map<Code, Quote>) {
    Usd in rates && Cny in rates ==> SellOk(rates[Cny]) && BuyOk(rates[Usd]) && SellOk(rates[Usd])
  }

  /**
   * updateCnyCalc: the amount with the fee, then CNY to USD, then USD to UAH;
   * the placeholder when USD or CNY has no quote.
   */
  function CnyCalc(rates: map<Code, Quote>, base: real): (r: CnyFigures)
    requires CnyReadable(rates)
  {
    if Usd !in rates || Cny !in rates then Unavailable
    else
      var withFee := base * FeeMultiplier;
      var inUsd := ConvertAmount(rates, withFee, Cny, Usd);
      var inUah := ConvertAmount(rates, inUsd, Usd, Base);
      Figures(withFee, inUsd, inUah)
  }

  /** The placeholder appears exactly when a quote is missing. */
  lemma CnyCalcUnavailable(rates: map<Code, Quote>, base: real)
    requires CnyReadable(rates)
    ensures CnyCalc(rates, base).Unavailable? <==> Usd !in rates || Cny !in rates
  {
  }

  /** The figures in closed form; the last leg uses the USD sell rate. */
  lemma CnyCalcClosedForm(rates: map<Code, Quote>, base: real)
    requires Usd in rates && Cny in rates
    requires SellOk(rates[Cny]) && BuyOk(rates[Usd]) && SellOk(rates[Usd])
    ensures
      var w := base * 1.03;
      var usd := w * rates[Cny].rateSell.value / rates[Usd].rateBuy.value;
      CnyCalc(rates, base) == Figures(w, usd, usd * rates[Usd].rateSell.value)
  {
    CrossRoute(rates, base * FeeMultiplier, Cny, Usd);
  }

  /** 1000 CNY with CNY at 5.9/6.1 and USD at 41/41.5: 1030 CNY, about 153.24 USD, about 6359.62 UAH. */
  lemma CnyCalcExample()
    ensures
      var rates := map[
        Usd := Quote(Some(41.0), Some(41.5), None),
        Cny := Quote(Some(5.9), Some(6.1), None)];
      var r := CnyCalc(rates, 1000.0);
      && r.Figures?
      && r.withFee == 1030.0
      && r.inUsd == 6283.0 / 41.0
      && r.inUah == 260744.5 / 41.0
      && 6359.6 < r.inUah < 6359.7
  {
    var rates := map[
      Usd := Quote(Some(41.0), Some(41.5), None),
      Cny := Quote(Some(5.9), Some(6.1), None)];
    CnyCalcClosedForm(rates, 1000.0);
  }

  /** A CNY quote without any rate, and no USD quote: the placeholder. */
  lemma CnyCalcSparse(base: real)
    ensures CnyCalc(map[Cny := Quote(None, None, None)], base) == Unavailable
  {
  }
}
