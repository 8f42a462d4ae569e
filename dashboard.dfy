/**
 * What the dashboard derives from the rate table (script.js renderCards,
 * initConverterOptions and the swap handler): the per-currency card figures,
 * the list offered by the two currency selectors, and the selectors' state.
 */
module Dashboard {
  import opened Wrappers
  import opened Rates
  import opened Conversion

  /** Display names of the supported currencies. */
  const CurrencyNames: map<Code, string> :=
    map["USD" := "Долар США", "EUR" := "Євро", "GBP" := "Фунт стерлінгів",
        "PLN" := "Польський злотий", "CHF" := "Швейцарський франк", "CNY" := "Китайський юань"]

  /** The figures one card shows, before two-decimal formatting. */
  datatype Card = Card(code: Code, name: string, buy: real, sell: real, average: real, spread: real)

  /** A quote whose buy and sell rates can be shown. */
  predicate Displayable(q: Quote) {
    q.rateBuy.Some? && q.rateSell.Some?
  }

  /** One card: the name falls back to the code, the average to the mean of buy and sell. */
  function CardOf(code: Code, q: Quote): (card: Card)
    requires Displayable(q)
  {
    var buy, sell := q.rateBuy.value, q.rateSell.value;
    Card(
      code,
      if code in CurrencyNames then CurrencyNames[code] else code,
      buy,
      sell,
      if Truthy(q.rateCross) then q.rateCross.value else (buy + sell) / 2.0,
      sell - buy)
  }

  /** The cards of renderCards, one per key in the table's key order. */
  function Cards(rates: map<Code, Quote>, keys: seq<Code>): (cards: seq<Card>)
    requires forall k :: k in keys ==> k in rates && Displayable(rates[k])
  {
    if keys == [] then [] else [CardOf(keys[0], rates[keys[0]])] + Cards(rates, keys[1..])
  }

  /** Card i shows key i with its buy and sell, spread = sell - buy, and the cross rate or the mean as average. */
  lemma {:induction false} CardsAt(rates: map<Code, Quote>, keys: seq<Code>, i: int)
    requires forall k :: k in keys ==> k in rates && Displayable(rates[k])
    requires 0 <= i < |keys|
    ensures |Cards(rates, keys)| == |keys|
    ensures
      var card, q := Cards(rates, keys)[i], rates[keys[i]];
      && card.code == keys[i]
      && card.buy == q.rateBuy.value && card.sell == q.rateSell.value
      && card.spread == q.rateSell.value - q.rateBuy.value
      && card.average == (if Truthy(q.rateCross) then q.rateCross.value
                          else (q.rateBuy.value + q.rateSell.value) / 2.0)
  {
    if i > 0 {
      CardsAt(rates, keys[1..], i - 1);
    } else {
      CardsLength(rates, keys);
    }
  }

  lemma {:induction false} CardsLength(rates: map<Code, Quote>, keys: seq<Code>)
    requires forall k :: k in keys ==> k in rates && Displayable(rates[k])
    ensures |Cards(rates, keys)| == |keys|
  {
    if keys != [] {
      CardsLength(rates, keys[1..]);
    }
  }

  /** A sequence without repeats has as many distinct elements as it is long. */
  lemma {:induction false} DistinctCount(ks: seq<Code>)
    requires forall i, j :: 0 <= i < j < |ks| ==> ks[i] != ks[j]
    ensures |set k | k in ks| == |ks|
  {
    if ks != [] {
      var rest := ks[1..];
      DistinctCount(rest);
      assert (set k | k in ks) == (set k | k in rest) + {ks[0]};
      assert ks[0] !in rest;
    }
  }

  /**
   * For the repository's table and key order, with every quote showable:
   * one card per table key, in key order, each code once.
   */
  lemma CardsOfTable(rates: map<Code, Quote>, keys: seq<Code>)
    requires Listed(rates, keys)
    requires forall c :: c in rates ==> Displayable(rates[c])
    ensures forall k :: k in keys ==> k in rates && Displayable(rates[k])
    ensures |Cards(rates, keys)| == |keys| == |rates|
    ensures forall i :: 0 <= i < |keys| ==> Cards(rates, keys)[i].code == keys[i]
    ensures forall c :: c in rates <==> exists i :: 0 <= i < |keys| && Cards(rates, keys)[i].code == c
    ensures forall i, j :: 0 <= i < j < |keys| ==> Cards(rates, keys)[i].code != Cards(rates, keys)[j].code
  {
    CardsLength(rates, keys);
    forall i | 0 <= i < |keys| ensures Cards(rates, keys)[i].code == keys[i] {
      CardsAt(rates, keys, i);
    }
    DistinctCount(keys);
    assert (set k | k in keys) == rates.Keys;
    forall c | c in rates ensures exists i :: 0 <= i < |keys| && Cards(rates, keys)[i].code == c {
      var i :| 0 <= i < |keys| && keys[i] == c;
    }
  }

  /** Every supported code has a display name, so a card of a built table never falls back to the code. */
  lemma KnownCodesAreNamed(c: Code)
    requires c in CurrencyCodes.Values
    ensures c in CurrencyNames && CurrencyNames[c] != c
  {
    var n :| n in CurrencyCodes && CurrencyCodes[n] == c;
  }

  /** The options of both selectors: the base currency, then the table's keys in order. */
  function Currencies(keys: seq<Code>): (options: seq<Code>) {
    [Base] + keys
  }

  /** For a table whose keys are listed once each, the options are the base followed by exactly those keys, without repeats. */
  lemma CurrenciesExact(rates: map<Code, Quote>, keys: seq<Code>)
    requires Listed(rates, keys) && Base !in rates
    ensures Currencies(keys)[0] == Base && Currencies(keys)[1..] == keys
    ensures forall c :: c in Currencies(keys) <==> c == Base || c in rates
    ensures forall i, j :: 0 <= i < j < |Currencies(keys)| ==> Currencies(keys)[i] != Currencies(keys)[j]
  {
    var opts := Currencies(keys);
    forall i, j | 0 <= i < j < |opts| ensures opts[i] != opts[j] {
      if i == 0 {
        assert opts[j] == keys[j - 1];
        assert keys[j - 1] in rates;
      } else {
        assert opts[i] == keys[i - 1] && opts[j] == keys[j - 1];
      }
    }
  }

  /** The value a select reports after its options are replaced: the first option is selected, if there is one. */
  function RebuiltValue(options: seq<Code>): (v: Code) {
    if options == [] then "" else options[0]
  }

  /** Assigning a value to a select chooses the matching option, or none. */
  function Assign(options: seq<Code>, v: Code): (selected: Code) {
    if v in options then v else ""
  }

  /** `if (!select.value) select.value = fallback`. */
  function WithDefault(options: seq<Code>, current: Code, fallback: Code): (v: Code) {
    if current == "" then Assign(options, fallback) else current
  }

  /** As written, the fallbacks never apply: after a rebuild both selectors read the base currency. */
  lemma DefaultsNeverApply(keys: seq<Code>)
    ensures WithDefault(Currencies(keys), RebuiltValue(Currencies(keys)), Usd) == Base
    ensures WithDefault(Currencies(keys), RebuiltValue(Currencies(keys)), Base) == Base
  {
  }

  /** The selection the defaults are meant to give: the fallback when it is offered, else the first option. */
  function IntendedSelection(options: seq<Code>, fallback: Code): (v: Code) {
    if fallback in options then fallback else RebuiltValue(options)
  }

  /** The intended defaults: from is USD whenever USD is quoted, to is the base currency; both are offered options. */
  lemma IntendedDefaults(keys: seq<Code>)
    ensures Usd in keys ==> IntendedSelection(Currencies(keys), Usd) == Usd
    ensures Usd !in keys ==> IntendedSelection(Currencies(keys), Usd) == Base
    ensures IntendedSelection(Currencies(keys), Base) == Base
    ensures IntendedSelection(Currencies(keys), Usd) in Currencies(keys)
  {
  }

  /** The two currency selectors of the converter. The empty string stands for no selection. */
  class ConverterForm {
    var options: seq<Code>
    var from: Code
    var to: Code

    /** A select reads one of its options, or the empty string. */
    ghost predicate Valid()
      reads this
    {
      (from == "" || from in options) && (to == "" || to in options)
    }

    /** Before any rates arrive the selectors have no options and read the empty string. */
    constructor ()
      ensures Valid() && options == [] && from == "" && to == ""
    {
      options, from, to := [], "", "";
    }

    /**
     * initConverterOptions as written: the options are replaced, the first
     * option (the base) becomes selected, and the fallbacks then see a value.
     */
    method InitOptionsAsWritten(keys: seq<Code>)
      requires Valid()
      modifies this
      ensures Valid()
      ensures options == Currencies(keys)
      ensures from == Base && to == Base
    {
      options := Currencies(keys);
      from, to := RebuiltValue(options), RebuiltValue(options);
      from := WithDefault(options, from, Usd);
      to := WithDefault(options, to, Base);
      DefaultsNeverApply(keys);
    }

    /** initConverterOptions with its defaults taking effect: from = USD when offered, to = UAH. */
    method InitOptions(keys: seq<Code>)
      requires Valid()
      modifies this
      ensures Valid()
      ensures options == Currencies(keys)
      ensures from == IntendedSelection(Currencies(keys), Usd) && to == Base
      ensures from in options && to in options
    {
      options := Currencies(keys);
      from := IntendedSelection(options, Usd);
      to := IntendedSelection(options, Base);
    }

    /** The swap exchanges the two selections and leaves the options alone. */
    method Swap()
      requires Valid()
      modifies this
      ensures Valid()
      ensures from == old(to) && to == old(from) && options == old(options)
    {
      var previous := from;
      from := to;
      to := previous;
    }

    /** The figure shown in the result box for an amount. */
    function Result(rates: map<Code, Quote>, amount: real): (r: real)
      reads this
      requires Readable(rates, from, to)
    {
      ConvertAmount(rates, amount, from, to)
    }

    /**
     * The swap button's handler: swap, then show the amount still in the
     * input converted with the swapped currencies.
     */
    method SwapAndShow(rates: map<Code, Quote>, amount: real) returns (shown: real)
      requires Valid()
      requires Readable(rates, to, from)
      modifies this
      ensures Valid()
      ensures from == old(to) && to == old(from) && options == old(options)
      ensures shown == ConvertAmount(rates, amount, old(to), old(from))
    {
      Swap();
      shown := Result(rates, amount);
    }
  }
}
