/**
 * The rate repository of the exchange dashboard (script.js, fetchRates):
 * raw feed records are filtered to those quoted against the hryvnia and
 * reshaped into a table from currency code to quote.
 */
module Rates {
  import opened Wrappers

  /** A canonical currency code such as "USD". */
  type Code = string

  /** The local base currency; it is never a key of the rate table. */
  const Base: Code := "UAH"

  /** ISO 4217 numeric code of the hryvnia, the only accepted quote currency. */
  const LocalNumeric: int := 980

  /** The fixed numeric-to-canonical lookup of supported currencies. */
  const CurrencyCodes: map<int, Code> :=
    map[840 := "USD", 978 := "EUR", 826 := "GBP", 985 := "PLN", 756 := "CHF", 156 := "CNY"]

  /** One raw record of the feed; absent rate fields are None. */
  datatype Record = Record(
    currencyCodeA: int,
    currencyCodeB: int,
    rateBuy: Option<real>,
    rateSell: Option<real>,
    rateCross: Option<real>)

  /** One entry of the rate table, as stored by the normalisation. */
  datatype Quote = Quote(rateBuy: Option<real>, rateSell: Option<real>, rateCross: Option<real>)

  /** JavaScript truthiness of a numeric field: present and not zero. */
  predicate Truthy(x: Option<real>) {
    x.Some? && x.value != 0.0
  }

  /** The value of `a || b` for numeric fields. */
  function Or(a: Option<real>, b: Option<real>): (r: Option<real>) {
    if Truthy(a) then a else b
  }

  /** A record is kept when it is quoted in hryvnia and its source currency is supported. */
  predicate Relevant(r: Record) {
    r.currencyCodeB == LocalNumeric && r.currencyCodeA in CurrencyCodes
  }

  function CodeOf(rec: Record): (c: Code)
    requires Relevant(rec)
  {
    CurrencyCodes[rec.currencyCodeA]
  }

  /** The quote a kept record produces: buy and sell fall back to the cross rate. */
  function QuoteOf(rec: Record): (q: Quote) {
    Quote(Or(rec.rateBuy, rec.rateCross), Or(rec.rateSell, rec.rateCross), rec.rateCross)
  }

  /** The table built from a feed, one record at a time; a later record overwrites an earlier one. */
  function BuildTable(data: seq<Record>): (table: map<Code, Quote>) {
    if data == [] then map[]
    else
      var table := BuildTable(data[..|data| - 1]);
      var last := data[|data| - 1];
      if Relevant(last) then table[CodeOf(last) := QuoteOf(last)] else table
  }

  /** The key order of the built object: first insertion order, an overwrite keeps its place. */
  function KeyOrder(data: seq<Record>): (keys: seq<Code>) {
    if data == [] then []
    else
      var keys := KeyOrder(data[..|data| - 1]);
      var last := data[|data| - 1];
      if Relevant(last) && CodeOf(last) !in keys then keys + [CodeOf(last)] else keys
  }

  /** Record i of the feed writes the entry for code c. */
  ghost predicate Contributes(data: seq<Record>, i: int, c: Code) {
    0 <= i < |data| && Relevant(data[i]) && CodeOf(data[i]) == c
  }

  /** ks lists the keys of the table, each exactly once. */
  ghost predicate Listed(table: map<Code, Quote>, ks: seq<Code>) {
    && (forall i, j :: 0 <= i < j < |ks| ==> ks[i] != ks[j])
    && (forall c :: c in ks <==> c in table)
  }

  /** A quote whose buy rate a conversion can divide by: present and not zero. */
  predicate BuyOk(q: Quote) {
    Truthy(q.rateBuy)
  }

  /** A quote whose sell rate a conversion can multiply by: present. */
  predicate SellOk(q: Quote) {
    q.rateSell.Some?
  }

  /** A quote every route can read. */
  predicate Usable(q: Quote) {
    BuyOk(q) && SellOk(q)
  }

  lemma {:induction false} TableKeys(data: seq<Record>)
    ensures forall c :: c in BuildTable(data) <==> exists i :: Contributes(data, i, c)
  {
    if data != [] {
      var prefix := data[..|data| - 1];
      TableKeys(prefix);
      forall c ensures c in BuildTable(data) <==> exists i :: Contributes(data, i, c) {
        if c in BuildTable(data) {
          if c in BuildTable(prefix) {
            var i :| Contributes(prefix, i, c);
            assert Contributes(data, i, c);
          } else {
            assert Contributes(data, |data| - 1, c);
          }
        }
        if exists i :: Contributes(data, i, c) {
          var i :| Contributes(data, i, c);
          if i < |data| - 1 {
            assert Contributes(prefix, i, c);
          }
        }
      }
    }
  }

  /** Only supported codes are keys; the base currency never is. */
  lemma TableCodesSupported(data: seq<Record>)
    ensures forall c :: c in BuildTable(data) ==> c in CurrencyCodes.Values && c != Base
  {
    TableKeys(data);
    forall c | c in BuildTable(data) ensures c in CurrencyCodes.Values && c != Base {
      var i :| Contributes(data, i, c);
      assert CurrencyCodes[data[i].currencyCodeA] == c;
    }
  }

  /** The entry for a code is the quote of the last record that writes that code. */
  lemma {:induction false} LastWriteWins(data: seq<Record>, i: int, c: Code)
    requires Contributes(data, i, c)
    requires forall j :: i < j < |data| ==> !Contributes(data, j, c)
    ensures c in BuildTable(data) && BuildTable(data)[c] == QuoteOf(data[i])
  {
    var prefix := data[..|data| - 1];
    if i < |data| - 1 {
      assert !Contributes(data, |data| - 1, c);
      assert Contributes(prefix, i, c);
      forall j | i < j < |prefix| ensures !Contributes(prefix, j, c) {
        assert !Contributes(data, j, c);
      }
      LastWriteWins(prefix, i, c);
    }
  }

  /** A record that is not relevant changes nothing, wherever it stands in the feed. */
  lemma {:induction false} IrrelevantRecordIgnored(a: seq<Record>, r: Record, b: seq<Record>)
    requires !Relevant(r)
    ensures BuildTable(a + [r] + b) == BuildTable(a + b)
    ensures KeyOrder(a + [r] + b) == KeyOrder(a + b)
  {
    if b == [] {
      assert (a + [r] + b)[..|a + [r] + b| - 1] == a;
      assert a + b == a;
    } else {
      var b' := b[..|b| - 1];
      IrrelevantRecordIgnored(a, r, b');
      assert (a + [r] + b)[..|a + [r] + b| - 1] == a + [r] + b';
      assert (a + b)[..|a + b| - 1] == a + b';
    }
  }

  /** The key order lists every key of the built table exactly once. */
  lemma {:induction false} KeyOrderListsTable(data: seq<Record>)
    ensures Listed(BuildTable(data), KeyOrder(data))
  {
    if data != [] {
      KeyOrderListsTable(data[..|data| - 1]);
    }
  }

  /** When every kept record yields a usable quote, every entry of the table is usable. */
  lemma {:induction false} TableUsable(data: seq<Record>)
    requires forall i :: 0 <= i < |data| && Relevant(data[i]) ==> Usable(QuoteOf(data[i]))
    ensures forall c :: c in BuildTable(data) ==> Usable(BuildTable(data)[c])
  {
    if data != [] {
      var prefix := data[..|data| - 1];
      forall i | 0 <= i < |prefix| && Relevant(prefix[i]) ensures Usable(QuoteOf(prefix[i])) {
        assert prefix[i] == data[i];
      }
      TableUsable(prefix);
    }
  }

  /** A record with only a cross rate stores that rate as buy, sell and cross. */
  lemma CrossOnlyRecord(r: Record, cross: real)
    requires !Truthy(r.rateBuy) && !Truthy(r.rateSell) && r.rateCross == Some(cross)
    ensures QuoteOf(r) == Quote(Some(cross), Some(cross), Some(cross))
  {
  }

  /** The feed of three records: USD with buy and sell, EUR with a cross rate only, an unknown code 250. */
  lemma SampleFeed()
    ensures
      var feed := [
        Record(840, 980, Some(41.0), Some(41.5), None),
        Record(978, 980, None, None, Some(44.0)),
        Record(250, 980, Some(99.0), None, None)];
      && BuildTable(feed) == map[
           "USD" := Quote(Some(41.0), Some(41.5), None),
           "EUR" := Quote(Some(44.0), Some(44.0), Some(44.0))]
      && KeyOrder(feed) == ["USD", "EUR"]
  {
    var feed := [
      Record(840, 980, Some(41.0), Some(41.5), None),
      Record(978, 980, None, None, Some(44.0)),
      Record(250, 980, Some(99.0), None, None)];
    assert feed[..1][..0] == [];
    assert feed[..2][..1] == feed[..1];
    assert feed[..3 - 1] == feed[..2];
    assert CodeOf(feed[0]) == "USD" && CodeOf(feed[1]) == "EUR";
    assert BuildTable(feed[..1]) == map["USD" := QuoteOf(feed[0])];
    assert KeyOrder(feed[..1]) == ["USD"];
    assert BuildTable(feed[..2]) == map["USD" := QuoteOf(feed[0]), "EUR" := QuoteOf(feed[1])];
    assert KeyOrder(feed[..2]) == ["USD", "EUR"];
  }

  /**
   * The loop of fetchRates: walk the feed, keep the relevant records and
   * write one quote per code into a fresh table.
   */
  method NormaliseFeed(data: seq<Record>) returns (table: map<Code, Quote>, keys: seq<Code>)
    ensures table == BuildTable(data) && keys == KeyOrder(data)
  {
    table, keys := map[], [];
    var i := 0;
    while i < |data|
      invariant 0 <= i <= |data|
      invariant table == BuildTable(data[..i]) && keys == KeyOrder(data[..i])
    {
      var item := data[i];
      assert data[..i + 1][..i] == data[..i];
      if item.currencyCodeB == LocalNumeric && item.currencyCodeA in CurrencyCodes {
        var code := CurrencyCodes[item.currencyCodeA];
        if code !in keys {
          keys := keys + [code];
        }
        table := table[code := Quote(Or(item.rateBuy, item.rateCross), Or(item.rateSell, item.rateCross), item.rateCross)];
      }
      i := i + 1;
    }
    assert data[..i] == data;
  }

  /** The single shared rate table and its key order, replaced wholesale on each successful refresh. */
  class RateRepository {
    var rates: map<Code, Quote>
    var keys: seq<Code>

    ghost predicate Valid()
      reads this
    {
      && Listed(rates, keys)
      && forall c :: c in rates ==> c in CurrencyCodes.Values && c != Base
    }

    constructor ()
      ensures Valid() && rates == map[] && keys == []
    {
      rates, keys := map[], [];
    }

    /** One refresh; `None` stands for a fetch or parse failure. */
    method Refresh(feed: Option<seq<Record>>) returns (ok: bool)
      requires Valid()
      modifies this
      ensures Valid()
      ensures ok <==> feed.Some?
      ensures feed.Some? ==> rates == BuildTable(feed.value) && keys == KeyOrder(feed.value)
      ensures feed.None? ==> rates == old(rates) && keys == old(keys)
    {
      if feed.None? {
        return false;
      }
      var table, order := NormaliseFeed(feed.value);
      KeyOrderListsTable(feed.value);
      TableCodesSupported(feed.value);
      rates, keys := table, order;
      ok := true;
    }
  }
}
