/** The dashboard's client-side price simulation in src/App.jsx: the stock
    catalogue, the initial price records and the once-a-second random walk. */
module Market {

  datatype Stock = Stock(symbol: string, name: string, basePrice: real)

  /** `STOCKS` */
  const Catalog: seq<Stock> := [
    Stock("GOOG", "Alphabet Inc.", 140.5),
    Stock("TSLA", "Tesla Inc.", 242.8),
    Stock("AMZN", "Amazon.com Inc.", 178.35),
    Stock("META", "Meta Platforms Inc.", 486.5),
    Stock("NVDA", "NVIDIA Corporation", 138.25)
  ]

  /** Relative size of one tick's move. */
  const Volatility: real := 0.005

  datatype Trend = Up | Down | Neutral

  /** The per-symbol entry of the `stockPrices` state. */
  datatype PriceRecord = PriceRecord(
    current: real,
    previous: real,
    change: real,
    changePercent: real,
    trend: Trend,
    high: real,
    low: real)

  /** Every catalogue symbol occurs once. */
  ghost predicate DistinctSymbols(stocks: seq<Stock>) {
    forall i, j :: 0 <= i < j < |stocks| ==> stocks[i].symbol != stocks[j].symbol
  }

  /** Dropping the head keeps symbols distinct, and no later stock shares the head's symbol. */
  lemma DistinctSymbolsTail(stocks: seq<Stock>)
    requires DistinctSymbols(stocks) && stocks != []
    ensures DistinctSymbols(stocks[1..])
    ensures forall y :: y in stocks[1..] ==> y.symbol != stocks[0].symbol
  {
    var tail := stocks[1..];
    forall i, j | 0 <= i < j < |tail| ensures tail[i].symbol != tail[j].symbol {
      assert tail[i] == stocks[i + 1] && tail[j] == stocks[j + 1];
    }
    forall y | y in tail ensures y.symbol != stocks[0].symbol {
      var m :| 0 <= m < |tail| && tail[m] == y;
      assert tail[m] == stocks[m + 1];
    }
  }

  /** A stock whose symbol is new can go in front of a list with distinct symbols. */
  lemma DistinctSymbolsCons(x: Stock, stocks: seq<Stock>)
    requires DistinctSymbols(stocks)
    requires forall y :: y in stocks ==> y.symbol != x.symbol
    ensures DistinctSymbols([x] + stocks)
  {
    var r := [x] + stocks;
    forall i, j | 0 <= i < j < |r| ensures r[i].symbol != r[j].symbol {
      assert r[j] == stocks[j - 1];
      if i > 0 {
        assert r[i] == stocks[i - 1];
      }
    }
  }

  /** A stock list the dashboard can run on: distinct symbols, positive base prices. */
  ghost predicate Listed(stocks: seq<Stock>) {
    DistinctSymbols(stocks) && forall i :: 0 <= i < |stocks| ==> stocks[i].basePrice > 0.0
  }

  lemma CatalogListed()
    ensures Listed(Catalog)
  {
    assert Catalog[0].symbol[0] == 'G' && Catalog[1].symbol[0] == 'T' && Catalog[2].symbol[0] == 'A';
    assert Catalog[3].symbol[0] == 'M' && Catalog[4].symbol[0] == 'N';
  }

  /** Price records that the random walk keeps consistent: every listed symbol
      present, each price at least half its base price and inside the
      session's low/high band. */
  ghost predicate WellFormed(stocks: seq<Stock>, records: map<string, PriceRecord>) {
    forall i :: 0 <= i < |stocks| ==>
      && stocks[i].symbol in records
      && records[stocks[i].symbol].current >= stocks[i].basePrice * 0.5
      && records[stocks[i].symbol].low <= records[stocks[i].symbol].current <= records[stocks[i].symbol].high
  }

  /** The mount effect's `STOCKS.forEach(...)`: builds a record per listed
      symbol that starts at its base price with no change, a neutral trend and
      a band of that one price. */
  method InitialRecords(stocks: seq<Stock>) returns (records: map<string, PriceRecord>)
    requires Listed(stocks)
    ensures records.Keys == set i | 0 <= i < |stocks| :: stocks[i].symbol
    ensures forall i :: 0 <= i < |stocks| ==>
      var b := stocks[i].basePrice;
      records[stocks[i].symbol] == PriceRecord(b, b, 0.0, 0.0, Neutral, b, b)
    ensures WellFormed(stocks, records)
  {
    records := map[];
    for n := 0 to |stocks|
      invariant records.Keys == set i | 0 <= i < n :: stocks[i].symbol
      invariant forall i :: 0 <= i < n ==>
        var b := stocks[i].basePrice;
        records[stocks[i].symbol] == PriceRecord(b, b, 0.0, 0.0, Neutral, b, b)
    {
      var b := stocks[n].basePrice;
      records := records[stocks[n].symbol := PriceRecord(b, b, 0.0, 0.0, Neutral, b, b)];
    }
  }

  /** The trend label of a move from `currentPrice` to `newPrice`. */
  function TrendOf(newPrice: real, currentPrice: real): (t: Trend)
    ensures t == Up <==> newPrice > currentPrice
    ensures t == Down <==> newPrice < currentPrice
    ensures t == Neutral <==> newPrice == currentPrice
  {
    if newPrice > currentPrice then Up else if newPrice < currentPrice then Down else Neutral
  }

  /** The update of one symbol's record for the `Math.random()` draw `u`: the
      price moves by (u - 0.5) * 2 * volatility * current, but never below half
      the base price; the band widens to include the new price. */
  function Step(rec: PriceRecord, basePrice: real, u: real): (r: PriceRecord)
    requires rec.current != 0.0
    ensures r.current >= basePrice * 0.5
    ensures r.current == basePrice * 0.5 || r.current == rec.current + (u - 0.5) * 2.0 * Volatility * rec.current
    ensures r.current >= rec.current + (u - 0.5) * 2.0 * Volatility * rec.current
    ensures r.previous == rec.current && r.change == r.current - rec.current
    ensures r.trend == TrendOf(r.current, rec.current)
    ensures r.high >= rec.high && r.low <= rec.low
    ensures r.low <= r.current <= r.high
    ensures r.high == rec.high || r.high == r.current
    ensures r.low == rec.low || r.low == r.current
  {
    var currentPrice := rec.current;
    var change := (u - 0.5) * 2.0 * Volatility * currentPrice;
    var newPrice := if currentPrice + change > basePrice * 0.5 then currentPrice + change else basePrice * 0.5;
    PriceRecord(
      newPrice,
      currentPrice,
      newPrice - currentPrice,
      ((newPrice - currentPrice) / currentPrice) * 100.0,
      TrendOf(newPrice, currentPrice),
      if rec.high > newPrice then rec.high else newPrice,
      if rec.low < newPrice then rec.low else newPrice)
  }

  /** The records are ready for a tick: every listed symbol has a record with a non-zero price. */
  ghost predicate Ready(stocks: seq<Stock>, records: map<string, PriceRecord>) {
    forall i :: 0 <= i < |stocks| ==> stocks[i].symbol in records && records[stocks[i].symbol].current != 0.0
  }

  lemma WellFormedIsReady(stocks: seq<Stock>, records: map<string, PriceRecord>)
    requires Listed(stocks) && WellFormed(stocks, records)
    ensures Ready(stocks, records)
  {
    forall i | 0 <= i < |stocks| ensures records[stocks[i].symbol].current != 0.0 {
      assert records[stocks[i].symbol].current >= stocks[i].basePrice * 0.5 > 0.0;
    }
  }

  /** One interval tick, `setStockPrices(prev => ...)`: copies the records and
      overwrites each listed symbol's record in list order, using `draws[i]`
      as the i-th `Math.random()` value. */
  method NextPrices(stocks: seq<Stock>, prev: map<string, PriceRecord>, draws: seq<real>)
    returns (updated: map<string, PriceRecord>)
    requires Listed(stocks) && |draws| == |stocks|
    requires Ready(stocks, prev)
    ensures updated.Keys == prev.Keys
    ensures forall i :: 0 <= i < |stocks| ==>
      updated[stocks[i].symbol] == Step(prev[stocks[i].symbol], stocks[i].basePrice, draws[i])
    ensures forall k :: k in prev && (forall i :: 0 <= i < |stocks| ==> stocks[i].symbol != k) ==> updated[k] == prev[k]
    ensures WellFormed(stocks, prev) ==> WellFormed(stocks, updated)
  {
    updated := prev;
    for i := 0 to |stocks|
      invariant updated.Keys == prev.Keys
      invariant forall k :: 0 <= k < i ==>
        updated[stocks[k].symbol] == Step(prev[stocks[k].symbol], stocks[k].basePrice, draws[k])
      invariant forall k :: i <= k < |stocks| ==> updated[stocks[k].symbol] == prev[stocks[k].symbol]
      invariant forall k :: k in prev && (forall j :: 0 <= j < |stocks| ==> stocks[j].symbol != k) ==> updated[k] == prev[k]
    {
      var stock := stocks[i];
      updated := updated[stock.symbol := Step(updated[stock.symbol], stock.basePrice, draws[i])];
    }
  }

  /** One symbol's record after a run of ticks with draws `us`. */
  function Walk(rec: PriceRecord, basePrice: real, us: seq<real>): PriceRecord
    requires basePrice > 0.0 && rec.current >= basePrice * 0.5
    decreases |us|
  {
    if us == [] then rec else Walk(Step(rec, basePrice, us[0]), basePrice, us[1..])
  }

  /** However many ticks run, the high never falls, the low never rises, the
      price stays at least half its base price and inside the band. */
  lemma {:induction false} WalkKeepsBand(rec: PriceRecord, basePrice: real, us: seq<real>)
    requires basePrice > 0.0 && rec.current >= basePrice * 0.5
    requires rec.low <= rec.current <= rec.high
    ensures Walk(rec, basePrice, us).high >= rec.high && Walk(rec, basePrice, us).low <= rec.low
    ensures Walk(rec, basePrice, us).current >= basePrice * 0.5
    ensures Walk(rec, basePrice, us).low <= Walk(rec, basePrice, us).current <= Walk(rec, basePrice, us).high
    decreases |us|
  {
    if us != [] {
      WalkKeepsBand(Step(rec, basePrice, us[0]), basePrice, us[1..]);
    }
  }
}
