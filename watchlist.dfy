/** The dashboard's watchlist in src/App.jsx: `toggleSubscription` and the
    filtered, sorted table that `getSortedStocks` returns. */
module Watchlist {

  import opened Seqs
  import opened Market

  // ---------------------------------------------------------------------
  // toggleSubscription

  /** `subs.filter((s) => s !== symbol)` */
  function Without(subs: seq<string>, symbol: string): (r: seq<string>)
    ensures symbol !in r
    ensures forall y :: y != symbol ==> (y in r <==> y in subs)
    ensures multiset(r) == multiset(subs)[symbol := 0]
    ensures NoDuplicates(subs) ==> NoDuplicates(r)
  {
    if subs == [] then []
    else
      assert subs == [subs[0]] + subs[1..];
      var rest := Without(subs[1..], symbol);
      assert NoDuplicates(subs) ==> NoDuplicates(subs[1..]) && subs[0] !in subs[1..] by {
        if NoDuplicates(subs) { NoDuplicatesTail(subs); }
      }
      if subs[0] == symbol then rest
      else
        assert NoDuplicates(subs) ==> NoDuplicates([subs[0]] + rest) by {
          if NoDuplicates(subs) { NoDuplicatesCons(subs[0], rest); }
        }
        [subs[0]] + rest
  }

  /** `toggleSubscription(symbol)`: drop every occurrence of a subscribed symbol,
      append an unsubscribed one. */
  function Toggle(subs: seq<string>, symbol: string): seq<string> {
    if symbol in subs then Without(subs, symbol) else subs + [symbol]
  }

  /** Toggling flips the symbol's membership, leaves every other symbol's alone
      and keeps a duplicate-free list duplicate-free. */
  lemma ToggleSpec(subs: seq<string>, symbol: string)
    ensures symbol in Toggle(subs, symbol) <==> symbol !in subs
    ensures forall y :: y != symbol ==> (y in Toggle(subs, symbol) <==> y in subs)
    ensures symbol !in subs ==> Toggle(subs, symbol) == subs + [symbol]
    ensures symbol in subs ==> multiset(Toggle(subs, symbol)) == multiset(subs)[symbol := 0]
    ensures NoDuplicates(subs) ==> NoDuplicates(Toggle(subs, symbol))
  {
    if symbol !in subs && NoDuplicates(subs) {
      var r := subs + [symbol];
      forall i, j | 0 <= i < j < |r| ensures r[i] != r[j] {
        if j == |subs| { assert r[i] == subs[i]; }
      }
    }
  }

  lemma {:induction false} WithoutAbsent(subs: seq<string>, symbol: string)
    requires symbol !in subs
    ensures Without(subs, symbol) == subs
  {
    if subs != [] {
      WithoutAbsent(subs[1..], symbol);
    }
  }

  lemma {:induction false} WithoutAppend(subs: seq<string>, symbol: string)
    ensures Without(subs + [symbol], symbol) == Without(subs, symbol)
  {
    if subs == [] {
      assert [symbol][1..] == [];
    } else {
      assert (subs + [symbol])[1..] == subs[1..] + [symbol];
      WithoutAppend(subs[1..], symbol);
    }
  }

  /** Toggling twice restores the same set of symbols, and restores the very
      list when the symbol was not subscribed. */
  lemma ToggleTwice(subs: seq<string>, symbol: string)
    ensures forall y :: y in Toggle(Toggle(subs, symbol), symbol) <==> y in subs
    ensures symbol !in subs ==> Toggle(Toggle(subs, symbol), symbol) == subs
  {
    if symbol !in subs {
      WithoutAppend(subs, symbol);
      WithoutAbsent(subs, symbol);
    }
  }

  // ---------------------------------------------------------------------
  // getSortedStocks

  datatype SortBy = BySymbol | ByPrice | ByChange
  datatype SortOrder = Asc | Desc

  /** JavaScript's `<` on strings: lexicographic by character, a proper prefix first. */
  predicate LexLess(a: string, b: string) {
    if a == [] then b != []
    else if b == [] then false
    else if a[0] != b[0] then a[0] < b[0]
    else LexLess(a[1..], b[1..])
  }

  lemma {:induction false} LexLessIrreflexive(a: string)
    ensures !LexLess(a, a)
  {
    if a != [] {
      LexLessIrreflexive(a[1..]);
    }
  }

  lemma {:induction false} LexLessTransitive(a: string, b: string, c: string)
    requires LexLess(a, b) && LexLess(b, c)
    ensures LexLess(a, c)
  {
    if a != [] && b != [] && c != [] && a[0] == b[0] == c[0] {
      LexLessTransitive(a[1..], b[1..], c[1..]);
    }
  }

  lemma {:induction false} LexLessTotal(a: string, b: string)
    requires a != b
    ensures LexLess(a, b) || LexLess(b, a)
  {
    if a != [] && b != [] && a[0] == b[0] {
      assert a == [a[0]] + a[1..] && b == [b[0]] + b[1..];
      LexLessTotal(a[1..], b[1..]);
    }
  }

  /** The numeric sort key: `stockPrices[symbol]?.current || 0` or `?.changePercent || 0`. */
  function NumericKey(stock: Stock, key: SortBy, prices: map<string, PriceRecord>): real {
    if stock.symbol !in prices then 0.0
    else if key == ByPrice then prices[stock.symbol].current
    else prices[stock.symbol].changePercent
  }

  /** The comparator returns 1 (`a` goes after `b`): ascending when a's key is
      greater, descending when it is smaller. */
  predicate After(a: Stock, b: Stock, key: SortBy, order: SortOrder, prices: map<string, PriceRecord>) {
    if key == BySymbol then
      if order == Asc then LexLess(b.symbol, a.symbol) else LexLess(a.symbol, b.symbol)
    else
      if order == Asc then NumericKey(a, key, prices) > NumericKey(b, key, prices)
      else NumericKey(a, key, prices) < NumericKey(b, key, prices)
  }

  /** Every later element goes after every earlier one. */
  ghost predicate Ordered(s: seq<Stock>, key: SortBy, order: SortOrder, prices: map<string, PriceRecord>) {
    forall i, j :: 0 <= i < j < |s| ==> After(s[j], s[i], key, order, prices)
  }

  /** Inserts `x` in front of the first element it does not go after. */
  function Insert(x: Stock, s: seq<Stock>, key: SortBy, order: SortOrder, prices: map<string, PriceRecord>): (r: seq<Stock>)
    ensures multiset(r) == multiset(s) + multiset{x}
  {
    if s == [] then [x]
    else if After(x, s[0], key, order, prices) then
      assert s == [s[0]] + s[1..];
      [s[0]] + Insert(x, s[1..], key, order, prices)
    else [x] + s
  }

  /** The table's sort with the source's comparator, as an insertion sort. */
  function Sort(s: seq<Stock>, key: SortBy, order: SortOrder, prices: map<string, PriceRecord>): (r: seq<Stock>)
    ensures multiset(r) == multiset(s)
  {
    if s == [] then []
    else
      assert s == [s[0]] + s[1..];
      Insert(s[0], Sort(s[1..], key, order, prices), key, order, prices)
  }

  /** `STOCKS.filter((s) => subscribedStocks.includes(s.symbol))` */
  function Subscribed(stocks: seq<Stock>, subscribed: seq<string>): (r: seq<Stock>)
    ensures forall x :: x in r <==> x in stocks && x.symbol in subscribed
    ensures multiset(r) <= multiset(stocks)
  {
    if stocks == [] then []
    else
      assert stocks == [stocks[0]] + stocks[1..];
      var rest := Subscribed(stocks[1..], subscribed);
      if stocks[0].symbol in subscribed then [stocks[0]] + rest else rest
  }

  /** Filtering keeps symbols distinct. */
  lemma {:induction false} SubscribedDistinct(stocks: seq<Stock>, subscribed: seq<string>)
    requires DistinctSymbols(stocks)
    ensures DistinctSymbols(Subscribed(stocks, subscribed))
  {
    if stocks != [] {
      DistinctSymbolsTail(stocks);
      SubscribedDistinct(stocks[1..], subscribed);
      if stocks[0].symbol in subscribed {
        DistinctSymbolsCons(stocks[0], Subscribed(stocks[1..], subscribed));
      }
    }
  }

  /** The body of `getSortedStocks()` over a stock list: the list, or in
      watchlist mode its subscribed part, sorted with the chosen key and order. */
  function Arrange(stocks: seq<Stock>, showWatchlist: bool, subscribed: seq<string>, key: SortBy, order: SortOrder,
                   prices: map<string, PriceRecord>): (r: seq<Stock>)
    ensures showWatchlist ==> multiset(r) == multiset(Subscribed(stocks, subscribed))
    ensures !showWatchlist ==> multiset(r) == multiset(stocks)
    ensures forall x :: x in r <==> x in stocks && (showWatchlist ==> x.symbol in subscribed)
  {
    var shown := if showWatchlist then Subscribed(stocks, subscribed) else stocks;
    var r := Sort(shown, key, order, prices);
    assert forall x :: x in r <==> x in multiset(r);
    assert forall x :: x in shown <==> x in multiset(shown);
    r
  }

  /** `getSortedStocks()` on the catalogue. */
  function SortedStocks(showWatchlist: bool, subscribed: seq<string>, key: SortBy, order: SortOrder,
                        prices: map<string, PriceRecord>): seq<Stock>
  {
    Arrange(Catalog, showWatchlist, subscribed, key, order, prices)
  }

  /** The tail of an ordered list is ordered and goes after its head. */
  lemma OrderedTail(s: seq<Stock>, key: SortBy, order: SortOrder, prices: map<string, PriceRecord>)
    requires Ordered(s, key, order, prices) && s != []
    ensures Ordered(s[1..], key, order, prices)
    ensures forall y :: y in s[1..] ==> After(y, s[0], key, order, prices)
  {
    var tail := s[1..];
    forall i, j | 0 <= i < j < |tail| ensures After(tail[j], tail[i], key, order, prices) {
      assert tail[i] == s[i + 1] && tail[j] == s[j + 1];
    }
    forall y | y in tail ensures After(y, s[0], key, order, prices) {
      var m :| 0 <= m < |tail| && tail[m] == y;
      assert tail[m] == s[m + 1];
    }
  }

  /** An element that every element of an ordered list goes after can lead it. */
  lemma OrderedCons(x: Stock, s: seq<Stock>, key: SortBy, order: SortOrder, prices: map<string, PriceRecord>)
    requires Ordered(s, key, order, prices)
    requires forall y :: y in s ==> After(y, x, key, order, prices)
    ensures Ordered([x] + s, key, order, prices)
  {
    var r := [x] + s;
    forall i, j | 0 <= i < j < |r| ensures After(r[j], r[i], key, order, prices) {
      assert r[j] == s[j - 1];
      if i > 0 {
        assert r[i] == s[i - 1];
      }
    }
  }

  /** Inserting a stock with a new symbol into a list ordered by symbol keeps it ordered. */
  lemma {:induction false} InsertOrdered(x: Stock, s: seq<Stock>, order: SortOrder, prices: map<string, PriceRecord>)
    requires Ordered(s, BySymbol, order, prices)
    requires forall y :: y in s ==> y.symbol != x.symbol
    ensures Ordered(Insert(x, s, BySymbol, order, prices), BySymbol, order, prices)
  {
    if s == [] {
    } else if After(x, s[0], BySymbol, order, prices) {
      OrderedTail(s, BySymbol, order, prices);
      InsertOrdered(x, s[1..], order, prices);
      var inserted := Insert(x, s[1..], BySymbol, order, prices);
      forall y | y in inserted ensures After(y, s[0], BySymbol, order, prices) {
        assert y in multiset(s[1..]) + multiset{x};
      }
      OrderedCons(s[0], inserted, BySymbol, order, prices);
    } else {
      if order == Asc {
        LexLessTotal(x.symbol, s[0].symbol);
      } else {
        LexLessTotal(s[0].symbol, x.symbol);
      }
      OrderedTail(s, BySymbol, order, prices);
      forall y | y in s ensures After(y, x, BySymbol, order, prices) {
        if y != s[0] {
          assert y in s[1..] by {
            var m :| 0 <= m < |s| && s[m] == y;
            assert s[1..][m - 1] == y;
          }
          if order == Asc {
            LexLessTransitive(x.symbol, s[0].symbol, y.symbol);
          } else {
            LexLessTransitive(y.symbol, s[0].symbol, x.symbol);
          }
        }
      }
      OrderedCons(x, s, BySymbol, order, prices);
    }
  }

  /** Sorting a list with distinct symbols by symbol yields an ordered list. */
  lemma {:induction false} SortOrdered(s: seq<Stock>, order: SortOrder, prices: map<string, PriceRecord>)
    requires DistinctSymbols(s)
    ensures Ordered(Sort(s, BySymbol, order, prices), BySymbol, order, prices)
  {
    if s != [] {
      DistinctSymbolsTail(s);
      SortOrdered(s[1..], order, prices);
      var sorted := Sort(s[1..], BySymbol, order, prices);
      forall y | y in sorted ensures y.symbol != s[0].symbol {
        assert y in multiset(s[1..]);
      }
      InsertOrdered(s[0], sorted, order, prices);
    }
  }

  /** Sorted by symbol, a list with distinct symbols comes out strictly ascending
      for "asc" and strictly descending otherwise, in both display modes. */
  lemma ArrangedBySymbol(stocks: seq<Stock>, showWatchlist: bool, subscribed: seq<string>, order: SortOrder,
                         prices: map<string, PriceRecord>)
    requires DistinctSymbols(stocks)
    ensures var r := Arrange(stocks, showWatchlist, subscribed, BySymbol, order, prices);
      forall i, j :: 0 <= i < j < |r| ==>
        if order == Asc then LexLess(r[i].symbol, r[j].symbol) else LexLess(r[j].symbol, r[i].symbol)
  {
    if showWatchlist {
      SubscribedDistinct(stocks, subscribed);
      SortOrdered(Subscribed(stocks, subscribed), order, prices);
    } else {
      SortOrdered(stocks, order, prices);
    }
  }

  /** The dashboard's table: a permutation of the catalogue, or of its subscribed
      part in watchlist mode, strictly ordered by symbol when sorted by symbol. */
  lemma SortedStocksSpec(showWatchlist: bool, subscribed: seq<string>, key: SortBy, order: SortOrder,
                         prices: map<string, PriceRecord>)
    ensures var r := SortedStocks(showWatchlist, subscribed, key, order, prices);
      && (showWatchlist ==> multiset(r) == multiset(Subscribed(Catalog, subscribed)))
      && (!showWatchlist ==> multiset(r) == multiset(Catalog))
      && (key == BySymbol ==> forall i, j :: 0 <= i < j < |r| ==>
            if order == Asc then LexLess(r[i].symbol, r[j].symbol) else LexLess(r[j].symbol, r[i].symbol))
  {
    CatalogListed();
    if key == BySymbol {
      ArrangedBySymbol(Catalog, showWatchlist, subscribed, order, prices);
    }
  }
}
