/** The market list in the sidebar (src/components/Sidebar.tsx): a fixed table of eight markets,
    a case-insensitive search filter, the selection toggle and the row labels. */
module Sidebar {
  import opened Seqs
  import opened Strings

  /** One row of the fixed market table; price and change are display-only numbers. */
  datatype Market = Market(symbol: string, price: real, change: real)

  /** The hard-coded table the list is drawn from. */
  function Markets(): seq<Market> {
    [ Market("BTC-USDT", 61594.98, 1.05),
      Market("ETH-USDT", 3421.67, -0.24),
      Market("ADA-USDT", 0.4523, 6.11),
      Market("DOT-USDT", 7.89, -2.34),
      Market("SOL-USDT", 156.78, 4.56),
      Market("MATIC-USDT", 1.23, -1.87),
      Market("LINK-USDT", 18.45, 3.21),
      Market("UNI-USDT", 9.87, -0.98) ]
  }

  /** A market matches when its lower-cased symbol contains the lower-cased term. */
  predicate Matches(m: Market, term: string) {
    Includes(ToLower(m.symbol), ToLower(term))
  }

  /** The filter callback for one search term. */
  function MatchesTerm(term: string): Market -> bool {
    (m: Market) => Matches(m, term)
  }

  /** The entries of a table that match the term, in table order. */
  function Search(table: seq<Market>, term: string): (r: seq<Market>)
    ensures |r| <= |table|
    ensures forall m :: m in r <==> m in table && Matches(m, term)
  {
    Filter(table, MatchesTerm(term))
  }

  /** `filteredSymbols`: the search runs over the fixed table. */
  function FilteredMarkets(term: string): (r: seq<Market>)
    ensures |r| <= |Markets()|
    ensures forall m :: m in r <==> m in Markets() && Matches(m, term)
  {
    Search(Markets(), term)
  }

  /** The empty search term keeps every entry. */
  lemma EmptyTermKeepsAll(table: seq<Market>)
    ensures Search(table, "") == table
  {
    forall k | 0 <= k < |table|
      ensures MatchesTerm("")(table[k])
    {
      assert ToLower("") == "";
      IncludesEmpty(ToLower(table[k].symbol));
    }
    FilterKeepsAll(table, MatchesTerm(""));
  }

  /** With an empty search box all eight markets are listed. */
  lemma EmptyTermShowsAll()
    ensures |FilteredMarkets("")| == 8 && FilteredMarkets("") == Markets()
  {
    EmptyTermKeepsAll(Markets());
  }

  /** Lower-casing twice is lower-casing once. */
  lemma ToLowerIdempotent(s: string)
    ensures ToLower(ToLower(s)) == ToLower(s)
  {
    var t := ToLower(s);
    forall k | 0 <= k < |s|
      ensures ToLower(t)[k] == t[k]
    {
      assert !('A' <= t[k] <= 'Z');
    }
  }

  /** The search is case-insensitive: a term and its lower-cased form select the same rows. */
  lemma SearchIgnoresCase(table: seq<Market>, term: string)
    ensures Search(table, term) == Search(table, ToLower(term))
  {
    ToLowerIdempotent(term);
    forall k | 0 <= k < |table|
      ensures MatchesTerm(term)(table[k]) == MatchesTerm(ToLower(term))(table[k])
    {
    }
    FilterAgreeing(table, MatchesTerm(term), MatchesTerm(ToLower(term)));
  }

  /** What the list area shows: the loading skeleton, or the filtered table. */
  datatype Row = Skeleton | MarketRow(market: Market)

  /** The rows for a list of shown markets: eight skeleton rows while loading. */
  function ListRows(loading: bool, shown: seq<Market>): (r: seq<Row>)
    ensures loading ==> |r| == 8 && forall k :: 0 <= k < |r| ==> r[k] == Skeleton
    ensures !loading ==> |r| == |shown| && forall k :: 0 <= k < |r| ==> r[k] == MarketRow(shown[k])
  {
    if loading then seq(8, _ => Skeleton)
    else seq(|shown|, k requires 0 <= k < |shown| => MarketRow(shown[k]))
  }

  /** The list area: the `symbols` prop it is given is never consulted. */
  function Rows(symbols: seq<string>, loading: bool, term: string): (r: seq<Row>)
    ensures loading ==> |r| == 8
    ensures !loading ==> |r| == |FilteredMarkets(term)|
    ensures !loading ==> forall k :: 0 <= k < |r| ==> r[k] == MarketRow(FilteredMarkets(term)[k])
  {
    ListRows(loading, FilteredMarkets(term))
  }

  lemma RowsIgnoreSymbols(s1: seq<string>, s2: seq<string>, loading: bool, term: string)
    ensures Rows(s1, loading, term) == Rows(s2, loading, term)
  {
  }

  /** The filter callback `s => s !== symbol`. */
  function Other(symbol: string): string -> bool {
    (s: string) => s != symbol
  }

  /** `handleSymbolClick`: removes every occurrence of a selected symbol, or appends an
      unselected one. */
  function ToggleSymbol(selected: seq<string>, symbol: string): (r: seq<string>)
    ensures symbol in r <==> symbol !in selected
    ensures forall x :: x != symbol ==> (x in r <==> x in selected)
    ensures symbol !in selected ==> r == selected + [symbol]
  {
    if symbol in selected then Filter(selected, Other(symbol))
    else selected + [symbol]
  }

  /** A list without the symbol passes the filter unchanged. */
  lemma OtherKeepsAll(a: seq<string>, symbol: string)
    requires symbol !in a
    ensures Filter(a, Other(symbol)) == a
  {
    assert forall k :: 0 <= k < |a| ==> Other(symbol)(a[k]);
    FilterKeepsAll(a, Other(symbol));
  }

  /** Toggling a selected symbol, wherever and however often it occurs, removes all its
      occurrences and keeps the other symbols in order; a list holding it once loses just it. */
  lemma TogglePresentRemovesAll(a: seq<string>, b: seq<string>, symbol: string)
    ensures ToggleSymbol(a + [symbol] + b, symbol) == Filter(a, Other(symbol)) + Filter(b, Other(symbol))
    ensures symbol !in a && symbol !in b ==> ToggleSymbol(a + [symbol] + b, symbol) == a + b
  {
    var p := Other(symbol);
    assert (a + [symbol] + b)[|a|] == symbol;
    assert !p(symbol);
    FilterDropsAll([symbol], p);
    calc {
      Filter(a + [symbol] + b, p);
      { FilterAppend(a + [symbol], b, p); }
      Filter(a + [symbol], p) + Filter(b, p);
      { FilterAppend(a, [symbol], p); }
      Filter(a, p) + Filter([symbol], p) + Filter(b, p);
      { assert Filter(a, p) + [] == Filter(a, p); }
      Filter(a, p) + Filter(b, p);
    }
    if symbol !in a && symbol !in b {
      OtherKeepsAll(a, symbol);
      OtherKeepsAll(b, symbol);
    }
  }

  /** Toggling an unselected symbol twice gives back the original selection. */
  lemma ToggleTwiceRestores(selected: seq<string>, symbol: string)
    requires symbol !in selected
    ensures ToggleSymbol(ToggleSymbol(selected, symbol), symbol) == selected
  {
    TogglePresentRemovesAll(selected, [], symbol);
    assert selected + [symbol] + [] == selected + [symbol];
    assert selected + [] == selected;
  }

  /** The row label: the symbol with its first `-USDT` removed. A symbol without `-USDT` is its
      own label; one with it is five characters shorter. */
  function Label(symbol: string): (r: string)
    ensures !Includes(symbol, "-USDT") ==> r == symbol
    ensures Includes(symbol, "-USDT") ==> |r| == |symbol| - 5
  {
    ReplaceFirst(symbol, "-USDT", "")
  }

  /** A `BASE-USDT` pair whose base has no dash is labelled by its base. */
  lemma PairLabel(base: string)
    requires '-' !in base
    ensures Label(base + "-USDT") == base
  {
    ReplaceFirstOfSuffix(base, "-USDT");
  }

  lemma MarketLabels()
    ensures forall k :: 0 <= k < |Markets()| ==>
      Label(Markets()[k].symbol) == ["BTC", "ETH", "ADA", "DOT", "SOL", "MATIC", "LINK", "UNI"][k]
  {
    var bases := ["BTC", "ETH", "ADA", "DOT", "SOL", "MATIC", "LINK", "UNI"];
    forall k | 0 <= k < 8
      ensures Label(Markets()[k].symbol) == bases[k]
    {
      assert Markets()[k].symbol == bases[k] + "-USDT";
      PairLabel(bases[k]);
    }
  }

  /** A positive change draws the up arrow in green with a `+` sign; zero and negatives draw
      the down arrow in red without a sign. */
  datatype Trend = Up | Down

  function TrendOf(change: real): (t: Trend)
    ensures t == Up <==> change > 0.0
  {
    if change > 0.0 then Up else Down
  }

  function SignPrefix(change: real): (s: string)
    ensures s == "+" <==> TrendOf(change) == Up
    ensures s == "" <==> TrendOf(change) == Down
  {
    if change > 0.0 then "+" else ""
  }
}
