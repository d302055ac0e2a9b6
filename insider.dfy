/** The insider-trade page of project/src/pages/InsiderTradesPage.tsx: the
    S&P 500 feed (gathered per symbol, then sorted newest first), the
    one-pass aggregation over the feed, and the validation of a single
    ticker's response.

    A transaction's `shares * share_price` is kept as one integer `value`;
    `transaction_date` is a YYYYMMDD integer, whose order is the order of
    the ISO date strings and of the times `new Date(..)` gives them. */
module InsiderTrades {
  import opened Seqs
  import opened Js

  /** The `acquisition_or_disposal` column: 'A', 'D', or any other
      string. */
  datatype Flag = Acquisition | Disposal | OtherFlag

  datatype Transaction = Transaction(
    date: int,
    ticker: string,
    executive: string,
    title: string,
    securityType: string,
    flag: Flag,
    value: int)

  datatype Activity = Activity(symbol: string, transactionCount: int)

  datatype Trend = Trend(date: int, buyCount: int, sellCount: int)

  datatype Aggregated = Aggregated(
    totalBuyValue: int,
    totalSellValue: int,
    largest: Option<Transaction>,
    mostActive: Activity,
    recentTrends: seq<Trend>)

  /** The `data` field of a response: an array of rows, or anything else
      (absent, null, an object). */
  datatype Payload = Rows(rows: seq<Transaction>) | NotRows

  /** A parsed response body: its `error` field (absent, or a string) and
      its `data` field. */
  datatype Response = Response(error: Option<string>, data: Payload)

  const SP500Symbols: seq<string> := [
    "AAPL", "MSFT", "GOOGL", "AMZN", "NVDA",
    "META", "BRK.B", "LLY", "V", "TSM",
    "UNH", "XOM", "JPM", "JNJ", "MA"]

  // ---------------------------------------------------------------- feed

  function RowsOf(p: Payload): seq<Transaction>
  {
    match p
    case Rows(rows) => rows
    case NotRows => []
  }

  /** The rows of every symbol's response that has an array, in symbol
      order. */
  function Gathered(symbols: seq<string>, fetch: string -> Payload): seq<Transaction>
  {
    if symbols == [] then [] else Gathered(Init(symbols), fetch) + RowsOf(fetch(Last(symbols)))
  }

  lemma GatheredStep(symbols: seq<string>, i: nat, fetch: string -> Payload)
    requires i < |symbols|
    ensures Gathered(symbols[..i + 1], fetch) == Gathered(symbols[..i], fetch) + RowsOf(fetch(symbols[i]))
  {
    assert symbols[..i + 1] == symbols[..i] + [symbols[i]];
    SnocInit(symbols[..i], symbols[i]);
  }

  /** The comparator `new Date(b).getTime() - new Date(a).getTime()`, read
      as `cmp(a, b) <= 0`. */
  function Newer(): (Transaction, Transaction) -> bool
  {
    (a: Transaction, b: Transaction) => b.date - a.date <= 0
  }

  /** After the feed sort every transaction is at least as recent as the
      ones behind it, and the feed holds exactly the gathered rows. */
  lemma FeedNewestFirst(ts: seq<Transaction>)
    ensures var r := SortBy(ts, Newer());
      && multiset(r) == multiset(ts)
      && forall i, j :: 0 <= i < j < |r| ==> r[i].date >= r[j].date
  {
    var le := Newer();
    assert TotalPreorder(le);
    SortBySorted(ts, le);
    var r := SortBy(ts, le);
    forall i, j | 0 <= i < j < |r| ensures r[i].date >= r[j].date {
      assert le(r[i], r[j]);
    }
  }

  // ---------------------------------------------------------------- totals

  predicate IsBuy(t: Transaction)
  {
    t.flag == Acquisition
  }

  predicate IsSell(t: Transaction)
  {
    !IsBuy(t)
  }

  function Value(t: Transaction): int
  {
    t.value
  }

  /** `totalBuyValue`: each 'A' transaction's value, added in order. */
  function BuyTotal(ts: seq<Transaction>): int
  {
    if ts == [] then 0 else BuyTotal(Init(ts)) + (if IsBuy(Last(ts)) then Last(ts).value else 0)
  }

  /** `totalSellValue`: the value of every other transaction. */
  function SellTotal(ts: seq<Transaction>): int
  {
    if ts == [] then 0 else SellTotal(Init(ts)) + (if IsBuy(Last(ts)) then 0 else Last(ts).value)
  }

  lemma TotalsSnoc(p: seq<Transaction>, t: Transaction)
    ensures BuyTotal(p + [t]) == BuyTotal(p) + (if IsBuy(t) then t.value else 0)
    ensures SellTotal(p + [t]) == SellTotal(p) + (if IsBuy(t) then 0 else t.value)
  {
    SnocInit(p, t);
  }

  /** Every transaction's value lands in exactly one of the two totals. */
  lemma {:induction false} TotalsPartition(ts: seq<Transaction>)
    ensures BuyTotal(ts) + SellTotal(ts) == SumOf(ts, Value)
  {
    if ts != [] {
      TotalsPartition(Init(ts));
    }
  }

  /** The buy total is the sum over the 'A' transactions. */
  lemma {:induction false} BuyTotalFiltered(ts: seq<Transaction>)
    ensures BuyTotal(ts) == SumOf(Filter(ts, IsBuy), Value)
  {
    if ts != [] {
      var p, t := Init(ts), Last(ts);
      BuyTotalFiltered(p);
      SnocInit(Filter(p, IsBuy), t);
    }
  }

  /** The sell total is the sum over all the other transactions. */
  lemma {:induction false} SellTotalFiltered(ts: seq<Transaction>)
    ensures SellTotal(ts) == SumOf(Filter(ts, IsSell), Value)
  {
    if ts != [] {
      var p, t := Init(ts), Last(ts);
      SellTotalFiltered(p);
      SnocInit(Filter(p, IsSell), t);
    }
  }

  // ---------------------------------------------------------------- largest

  /** The `forEach` replacement rule: a later transaction replaces the held
      one only when its value is strictly greater. */
  function Largest(ts: seq<Transaction>): Option<Transaction>
  {
    if ts == [] then None
    else
      var m := Largest(Init(ts));
      if m.None? || Last(ts).value > m.value.value then Some(Last(ts)) else m
  }

  /** ts[k] has the maximal value, and every transaction before it a
      smaller one. */
  predicate FirstMaximum(ts: seq<Transaction>, k: int)
  {
    && 0 <= k < |ts|
    && (forall j :: 0 <= j < |ts| ==> ts[j].value <= ts[k].value)
    && (forall j :: 0 <= j < k ==> ts[j].value < ts[k].value)
  }

  lemma LargestSnoc(p: seq<Transaction>, t: Transaction)
    ensures Largest(p + [t]) ==
      if Largest(p).None? || t.value > Largest(p).value.value then Some(t) else Largest(p)
  {
    SnocInit(p, t);
  }

  /** The held transaction has the maximal value, and no earlier transaction
      has that value: on ties the first one stays. */
  lemma {:induction false} LargestIsFirstMaximum(ts: seq<Transaction>)
    ensures Largest(ts).None? <==> ts == []
    ensures Largest(ts).Some? ==>
      exists k :: FirstMaximum(ts, k) && ts[k] == Largest(ts).value
  {
    if ts != [] {
      var p := Init(ts);
      LargestIsFirstMaximum(p);
      var n := |ts| - 1;
      assert forall j :: 0 <= j < n ==> p[j] == ts[j];
      var m := Largest(p);
      if m.None? || Last(ts).value > m.value.value {
        assert forall j :: 0 <= j < n ==> ts[j].value < ts[n].value by {
          if m.Some? {
            var k :| FirstMaximum(p, k) && p[k] == m.value;
          }
        }
        assert FirstMaximum(ts, n) && ts[n] == Last(ts);
      } else {
        var k :| FirstMaximum(p, k) && p[k] == m.value;
        assert FirstMaximum(ts, k) && ts[k] == m.value;
      }
    }
  }

  // ---------------------------------------------------------------- per ticker

  function Ticker(t: Transaction): string
  {
    t.ticker
  }

  /** One `[symbol, count]` entry per listed ticker. */
  function CountEntries(ks: seq<string>, ts: seq<Transaction>): (r: seq<Activity>)
    ensures |r| == |ks|
    ensures forall j :: 0 <= j < |r| ==> r[j] == Activity(ks[j], SumWhere(ts, Ticker, ks[j], One))
  {
    if ks == [] then []
    else CountEntries(Init(ks), ts) + [Activity(Last(ks), SumWhere(ts, Ticker, Last(ks), One))]
  }

  /** `Object.entries(companyTransactions)`: the tickers in order of first
      occurrence, each with its number of transactions. */
  function TickerCounts(ts: seq<Transaction>): seq<Activity>
  {
    CountEntries(DistinctKeys(ts, Ticker), ts)
  }

  function Count(a: Activity): int
  {
    a.transactionCount
  }

  lemma {:induction false} CountEntriesTotal(ks: seq<string>, ts: seq<Transaction>)
    ensures SumOf(CountEntries(ks, ts), Count) == KeysTotal(ks, ts, Ticker, One)
  {
    if ks != [] {
      CountEntriesTotal(Init(ks), ts);
      SnocInit(CountEntries(Init(ks), ts), Activity(Last(ks), SumWhere(ts, Ticker, Last(ks), One)));
    }
  }

  /** The per-ticker counts add up to the number of transactions. */
  lemma TickerCountsTotal(ts: seq<Transaction>)
    ensures SumOf(TickerCounts(ts), Count) == |ts|
  {
    CountEntriesTotal(DistinctKeys(ts, Ticker), ts);
    GroupTotal(ts, Ticker, One);
    SumOneIsLength(ts);
  }

  /** A ticker that occurs has a count of at least one. */
  lemma {:induction false} OccurringTickerCounted(ts: seq<Transaction>, k: string)
    requires k in DistinctKeys(ts, Ticker)
    ensures SumWhere(ts, Ticker, k, One) >= 1
  {
    var p := Init(ts);
    if k in DistinctKeys(p, Ticker) {
      OccurringTickerCounted(p, k);
      NoNegativeCount(p, k);
    } else {
      NoNegativeCount(p, k);
      assert Last(ts).ticker == k;
    }
  }

  lemma {:induction false} NoNegativeCount(ts: seq<Transaction>, k: string)
    ensures SumWhere(ts, Ticker, k, One) >= 0
  {
    if ts != [] {
      NoNegativeCount(Init(ts), k);
    }
  }

  // ---------------------------------------------------------------- most active

  /** `reduce((max, [symbol, count]) => count > max.transactionCount ?
      {symbol, transactionCount: count} : max, {symbol: '', transactionCount: 0})`. */
  function MostActive(es: seq<Activity>): Activity
  {
    if es == [] then Activity("", 0)
    else
      var m := MostActive(Init(es));
      if Last(es).transactionCount > m.transactionCount then Last(es) else m
  }

  /** es[k] is r, and every entry before it has a smaller count. */
  predicate FirstWithCount(es: seq<Activity>, k: int, r: Activity)
  {
    0 <= k < |es| && es[k] == r && forall j :: 0 <= j < k ==> es[j].transactionCount < r.transactionCount
  }

  /** The reduce keeps a maximal count, starting from `{'', 0}`; a replacing
      entry needs a strictly larger count, so the first entry with the
      maximal count wins. */
  lemma {:induction false} MostActiveIsFirstMaximum(es: seq<Activity>)
    ensures var r := MostActive(es);
      && r.transactionCount >= 0
      && (forall j :: 0 <= j < |es| ==> es[j].transactionCount <= r.transactionCount)
      && (r.transactionCount == 0 ==> r == Activity("", 0))
      && (r.transactionCount > 0 ==> exists k :: FirstWithCount(es, k, r))
  {
    if es != [] {
      var p := Init(es);
      MostActiveIsFirstMaximum(p);
      var n := |es| - 1;
      assert forall j :: 0 <= j < n ==> p[j] == es[j];
      var m := MostActive(p);
      if Last(es).transactionCount > m.transactionCount {
        assert FirstWithCount(es, n, Last(es));
      } else if m.transactionCount > 0 {
        var k :| FirstWithCount(p, k, m);
        assert FirstWithCount(es, k, m);
      }
    }
  }

  /** Over the ticker counts: no transactions give `{'', 0}`; otherwise the
      result is an occurring ticker with its true count, no ticker has more
      transactions, and every ticker seen before it has fewer. */
  lemma MostActiveTicker(ts: seq<Transaction>)
    ensures ts == [] ==> MostActive(TickerCounts(ts)) == Activity("", 0)
    ensures ts != [] ==> var r := MostActive(TickerCounts(ts));
      && r.symbol in DistinctKeys(ts, Ticker)
      && r.transactionCount == SumWhere(ts, Ticker, r.symbol, One)
      && (forall t :: t in ts ==> SumWhere(ts, Ticker, t.ticker, One) <= r.transactionCount)
      && exists k :: FirstWithCount(TickerCounts(ts), k, r)
  {
    var es := TickerCounts(ts);
    MostActiveIsFirstMaximum(es);
    if ts != [] {
      var r := MostActive(es);
      TickerEntry(ts, ts[0]);
      var k :| FirstWithCount(es, k, r);
      forall t | t in ts ensures SumWhere(ts, Ticker, t.ticker, One) <= r.transactionCount {
        TickerEntry(ts, t);
        var e := Activity(t.ticker, SumWhere(ts, Ticker, t.ticker, One));
        var j :| 0 <= j < |es| && es[j] == e;
      }
    }
  }

  /** Every transaction's ticker has an entry with its count, at least one. */
  lemma TickerEntry(ts: seq<Transaction>, t: Transaction)
    requires t in ts
    ensures Activity(t.ticker, SumWhere(ts, Ticker, t.ticker, One)) in TickerCounts(ts)
    ensures SumWhere(ts, Ticker, t.ticker, One) >= 1
  {
    var ks := DistinctKeys(ts, Ticker);
    DistinctKeysMembers(ts, Ticker);
    var i :| 0 <= i < |ts| && ts[i] == t;
    assert t.ticker in ks;
    var k :| 0 <= k < |ks| && ks[k] == t.ticker;
    OccurringTickerCounted(ts, t.ticker);
    assert TickerCounts(ts)[k] == Activity(t.ticker, SumWhere(ts, Ticker, t.ticker, One));
  }

  // ---------------------------------------------------------------- calendar

  function Year(d: int): int
  {
    d / 10000
  }

  function Month(d: int): int
  {
    d / 100 % 100
  }

  function Day(d: int): int
  {
    d % 100
  }

  function Ymd(y: int, m: int, day: int): int
  {
    y * 10000 + m * 100 + day
  }

  predicate LeapYear(y: int)
  {
    y % 4 == 0 && (y % 100 != 0 || y % 400 == 0)
  }

  function DaysInMonth(y: int, m: int): (r: int)
    ensures 28 <= r <= 31
  {
    if m == 2 then (if LeapYear(y) then 29 else 28)
    else if m == 4 || m == 6 || m == 9 || m == 11 then 30
    else 31
  }

  /** A calendar date with a four-digit year, as `toISOString` writes it. */
  predicate ValidDate(d: int)
  {
    1 <= Year(d) <= 9999 && 1 <= Month(d) <= 12 && 1 <= Day(d) <= DaysInMonth(Year(d), Month(d))
  }

  lemma YmdParts(y: int, m: int, day: int)
    requires 0 <= y && 0 <= m < 100 && 0 <= day < 100
    ensures Year(Ymd(y, m, day)) == y && Month(Ymd(y, m, day)) == m && Day(Ymd(y, m, day)) == day
  {
    var d := Ymd(y, m, day);
    assert d / 100 == y * 100 + m;
    assert (y * 100 + m) % 100 == m;
    assert d / 10000 == (y * 100 + m) / 100;
  }

  lemma DateParts(d: int)
    requires d >= 0
    ensures d == Ymd(Year(d), Month(d), Day(d))
  {
    assert d == d / 100 * 100 + d % 100;
    assert d / 100 == d / 100 / 100 * 100 + d / 100 % 100;
    assert d / 100 / 100 == d / 10000;
  }

  /** `date.setDate(date.getDate() - 1)`: the calendar day before. */
  function PrevDay(d: int): int
  {
    if Day(d) > 1 then d - 1
    else if Month(d) > 1 then Ymd(Year(d), Month(d) - 1, DaysInMonth(Year(d), Month(d) - 1))
    else Ymd(Year(d) - 1, 12, 31)
  }

  /** The day before a valid date after 0001-01-01 is a valid, smaller
      date. */
  lemma PrevDayValid(d: int)
    requires ValidDate(d) && Year(d) >= 2
    ensures ValidDate(PrevDay(d))
    ensures PrevDay(d) < d
    ensures Year(PrevDay(d)) >= Year(d) - 1
  {
    var y, m, day := Year(d), Month(d), Day(d);
    DateParts(d);
    if day > 1 {
      assert PrevDay(d) == Ymd(y, m, day - 1);
      PrevInMonth(y, m, day);
    } else if m > 1 {
      assert PrevDay(d) == Ymd(y, m - 1, DaysInMonth(y, m - 1));
      PrevAcrossMonth(y, m);
    } else {
      assert m == 1 && day == 1;
      assert PrevDay(d) == Ymd(y - 1, 12, 31);
      PrevAcrossYear(y);
    }
  }

  lemma PrevInMonth(y: int, m: int, day: int)
    requires 1 <= y <= 9999 && 1 <= m <= 12 && 2 <= day <= DaysInMonth(y, m)
    ensures var r := Ymd(y, m, day - 1); ValidDate(r) && r < Ymd(y, m, day) && Year(r) == y
  {
    YmdParts(y, m, day - 1);
  }

  lemma PrevAcrossMonth(y: int, m: int)
    requires 1 <= y <= 9999 && 2 <= m <= 12
    ensures var r := Ymd(y, m - 1, DaysInMonth(y, m - 1)); ValidDate(r) && r < Ymd(y, m, 1) && Year(r) == y
  {
    YmdParts(y, m - 1, DaysInMonth(y, m - 1));
  }

  lemma PrevAcrossYear(y: int)
    requires 2 <= y <= 9999
    ensures var r := Ymd(y - 1, 12, 31); ValidDate(r) && r < Ymd(y, 1, 1) && Year(r) == y - 1
  {
    YmdParts(y - 1, 12, 31);
  }

  /** The date n days before today. */
  function DaysBefore(today: int, n: nat): int
  {
    if n == 0 then today else PrevDay(DaysBefore(today, n - 1))
  }

  /** `[...Array(7)].map((_, i) => ...)`: today and the six days before. */
  function Last7Days(today: int): (r: seq<int>)
    ensures |r| == 7
  {
    seq(7, i requires 0 <= i < 7 => DaysBefore(today, i))
  }

  lemma {:induction false} DaysBeforeValid(today: int, n: nat)
    requires ValidDate(today) && Year(today) >= 1 + n
    ensures ValidDate(DaysBefore(today, n)) && Year(DaysBefore(today, n)) >= Year(today) - n
    ensures forall k: nat :: k < n ==> DaysBefore(today, n) < DaysBefore(today, k)
  {
    if n > 0 {
      DaysBeforeValid(today, n - 1);
      PrevDayValid(DaysBefore(today, n - 1));
    }
  }

  /** For a valid today (from the year 7 on) the seven dates are
      valid and strictly decreasing, so no two of them coincide. */
  lemma Last7DaysDecreasing(today: int)
    requires ValidDate(today) && Year(today) >= 7
    ensures var r := Last7Days(today);
      && (forall i :: 0 <= i < 7 ==> ValidDate(r[i]))
      && forall i, j :: 0 <= i < j < 7 ==> r[i] > r[j]
  {
    var r := Last7Days(today);
    forall j | 0 <= j < 7 ensures ValidDate(r[j]) && forall i :: 0 <= i < j ==> r[i] > r[j] {
      DaysBeforeValid(today, j);
    }
  }

  // ---------------------------------------------------------------- trends

  function OnDate(d: int): Transaction -> bool
  {
    (t: Transaction) => t.date == d
  }

  function BuyOn(d: int): Transaction -> bool
  {
    (t: Transaction) => t.date == d && t.flag == Acquisition
  }

  function SellOn(d: int): Transaction -> bool
  {
    (t: Transaction) => t.date == d && t.flag == Disposal
  }

  function TrendOn(ts: seq<Transaction>, d: int): Trend
  {
    Trend(d, |Filter(ts, BuyOn(d))|, |Filter(ts, SellOn(d))|)
  }

  function RecentTrends(ts: seq<Transaction>, today: int): (r: seq<Trend>)
    ensures |r| == 7
  {
    var days := Last7Days(today);
    seq(7, i requires 0 <= i < 7 => TrendOn(ts, days[i]))
  }

  /** Each day's entry counts the 'A' and the 'D' transactions of that day;
      a flag other than 'A' or 'D' is in neither count, so together they are
      at most the day's transactions. */
  lemma RecentTrendsCounts(ts: seq<Transaction>, today: int)
    ensures forall i :: 0 <= i < 7 ==> var e := RecentTrends(ts, today)[i];
      && e.date == DaysBefore(today, i)
      && e.buyCount == |Filter(ts, BuyOn(e.date))| && e.sellCount == |Filter(ts, SellOn(e.date))|
      && (forall t :: t in Filter(ts, BuyOn(e.date)) <==> t in ts && t.date == e.date && t.flag == Acquisition)
      && (forall t :: t in Filter(ts, SellOn(e.date)) <==> t in ts && t.date == e.date && t.flag == Disposal)
      && e.buyCount + e.sellCount <= |Filter(ts, OnDate(e.date))|
  {
    forall i | 0 <= i < 7
      ensures var e := RecentTrends(ts, today)[i];
        e.buyCount + e.sellCount <= |Filter(ts, OnDate(e.date))|
    {
      var d := DaysBefore(today, i);
      FilterDisjointBound(ts, BuyOn(d), SellOn(d), OnDate(d));
    }
  }

  // ---------------------------------------------------------------- aggregation

  /** What `calculateAggregatedData` computes. */
  function Aggregate(ts: seq<Transaction>, today: int): Aggregated
  {
    Aggregated(BuyTotal(ts), SellTotal(ts), Largest(ts), MostActive(TickerCounts(ts)), RecentTrends(ts, today))
  }

  /** The `forEach` pass (project/src/pages/InsiderTradesPage.tsx:117-133):
      the two totals, the per-ticker dictionary with its key order, and the
      held largest transaction, which starts as `transactions[0]`. */
  method Scan(ts: seq<Transaction>)
    returns (buy: int, sell: int, tickers: seq<string>, counts: map<string, int>, largest: Option<Transaction>)
    ensures buy == BuyTotal(ts) && sell == SellTotal(ts)
    ensures tickers == DistinctKeys(ts, Ticker) && SumsBy(counts, ts, Ticker, One)
    ensures largest == Largest(ts)
  {
    buy, sell := 0, 0;
    tickers, counts := [], map[];
    largest := if ts == [] then None else Some(ts[0]);
    for i := 0 to |ts|
      invariant buy == BuyTotal(ts[..i]) && sell == SellTotal(ts[..i])
      invariant tickers == DistinctKeys(ts[..i], Ticker) && SumsBy(counts, ts[..i], Ticker, One)
      invariant largest == if i == 0 then (if ts == [] then None else Some(ts[0])) else Largest(ts[..i])
    {
      var t := ts[i];
      var p := ts[..i];
      SliceSnoc(ts, i);
      TotalsSnoc(p, t);
      LargestSnoc(p, t);
      if t.flag == Acquisition {
        buy := buy + t.value;
      } else {
        sell := sell + t.value;
      }
      assert buy == BuyTotal(p + [t]) && sell == SellTotal(p + [t]);
      DistinctKeysSnoc(p, t, Ticker);
      AddToSums(counts, p, t, Ticker, One);
      if t.ticker !in counts {
        tickers := tickers + [t.ticker];
      }
      counts := AddTo(counts, t.ticker, 1);
      if largest.None? || t.value > largest.value.value {
        largest := Some(t);
      }
    }
    assert ts[..|ts|] == ts;
  }

  /** `calculateAggregatedData` (project/src/pages/InsiderTradesPage.tsx:107-160),
      with the clock's current UTC date as the parameter today. */
  method CalculateAggregatedData(ts: seq<Transaction>, today: int) returns (data: Aggregated)
    ensures data == Aggregate(ts, today)
  {
    var buy, sell, tickers, counts, largest := Scan(ts);
    forall j | 0 <= j < |tickers| ensures tickers[j] in counts {
      var k := tickers[j];
      assert k in tickers;
    }
    var entries := seq(|tickers|, j requires 0 <= j < |tickers| => Activity(tickers[j], counts[tickers[j]]));
    assert entries == TickerCounts(ts);
    data := Aggregated(buy, sell, largest, MostActive(entries), RecentTrends(ts, today));
  }

  /** The request loop and the sort of `fetchSP500Feed`
      (project/src/pages/InsiderTradesPage.tsx:76-96): the rows of the first
      five symbols, pushed in symbol order, then sorted newest first in
      place. */
  method CollectFeed(fetch: string -> Payload) returns (all: seq<Transaction>)
    ensures all == SortBy(Gathered(SP500Symbols[..5], fetch), Newer())
  {
    var symbols := SP500Symbols[..5];
    all := [];
    for i := 0 to |symbols|
      invariant all == Gathered(symbols[..i], fetch)
    {
      GatheredStep(symbols, i, fetch);
      var data := fetch(symbols[i]);
      if data.Rows? {
        all := all + data.rows;
      }
    }
    assert symbols[..|symbols|] == symbols;
    all := SortBy(all, Newer());
  }

  // ---------------------------------------------------------------- search

  /** `if (data.error)`: an absent or empty error is falsy. */
  predicate HasError(r: Response)
  {
    r.error.Some? && r.error.value != ""
  }

  /** The checks of `fetchInsiderTrades`: a truthy `error` is thrown as the
      message, then a `data` that is not an array is rejected. */
  function Validate(r: Response): (res: Result<seq<Transaction>>)
    ensures res.Ok? <==> !HasError(r) && r.data.Rows?
    ensures HasError(r) ==> res == Err(r.error.value)
    ensures !HasError(r) && r.data.NotRows? ==> res == Err("Invalid data format received")
    ensures res.Ok? ==> res.value == r.data.rows
  {
    if HasError(r) then Err(r.error.value)
    else if r.data.NotRows? then Err("Invalid data format received")
    else Ok(r.data.rows)
  }

  /** The page's state. */
  class TradesPage {
    var transactions: seq<Transaction>
    var loading: bool
    var error: Option<string>
    var feed: seq<Transaction>
    var loadingFeed: bool
    var aggregated: Option<Aggregated>

    /** The `useState` initial values (project/src/pages/InsiderTradesPage.tsx:60-66). */
    constructor ()
      ensures transactions == [] && !loading && error == None
      ensures feed == [] && loadingFeed && aggregated == None
    {
      transactions := [];
      loading := false;
      error := None;
      feed := [];
      loadingFeed := true;
      aggregated := None;
    }

    /** `fetchSP500Feed` (project/src/pages/InsiderTradesPage.tsx:72-105):
        fetch is the response data for a symbol; the pause between requests
        is a no-op. */
    method FetchSP500Feed(fetch: string -> Payload, today: int)
      modifies this
      ensures feed == SortBy(Gathered(SP500Symbols[..5], fetch), Newer())
      ensures aggregated == Some(Aggregate(feed, today))
      ensures !loadingFeed
      ensures transactions == old(transactions) && loading == old(loading) && error == old(error)
    {
      loadingFeed := true;
      var all := CollectFeed(fetch);
      feed := all;
      var data := CalculateAggregatedData(all, today);
      aggregated := Some(data);
      loadingFeed := false;
    }

    /** `fetchInsiderTrades` (project/src/pages/InsiderTradesPage.tsx:162-187):
        response is the parsed body for the ticker. A rejected response
        leaves no transactions and its message as the error. */
    method FetchInsiderTrades(response: Response)
      modifies this
      ensures Validate(response).Ok? ==> transactions == Validate(response).value && error == None
      ensures Validate(response).Err? ==> transactions == [] && error == Some(Validate(response).message)
      ensures !loading
      ensures feed == old(feed) && loadingFeed == old(loadingFeed) && aggregated == old(aggregated)
    {
      loading := true;
      error := None;
      if HasError(response) {
        error := Some(response.error.value);
        transactions := [];
      } else if !response.data.Rows? {
        error := Some("Invalid data format received");
        transactions := [];
      } else {
        transactions := response.data.rows;
      }
      loading := false;
    }
  }
}
