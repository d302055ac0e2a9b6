/** The `contractValueByDate` series of project/src/pages/DashboardPage.tsx:
    the contracts grouped by their formatted date, one point per date in
    order of first occurrence, each with the summed amount.

    The date label `format(new Date(contract.date), 'MMM dd')` is the
    parameter `fmt`, applied to the contract's date. */
module Dashboard {
  import opened Seqs

  datatype Contract = Contract(
    id: string,
    date: int,
    agency: string,
    contractor: string,
    amount: int,
    description: string,
    tags: seq<string>)

  /** One chart point `{date, value}`. */
  datatype Point = Point(date: string, value: int)

  function Amount(c: Contract): int
  {
    c.amount
  }

  function DateLabel(fmt: int -> string): Contract -> string
  {
    (c: Contract) => fmt(c.date)
  }

  function DateIs(d: string): Point -> bool
  {
    (p: Point) => p.date == d
  }

  function PointValue(p: Point): int
  {
    p.value
  }

  /** One point per listed label, with the sum of the amounts of the
      contracts that carry it. */
  function Points(ks: seq<string>, cs: seq<Contract>, fmt: int -> string): (r: seq<Point>)
    ensures |r| == |ks|
    ensures forall j :: 0 <= j < |r| ==> r[j] == Point(ks[j], SumWhere(cs, DateLabel(fmt), ks[j], Amount))
  {
    if ks == [] then []
    else Points(Init(ks), cs, fmt) + [Point(Last(ks), SumWhere(cs, DateLabel(fmt), Last(ks), Amount))]
  }

  /** The series the reduce builds: the labels in order of first
      occurrence, each with its amount sum. */
  function ValueByDate(cs: seq<Contract>, fmt: int -> string): seq<Point>
  {
    Points(DistinctKeys(cs, DateLabel(fmt)), cs, fmt)
  }

  /** acc is the series for s, point by point. */
  ghost predicate Grouped(acc: seq<Point>, s: seq<Contract>, fmt: int -> string)
  {
    var ks := DistinctKeys(s, DateLabel(fmt));
    && |acc| == |ks|
    && forall j :: 0 <= j < |acc| ==> acc[j] == Point(ks[j], SumWhere(s, DateLabel(fmt), ks[j], Amount))
  }

  /** `acc.find(item => item.date === date)` as a position. */
  method Find(acc: seq<Point>, date: string) returns (r: Option<nat>)
    ensures r == FindFirst(acc, DateIs(date))
  {
    var i := 0;
    while i < |acc| && acc[i].date != date
      invariant 0 <= i <= |acc|
      invariant forall j :: 0 <= j < i ==> acc[j].date != date
    {
      i := i + 1;
    }
    r := if i < |acc| then Some(i) else None;
  }

  /** A contract whose label is already in the series adds its amount to
      that point (the in-place `existing.value += contract.amount`). */
  lemma GroupedAdd(acc: seq<Point>, s: seq<Contract>, c: Contract, fmt: int -> string, j: nat)
    requires Grouped(acc, s, fmt)
    requires j < |acc| && acc[j].date == fmt(c.date)
    ensures Grouped(acc[j := Point(fmt(c.date), acc[j].value + c.amount)], s + [c], fmt)
  {
    var key := DateLabel(fmt);
    var ks := DistinctKeys(s, key);
    var acc' := acc[j := Point(fmt(c.date), acc[j].value + c.amount)];
    assert ks[j] == key(c);
    DistinctKeysSnoc(s, c, key);
    forall i | 0 <= i < |acc'|
      ensures acc'[i] == Point(ks[i], SumWhere(s + [c], key, ks[i], Amount))
    {
      SumWhereSnoc(s, c, key, ks[i], Amount);
    }
  }

  /** A contract with a new label appends a point holding its amount. */
  lemma GroupedPush(acc: seq<Point>, s: seq<Contract>, c: Contract, fmt: int -> string)
    requires Grouped(acc, s, fmt)
    requires forall j :: 0 <= j < |acc| ==> acc[j].date != fmt(c.date)
    ensures Grouped(acc + [Point(fmt(c.date), c.amount)], s + [c], fmt)
  {
    var key := DateLabel(fmt);
    var ks := DistinctKeys(s, key);
    var acc' := acc + [Point(fmt(c.date), c.amount)];
    forall j | 0 <= j < |ks| ensures ks[j] != key(c) {
      assert acc[j].date == ks[j];
    }
    DistinctKeysSnoc(s, c, key);
    SumWhereAbsent(s, key, key(c), Amount);
    var ks' := ks + [key(c)];
    forall i | 0 <= i < |acc'|
      ensures acc'[i] == Point(ks'[i], SumWhere(s + [c], key, ks'[i], Amount))
    {
      SumWhereSnoc(s, c, key, ks'[i], Amount);
    }
  }

  /** `contractValueByDate` (project/src/pages/DashboardPage.tsx:120-129). */
  method ContractValueByDate(cs: seq<Contract>, fmt: int -> string) returns (acc: seq<Point>)
    ensures acc == ValueByDate(cs, fmt)
  {
    acc := [];
    for i := 0 to |cs|
      invariant Grouped(acc, cs[..i], fmt)
    {
      var c := cs[i];
      var date := fmt(c.date);
      var existing := Find(acc, date);
      SliceSnoc(cs, i);
      if existing.Some? {
        var j := existing.value;
        GroupedAdd(acc, cs[..i], c, fmt, j);
        acc := acc[j := Point(date, acc[j].value + c.amount)];
      } else {
        GroupedPush(acc, cs[..i], c, fmt);
        acc := acc + [Point(date, c.amount)];
      }
    }
    assert cs[..|cs|] == cs;
  }

  // ---------------------------------------------------------------- properties

  /** No label occurs twice, and each point's value is the sum of the
      amounts of exactly the contracts with that label. */
  lemma ValueByDateDistinct(cs: seq<Contract>, fmt: int -> string)
    ensures var r := ValueByDate(cs, fmt);
      && (forall i, j :: 0 <= i < j < |r| ==> r[i].date != r[j].date)
      && (forall i :: 0 <= i < |r| ==> r[i].value == SumWhere(cs, DateLabel(fmt), r[i].date, Amount))
  {
  }

  /** Every point's label is some contract's label. */
  lemma PointLabelsOccur(cs: seq<Contract>, fmt: int -> string, i: nat)
    requires i < |ValueByDate(cs, fmt)|
    ensures exists m :: 0 <= m < |cs| && fmt(cs[m].date) == ValueByDate(cs, fmt)[i].date
  {
    var key := DateLabel(fmt);
    var ks := DistinctKeys(cs, key);
    DistinctKeysMembers(cs, key);
    assert ks[i] in ks;
    var m :| 0 <= m < |cs| && key(cs[m]) == ks[i];
    assert fmt(cs[m].date) == ValueByDate(cs, fmt)[i].date;
  }

  /** Every contract's label has a point. */
  lemma ContractLabelsCharted(cs: seq<Contract>, fmt: int -> string, m: nat)
    requires m < |cs|
    ensures exists i :: 0 <= i < |ValueByDate(cs, fmt)| && ValueByDate(cs, fmt)[i].date == fmt(cs[m].date)
  {
    var key := DateLabel(fmt);
    var ks := DistinctKeys(cs, key);
    DistinctKeysMembers(cs, key);
    assert key(cs[m]) in ks;
    var i :| 0 <= i < |ks| && ks[i] == key(cs[m]);
    assert ValueByDate(cs, fmt)[i].date == fmt(cs[m].date);
  }

  lemma {:induction false} PointsTotal(ks: seq<string>, cs: seq<Contract>, fmt: int -> string)
    ensures SumOf(Points(ks, cs, fmt), PointValue) == KeysTotal(ks, cs, DateLabel(fmt), Amount)
  {
    if ks != [] {
      PointsTotal(Init(ks), cs, fmt);
      SnocInit(Points(Init(ks), cs, fmt), Point(Last(ks), SumWhere(cs, DateLabel(fmt), Last(ks), Amount)));
    }
  }

  /** The point values add up to the total amount of all contracts. */
  lemma ValueByDateTotal(cs: seq<Contract>, fmt: int -> string)
    ensures SumOf(ValueByDate(cs, fmt), PointValue) == SumOf(cs, Amount)
  {
    PointsTotal(DistinctKeys(cs, DateLabel(fmt)), cs, fmt);
    GroupTotal(cs, DateLabel(fmt), Amount);
  }

  /** Points come in order of first occurrence: a contract carrying a later
      point's label is preceded by a contract carrying the earlier one. */
  lemma ValueByDateOrder(cs: seq<Contract>, fmt: int -> string, i: nat, j: nat, m: nat)
    requires i < j < |ValueByDate(cs, fmt)|
    requires m < |cs| && fmt(cs[m].date) == ValueByDate(cs, fmt)[j].date
    ensures exists m' :: 0 <= m' < m && fmt(cs[m'].date) == ValueByDate(cs, fmt)[i].date
  {
    var key := DateLabel(fmt);
    assert key(cs[m]) == DistinctKeys(cs, key)[j];
    FirstOccurrenceOrder(cs, key, i, j, m);
    var m' :| 0 <= m' < m && key(cs[m']) == DistinctKeys(cs, key)[i];
    assert fmt(cs[m'].date) == ValueByDate(cs, fmt)[i].date;
  }

  /** No contracts, no points. */
  lemma ValueByDateEmpty(fmt: int -> string)
    ensures ValueByDate([], fmt) == []
  {
  }
}
