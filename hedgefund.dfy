/** The hedge-fund table of project/src/pages/HedgeFundDashboard.tsx: the
    top-ten chart selection, the table comparator with its null handling,
    and the sort-direction toggle of the table headers.

    Numeric fields are reals; a manager's fields that the dataset leaves
    `null` are `None`. The dataset itself is a parameter: both sorts work on
    a spread copy, and here every list is a value, so `data` is never
    changed by them. */
module HedgeFund {
  import opened Seqs
  import Js

  datatype Manager = Manager(
    rank: real,
    managerName: string,
    fundName: string,
    earnings: Option<real>,
    returnsPct: Option<real>,  // the `returns` field
    aum: Option<real>,
    description: string,
    strategy: string)

  /** The two options of the chart's `view` selector. */
  datatype View = Earnings | Returns

  function Viewed(m: Manager, v: View): Option<real>
  {
    match v
    case Earnings => m.earnings
    case Returns => m.returnsPct
  }

  // ---------------------------------------------------------------- top ten

  /** `b[view] - a[view]` converts `null` to 0. */
  function AsNumber(x: Option<real>): real
  {
    if x.None? then 0.0 else x.value
  }

  /** The comparator `(a, b) => b[view] - a[view]`, read as `cmp(a, b) <= 0`. */
  function HigherViewed(v: View): (Manager, Manager) -> bool
  {
    (a: Manager, b: Manager) => AsNumber(Viewed(b, v)) - AsNumber(Viewed(a, v)) <= 0.0
  }

  /** `.filter((item, index) => index < 10 && item[view] !== null)`. */
  function FirstTenViewed(s: seq<Manager>, v: View): seq<Manager>
  {
    if s == [] then []
    else FirstTenViewed(Init(s), v) + (if |s| - 1 < 10 && Viewed(Last(s), v).Some? then [Last(s)] else [])
  }

  /** `topManagers` (project/src/pages/HedgeFundDashboard.tsx:70-72). */
  function TopManagers(data: seq<Manager>, v: View): seq<Manager>
  {
    FirstTenViewed(SortBy(data, HigherViewed(v)), v)
  }

  function HasViewed(v: View): Manager -> bool
  {
    (m: Manager) => Viewed(m, v).Some?
  }

  /** The index filter is the filter by a non-null field over the first ten. */
  lemma {:induction false} FirstTenIsTakeThenFilter(s: seq<Manager>, v: View)
    ensures FirstTenViewed(s, v) == Filter(Take(s, 10), HasViewed(v))
  {
    if s != [] {
      var p, x := Init(s), Last(s);
      FirstTenIsTakeThenFilter(p, v);
      if |s| <= 10 {
        assert Take(s, 10) == s && Take(p, 10) == p;
        assert FirstTenViewed(s, v) == FirstTenViewed(p, v) + (if Viewed(x, v).Some? then [x] else []);
        assert Filter(s, HasViewed(v)) == Filter(p, HasViewed(v)) + (if HasViewed(v)(x) then [x] else []);
      } else {
        assert FirstTenViewed(s, v) == FirstTenViewed(p, v);
        assert Take(s, 10) == Take(p, 10) by {
          assert p[..10] == s[..10];
        }
      }
    }
  }

  /** The chart holds at most ten managers, none with a null field, each
      one of the first ten of the descending sort. */
  lemma TopManagersShape(data: seq<Manager>, v: View)
    ensures var r := TopManagers(data, v); var first := Take(SortBy(data, HigherViewed(v)), 10);
      && |r| <= 10
      && forall m :: m in r ==> Viewed(m, v).Some? && m in first
  {
    FirstTenIsTakeThenFilter(SortBy(data, HigherViewed(v)), v);
  }

  /** The chart lists its managers by non-increasing viewed value. */
  lemma TopManagersOrdered(data: seq<Manager>, v: View)
    ensures var r := TopManagers(data, v);
      forall i, j :: 0 <= i < j < |r| ==> AsNumber(Viewed(r[i], v)) >= AsNumber(Viewed(r[j], v))
  {
    var le := HigherViewed(v);
    var sorted := SortBy(data, le);
    var first := Take(sorted, 10);
    var r := TopManagers(data, v);
    FirstTenIsTakeThenFilter(sorted, v);
    assert TotalPreorder(le);
    SortBySorted(data, le);
    assert SortedBy(first, le) by {
      assert forall i :: 0 <= i < |first| ==> first[i] == sorted[i];
    }
    FilterSorted(first, HasViewed(v), le);
    forall i, j | 0 <= i < j < |r| ensures AsNumber(Viewed(r[i], v)) >= AsNumber(Viewed(r[j], v)) {
      assert le(r[i], r[j]);
    }
  }

  /** Every manager left out of the first ten has a viewed value (null
      counting as 0) no larger than that of any charted manager. */
  lemma TopManagersDominate(data: seq<Manager>, v: View, x: Manager, y: Manager)
    requires x in data && x !in Take(SortBy(data, HigherViewed(v)), 10)
    requires y in TopManagers(data, v)
    ensures AsNumber(Viewed(y, v)) >= AsNumber(Viewed(x, v))
  {
    var le := HigherViewed(v);
    assert TotalPreorder(le);
    TopManagersShape(data, v);
    TakeSortedDominates(data, le, 10, x, y);
  }

  // ---------------------------------------------------------------- table

  /** A table cell `a[sortConfig.key]`: a number, a string, `null`, or
      `undefined` for a key that names no field. */
  datatype Cell = Number(n: real) | Text(s: string) | Null | Undefined

  function NumberCell(x: Option<real>): Cell
  {
    if x.None? then Null else Number(x.value)
  }

  function CellOf(m: Manager, key: string): Cell
  {
    if key == "rank" then Number(m.rank)
    else if key == "earnings" then NumberCell(m.earnings)
    else if key == "returns" then NumberCell(m.returnsPct)
    else if key == "aum" then NumberCell(m.aum)
    else if key == "managerName" then Text(m.managerName)
    else if key == "fundName" then Text(m.fundName)
    else if key == "description" then Text(m.description)
    else if key == "strategy" then Text(m.strategy)
    else Undefined
  }

  /** JavaScript `<` on two cells: numeric order, code-point order on
      strings, and false whenever `undefined` (NaN) takes part. */
  predicate Less(a: Cell, b: Cell)
  {
    match (a, b)
    case (Number(x), Number(y)) => x < y
    case (Text(x), Text(y)) => Js.LocaleCompare(x, y) < 0
    case _ => false
  }

  datatype Direction = Asc | Desc

  /** The comparator of two rows under the current sort key. */
  function RowCompare(a: Manager, b: Manager, key: string, d: Direction): int
  {
    TableCompare(CellOf(a, key), CellOf(b, key), d)
  }

  /** A row whose cell under key is null goes after any row, and any row
      with a non-null cell goes before it. */
  lemma NullRowsLast(a: Manager, b: Manager, key: string, d: Direction)
    requires CellOf(a, key) == Null
    ensures RowCompare(a, b, key, d) == 1
    ensures CellOf(b, key) != Null ==> RowCompare(b, a, key, d) == -1
  {
  }

  /** The `sortedData` comparator (project/src/pages/HedgeFundDashboard.tsx:75-84)
      on the two cells. */
  function TableCompare(a: Cell, b: Cell, d: Direction): int
  {
    if a == Null then 1
    else if b == Null then -1
    else if d == Asc then (if Less(a, b) then -1 else 1)
    else (if Less(b, a) then -1 else 1)
  }

  /** A null cell is always placed after the other one, and a cell is always
      placed before a null one, so nulls end up last; the comparator never
      answers 0. */
  lemma NullsLast(a: Cell, b: Cell, d: Direction)
    ensures a == Null ==> TableCompare(a, b, d) == 1
    ensures a != Null && b == Null ==> TableCompare(a, b, d) == -1 && TableCompare(b, a, d) == 1
    ensures TableCompare(a, b, d) == 1 || TableCompare(a, b, d) == -1
  {
  }

  /** Between two non-null cells, ascending answers -1 exactly when a < b
      and descending exactly when a > b; otherwise 1. */
  lemma TableOrder(a: Cell, b: Cell, d: Direction)
    requires a != Null && b != Null
    ensures d == Asc ==> (TableCompare(a, b, d) == -1 <==> Less(a, b))
    ensures d == Desc ==> (TableCompare(a, b, d) == -1 <==> Less(b, a))
    ensures TableCompare(a, b, d) != -1 ==> TableCompare(a, b, d) == 1
  {
  }

  /** Equal cells compare as 1 in both orders, so the comparator is not
      antisymmetric: a sort may place equal rows either way. Two different
      numbers, in contrast, compare in opposite ways. */
  lemma EqualCellsBothAfter(a: Cell, d: Direction)
    requires a != Null
    ensures TableCompare(a, a, d) == 1
  {
    match a
    case Number(x) =>
    case Text(s) => Js.LocaleCompareZero(s, s);
    case Undefined =>
  }

  lemma DistinctNumbersOpposite(x: real, y: real, d: Direction)
    requires x != y
    ensures TableCompare(Number(x), Number(y), d) == -TableCompare(Number(y), Number(x), d)
  {
  }

  // ---------------------------------------------------------------- sort toggle

  /** The `setSortConfig` argument of `requestSort`. */
  function NextSort(key: string, d: Direction, requested: string): (string, Direction)
  {
    (requested, if key == requested && d == Asc then Desc else Asc)
  }

  /** The table's `sortConfig` state, initially `{key: 'rank', direction:
      'asc'}` (project/src/pages/HedgeFundDashboard.tsx:64). */
  class SortConfig {
    var key: string
    var direction: Direction

    constructor ()
      ensures key == "rank" && direction == Asc
    {
      key := "rank";
      direction := Asc;
    }

    /** `requestSort` (project/src/pages/HedgeFundDashboard.tsx:87-93). */
    method RequestSort(requested: string)
      modifies this
      ensures key == requested
      ensures direction == Desc <==> old(key) == requested && old(direction) == Asc
      ensures (key, direction) == NextSort(old(key), old(direction), requested)
    {
      var d := Asc;
      if key == requested && direction == Asc {
        d := Desc;
      }
      key, direction := requested, d;
    }
  }

  /** The new key is the requested one; the direction is descending exactly
      when the same key was already sorted ascending. */
  lemma NextSortFacts(key: string, d: Direction, requested: string)
    ensures NextSort(key, d, requested).0 == requested
    ensures NextSort(key, d, requested).1 == Desc <==> key == requested && d == Asc
  {
  }

  /** Asking twice for the key that is sorted ascending comes back to
      ascending. */
  lemma RequestTwice(key: string)
    ensures var (k1, d1) := NextSort(key, Asc, key); NextSort(k1, d1, key) == (key, Asc)
  {
  }
}
