/** The contract query that both mock back-ends answer (`filterContracts` in
    project/mockApi.js and `contracts.getContracts` in project/src/mockApi.ts):
    a chain of optional filters, a keyed sort with a direction flag, and
    page/limit pagination. */
module ContractQuery {
  import opened Js
  import opened Seqs

  /** A contract award. Dates are YYYYMMDD integers: their numeric order is
      the order of the ISO `YYYY-MM-DD` strings the source stores. */
  datatype Contract = Contract(
    date: int,
    agency: string,
    contractor: string,
    amount: int,
    description: string,
    location: string,
    completionDate: int)

  /** The query string of a contracts request. A string filter given as ''
      is not applied; `sort` and `order` are passed as written, and `page`
      and `limit` as `parseInt` reads them (None for NaN). */
  datatype ContractParams = ContractParams(
    agency: string,
    search: string,
    minAmount: Param<real>,
    maxAmount: Param<real>,
    startDate: Param<int>,
    endDate: Param<int>,
    sort: string,
    order: string,
    page: Option<int>,
    limit: Option<int>)

  datatype Page = Page(contracts: seq<Contract>, pagination: Pagination)

  /** Which of the two back-ends answers: the TypeScript one also stores a
      `text` field, equal to `description`. */
  datatype Backend = JsMock | TsMock

  datatype TextField = AgencyField | ContractorField | DescriptionField | LocationField | CompletionField

  /** What the comparator does for a `sort` value: date and amount are
      numeric, the other stored fields go through localeCompare, and any
      other name reads `undefined`. */
  datatype SortKey = ByDate | ByAmount | ByText(field: TextField) | Unknown

  /** The message V8 gives when the comparator calls `localeCompare` on
      `undefined`. */
  const UndefinedLocaleCompare := "Cannot read properties of undefined (reading 'localeCompare')"

  function ParseSortKey(b: Backend, sort: string): SortKey
  {
    if sort == "" || sort == "date" then ByDate
    else if sort == "amount" then ByAmount
    else if sort == "agency" then ByText(AgencyField)
    else if sort == "contractor" then ByText(ContractorField)
    else if sort == "description" then ByText(DescriptionField)
    else if sort == "location" then ByText(LocationField)
    else if sort == "completionDate" then ByText(CompletionField)
    else if sort == "text" && b == TsMock then ByText(DescriptionField)
    else Unknown
  }

  /** localeCompare of two ISO date strings, which orders them as days. */
  function DayCompare(a: int, b: int): int
  {
    if a < b then -1 else if a > b then 1 else 0
  }

  function TextCompare(f: TextField, a: Contract, b: Contract): int
  {
    match f
    case AgencyField => LocaleCompare(a.agency, b.agency)
    case ContractorField => LocaleCompare(a.contractor, b.contractor)
    case DescriptionField => LocaleCompare(a.description, b.description)
    case LocationField => LocaleCompare(a.location, b.location)
    case CompletionField => DayCompare(a.completionDate, b.completionDate)
  }

  /** The comparator of project/mockApi.js:282-290: `order * (b - a)` for
      date and amount, `order * a.localeCompare(b)` otherwise, where order
      is 1 for 'asc' and -1 for anything else. */
  function Compare(key: SortKey, asc: bool, a: Contract, b: Contract): int
  {
    var order := if asc then 1 else -1;
    match key
    case ByDate => order * (b.date - a.date)
    case ByAmount => order * (b.amount - a.amount)
    case ByText(f) => order * TextCompare(f, a, b)
    case Unknown => 0
  }

  /** a may stay before b: the comparator does not ask to swap them. */
  function Before(key: SortKey, asc: bool): (Contract, Contract) -> bool
  {
    (a, b) => Compare(key, asc, a, b) <= 0
  }

  lemma TextCompareFacts(f: TextField, a: Contract, b: Contract, c: Contract)
    ensures TextCompare(f, b, a) == -TextCompare(f, a, b)
    ensures TextCompare(f, a, b) <= 0 && TextCompare(f, b, c) <= 0 ==> TextCompare(f, a, c) <= 0
  {
    match f
    case AgencyField =>
      LocaleCompareAntisymmetric(a.agency, b.agency);
      if LocaleCompare(a.agency, b.agency) <= 0 && LocaleCompare(b.agency, c.agency) <= 0 {
        LocaleCompareTransitive(a.agency, b.agency, c.agency);
      }
    case ContractorField =>
      LocaleCompareAntisymmetric(a.contractor, b.contractor);
      if LocaleCompare(a.contractor, b.contractor) <= 0 && LocaleCompare(b.contractor, c.contractor) <= 0 {
        LocaleCompareTransitive(a.contractor, b.contractor, c.contractor);
      }
    case DescriptionField =>
      LocaleCompareAntisymmetric(a.description, b.description);
      if LocaleCompare(a.description, b.description) <= 0 && LocaleCompare(b.description, c.description) <= 0 {
        LocaleCompareTransitive(a.description, b.description, c.description);
      }
    case LocationField =>
      LocaleCompareAntisymmetric(a.location, b.location);
      if LocaleCompare(a.location, b.location) <= 0 && LocaleCompare(b.location, c.location) <= 0 {
        LocaleCompareTransitive(a.location, b.location, c.location);
      }
    case CompletionField =>
  }

  /** For every known key the comparator is consistent, so the built-in
      stable sort has one well-defined result. */
  lemma BeforeIsTotalPreorder(key: SortKey, asc: bool)
    requires key != Unknown
    ensures TotalPreorder(Before(key, asc))
  {
    var le := Before(key, asc);
    forall a, b ensures le(a, b) || le(b, a) {
      if key.ByText? {
        TextCompareFacts(key.field, a, b, a);
      }
    }
    forall a, b, c | le(a, b) && le(b, c) ensures le(a, c) {
      if key.ByText? {
        TextCompareFacts(key.field, a, b, c);
        TextCompareFacts(key.field, b, c, a);
        TextCompareFacts(key.field, a, c, b);
        if !asc {
          TextCompareFacts(key.field, c, b, a);
        }
      }
    }
  }

  // ---------------------------------------------------------------- filters

  predicate AgencyOk(p: ContractParams, c: Contract)
  {
    p.agency == "" || c.agency == p.agency
  }

  predicate SearchOk(p: ContractParams, c: Contract)
  {
    p.search == "" ||
    Includes(Lower(c.contractor), Lower(p.search)) ||
    Includes(Lower(c.description), Lower(p.search))
  }

  /** A numeric bound that is not set lets everything through; one that did
      not parse lets nothing through, because a comparison with NaN or an
      Invalid Date is false. */
  predicate AtLeast(bound: Param<real>, x: real)
  {
    match bound
    case Unset => true
    case Given(v) => x >= v
    case Unparsable => false
  }

  predicate AtMost(bound: Param<real>, x: real)
  {
    match bound
    case Unset => true
    case Given(v) => x <= v
    case Unparsable => false
  }

  predicate OnOrAfter(bound: Param<int>, day: int)
  {
    match bound
    case Unset => true
    case Given(d) => day >= d
    case Unparsable => false
  }

  predicate OnOrBefore(bound: Param<int>, day: int)
  {
    match bound
    case Unset => true
    case Given(d) => day <= d
    case Unparsable => false
  }

  /** Every filter of the request accepts c. */
  predicate Matches(p: ContractParams, c: Contract)
  {
    && AgencyOk(p, c)
    && SearchOk(p, c)
    && AtLeast(p.minAmount, c.amount as real)
    && AtMost(p.maxAmount, c.amount as real)
    && OnOrAfter(p.startDate, c.date)
    && OnOrBefore(p.endDate, c.date)
  }

  function MatchTest(p: ContractParams): Contract -> bool
  {
    c => Matches(p, c)
  }

  /** The contracts that pass every filter, in stored order. */
  function Selected(store: seq<Contract>, p: ContractParams): (r: seq<Contract>)
    ensures forall c :: c in r <==> c in store && Matches(p, c)
    ensures forall c :: multiset(r)[c] == if Matches(p, c) then multiset(store)[c] else 0
    ensures |r| == |Positions(store, MatchTest(p))|
    ensures forall k :: 0 <= k < |r| ==> r[k] == store[Positions(store, MatchTest(p))[k]]
  {
    FilterCount(store, MatchTest(p));
    FilterOrder(store, MatchTest(p));
    Filter(store, MatchTest(p))
  }

  /** The selected contracts in the order the request's comparator gives. */
  function Ordered(store: seq<Contract>, p: ContractParams, b: Backend): seq<Contract>
  {
    var key := ParseSortKey(b, p.sort);
    if key == Unknown then Selected(store, p)
    else SortBy(Selected(store, p), Before(key, p.order == "asc"))
  }

  /** Sorting only reorders: it never adds or drops a contract. */
  lemma OrderedIsPermutation(store: seq<Contract>, p: ContractParams, b: Backend)
    ensures multiset(Ordered(store, p, b)) == multiset(Selected(store, p))
    ensures |Ordered(store, p, b)| == |Selected(store, p)|
  {
  }

  /** The direction of the sort. For date and amount the comparator is
      `order * (b - a)`, so 'asc' gives newest / largest first and every
      other order oldest / smallest first; for text fields 'asc' is
      ascending. */
  lemma {:induction false} OrderedDirection(store: seq<Contract>, p: ContractParams, b: Backend, i: nat, j: nat)
    requires i < j < |Ordered(store, p, b)|
    ensures var o := Ordered(store, p, b); var key := ParseSortKey(b, p.sort);
      && (key == ByDate && p.order == "asc" ==> o[i].date >= o[j].date)
      && (key == ByDate && p.order != "asc" ==> o[i].date <= o[j].date)
      && (key == ByAmount && p.order == "asc" ==> o[i].amount >= o[j].amount)
      && (key == ByAmount && p.order != "asc" ==> o[i].amount <= o[j].amount)
      && (key.ByText? && p.order == "asc" ==> TextCompare(key.field, o[i], o[j]) <= 0)
      && (key.ByText? && p.order != "asc" ==> TextCompare(key.field, o[i], o[j]) >= 0)
  {
    var key := ParseSortKey(b, p.sort);
    if key != Unknown {
      OrderedPair(store, p, b, i, j);
    }
  }

  /** Under a known sort key, any two listed contracts stand in comparator
      order. */
  lemma OrderedPair(store: seq<Contract>, p: ContractParams, b: Backend, i: nat, j: nat)
    requires ParseSortKey(b, p.sort) != Unknown
    requires i < j < |Ordered(store, p, b)|
    ensures Compare(ParseSortKey(b, p.sort), p.order == "asc", Ordered(store, p, b)[i], Ordered(store, p, b)[j]) <= 0
  {
    var key, asc := ParseSortKey(b, p.sort), p.order == "asc";
    BeforeIsTotalPreorder(key, asc);
    SortBySorted(Selected(store, p), Before(key, asc));
    var o := Ordered(store, p, b);
    assert Before(key, asc)(o[i], o[j]);
  }

  // ---------------------------------------------------------------- the query

  function AgencyTest(p: ContractParams): Contract -> bool
  {
    c => AgencyOk(p, c)
  }

  function SearchTest(p: ContractParams): Contract -> bool
  {
    c => SearchOk(p, c)
  }

  function MinTest(p: ContractParams): Contract -> bool
  {
    (c: Contract) => AtLeast(p.minAmount, c.amount as real)
  }

  function MaxTest(p: ContractParams): Contract -> bool
  {
    (c: Contract) => AtMost(p.maxAmount, c.amount as real)
  }

  function StartTest(p: ContractParams): Contract -> bool
  {
    (c: Contract) => OnOrAfter(p.startDate, c.date)
  }

  function EndTest(p: ContractParams): Contract -> bool
  {
    (c: Contract) => OnOrBefore(p.endDate, c.date)
  }

  /** The six filters applied one after another are the one filter by
      Matches. */
  lemma FilterChain(store: seq<Contract>, p: ContractParams)
    ensures Filter(Filter(Filter(Filter(Filter(Filter(store, AgencyTest(p)), SearchTest(p)),
              MinTest(p)), MaxTest(p)), StartTest(p)), EndTest(p)) == Selected(store, p)
  {
    var a := Filter(store, AgencyTest(p));
    var q2: Contract -> bool := c => AgencyOk(p, c) && SearchOk(p, c);
    FilterFilter(store, AgencyTest(p), SearchTest(p), q2);
    var q3: Contract -> bool := c => q2(c) && AtLeast(p.minAmount, c.amount as real);
    FilterFilter(store, q2, MinTest(p), q3);
    var q4: Contract -> bool := c => q3(c) && AtMost(p.maxAmount, c.amount as real);
    FilterFilter(store, q3, MaxTest(p), q4);
    var q5: Contract -> bool := c => q4(c) && OnOrAfter(p.startDate, c.date);
    FilterFilter(store, q4, StartTest(p), q5);
    FilterFilter(store, q5, EndTest(p), MatchTest(p));
  }

  /** The filter stage of `filterContracts`: project/mockApi.js:241-276 and
      project/src/mockApi.ts:127-163. Each guard reassigns the working list
      only when its parameter is truthy, as the source does. */
  method ApplyFilters(store: seq<Contract>, p: ContractParams) returns (filtered: seq<Contract>)
    ensures filtered == Selected(store, p)
  {
    filtered := store;
    if p.agency != "" {
      filtered := Filter(filtered, AgencyTest(p));
    }
    ghost var s1 := filtered;
    FilterStage(store, s1, p.agency != "", AgencyTest(p));
    if p.search != "" {
      filtered := Filter(filtered, SearchTest(p));
    }
    ghost var s2 := filtered;
    FilterStage(s1, s2, p.search != "", SearchTest(p));
    if !p.minAmount.Unset? {
      filtered := Filter(filtered, MinTest(p));
    }
    ghost var s3 := filtered;
    FilterStage(s2, s3, !p.minAmount.Unset?, MinTest(p));
    if !p.maxAmount.Unset? {
      filtered := Filter(filtered, MaxTest(p));
    }
    ghost var s4 := filtered;
    FilterStage(s3, s4, !p.maxAmount.Unset?, MaxTest(p));
    if !p.startDate.Unset? {
      filtered := Filter(filtered, StartTest(p));
    }
    ghost var s5 := filtered;
    FilterStage(s4, s5, !p.startDate.Unset?, StartTest(p));
    if !p.endDate.Unset? {
      filtered := Filter(filtered, EndTest(p));
    }
    FilterStage(s5, filtered, !p.endDate.Unset?, EndTest(p));
    FilterChain(store, p);
  }

  /** `filterContracts(params)`: project/mockApi.js:240-308, and the body of
      `contracts.getContracts` in project/src/mockApi.ts:127-193. */
  method FilterContracts(store: seq<Contract>, p: ContractParams, b: Backend) returns (r: Result<Page>)
    ensures r.Ok? <==> ParseSortKey(b, p.sort) != Unknown || |Selected(store, p)| < 2
    ensures r.Err? ==> r.message == UndefinedLocaleCompare
    ensures r.Ok? ==> r.value.pagination.total == |Selected(store, p)|
    ensures r.Ok? ==> forall c :: c in r.value.contracts ==> c in store && Matches(p, c)
    ensures r.Ok? ==> (r.value.contracts, r.value.pagination) == Paginate(Ordered(store, p, b), p.page, p.limit)
  {
    var filtered := ApplyFilters(store, p);
    var key := ParseSortKey(b, p.sort);
    if key == Unknown {
      if |filtered| >= 2 {
        return Err(UndefinedLocaleCompare);
      }
    } else {
      filtered := SortBy(filtered, Before(key, p.order == "asc"));
    }
    assert filtered == Ordered(store, p, b);
    var (contracts, pagination) := Paginate(filtered, p.page, p.limit);
    assert multiset(contracts) <= multiset(Selected(store, p));
    forall c | c in contracts ensures c in store && Matches(p, c) {
      assert c in multiset(contracts);
    }
    r := Ok(Page(contracts, pagination));
  }
}
