/** The JavaScript mock back-end (project/mockApi.js): its stored contracts,
    contractors, agencies and user, the contractor and agency queries, and
    the alert-settings update. The contract query itself is
    ContractQuery.FilterContracts. */
module MockBackend {
  import opened Seqs
  import opened Js
  import opened ContractQuery

  // ---------------------------------------------------------------- data

  /** `mockContracts` (project/mockApi.js:4-95). */
  const MockContracts: seq<Contract> := [
    Contract(20250315, "ARMY", "Lockheed Martin Corp.", 450000000,
      "Advanced missile defense systems for deployment in Eastern Europe", "Orlando, Florida", 20280630),
    Contract(20250314, "NAVY", "Northrop Grumman Systems Corp.", 286500000,
      "Development of next-generation submarine detection systems", "San Diego, California", 20271231),
    Contract(20250314, "AIR FORCE", "Boeing Defense, Space & Security", 1240000000,
      "Production of 15 F-15EX Eagle II fighter aircraft", "St. Louis, Missouri", 20270930),
    Contract(20250313, "DEFENSE LOGISTICS AGENCY", "General Dynamics Land Systems", 750000000,
      "Maintenance and upgrade services for Abrams battle tanks", "Sterling Heights, Michigan", 20300312),
    Contract(20250312, "MISSILE DEFENSE AGENCY", "Raytheon Technologies", 380000000,
      "Production of SM-3 Block IIA interceptors", "Tucson, Arizona", 20260930),
    Contract(20250312, "SPACE FORCE", "SpaceX", 290000000,
      "Launch services for military satellites", "Hawthorne, California", 20261231),
    Contract(20250311, "DARPA", "Palantir Technologies", 175000000,
      "Advanced AI-driven battlefield data analysis platform", "Denver, Colorado", 20270310),
    Contract(20250310, "NAVY", "HII Newport News Shipbuilding", 2850000000,
      "Construction of CVN-81 aircraft carrier components", "Newport News, Virginia", 20321231),
    Contract(20250310, "ARMY", "L3Harris Technologies", 420000000,
      "Tactical radio communication systems", "Rochester, New York", 20280131),
    Contract(20250307, "DEFENSE HEALTH AGENCY", "Leidos Inc.", 195000000,
      "Military healthcare information technology services", "Falls Church, Virginia", 20300306)
  ]

  datatype Contractor = Contractor(
    name: string,
    totalContracts: int,
    totalValue: int,
    lastContractDate: int,
    locations: seq<string>,
    agencies: seq<string>)

  /** `mockContractors` (project/mockApi.js:170-211). */
  const MockContractors: seq<Contractor> := [
    Contractor("HII Newport News Shipbuilding", 12, 5650000000, 20250310,
      ["Newport News, Virginia", "Pascagoula, Mississippi"], ["NAVY"]),
    Contractor("Boeing Defense, Space & Security", 8, 3240000000, 20250314,
      ["St. Louis, Missouri", "Seattle, Washington"], ["AIR FORCE", "NAVY", "SPACE FORCE"]),
    Contractor("Lockheed Martin Corp.", 15, 2850000000, 20250315,
      ["Orlando, Florida", "Fort Worth, Texas", "Bethesda, Maryland"], ["ARMY", "AIR FORCE", "MISSILE DEFENSE AGENCY"]),
    Contractor("General Dynamics Land Systems", 5, 1950000000, 20250313,
      ["Sterling Heights, Michigan", "Lima, Ohio"], ["ARMY", "DEFENSE LOGISTICS AGENCY"]),
    Contractor("Raytheon Technologies", 9, 1870000000, 20250312,
      ["Tucson, Arizona", "Waltham, Massachusetts"], ["MISSILE DEFENSE AGENCY", "NAVY", "AIR FORCE"])
  ]

  datatype AgencyRecord = AgencyRecord(name: string, totalContracts: int, totalValue: int, latestDate: int)

  /** `mockAgencies` (project/mockApi.js:214-223). */
  const MockAgencies: seq<AgencyRecord> := [
    AgencyRecord("NAVY", 24, 3136500000, 20250316),
    AgencyRecord("AIR FORCE", 18, 1240000000, 20250315),
    AgencyRecord("ARMY", 22, 870000000, 20250315),
    AgencyRecord("DEFENSE LOGISTICS AGENCY", 8, 750000000, 20250313),
    AgencyRecord("MISSILE DEFENSE AGENCY", 5, 380000000, 20250312),
    AgencyRecord("SPACE FORCE", 4, 290000000, 20250312),
    AgencyRecord("DEFENSE HEALTH AGENCY", 7, 195000000, 20250307),
    AgencyRecord("DARPA", 6, 175000000, 20250311)
  ]

  /** The message V8 gives when the comparator calls `localeCompare` on an
      array-valued field. */
  const NotAFunction := "a[sort].localeCompare is not a function"

  function Amount(c: Contract): int
  {
    c.amount
  }

  // ---------------------------------------------------------------- getContractors

  datatype ContractorParams = ContractorParams(
    search: string,
    minContracts: Param<int>,
    sort: string,
    order: string,
    page: Option<int>,
    limit: Option<int>)

  datatype ContractorPage = ContractorPage(contractors: seq<Contractor>, pagination: Pagination)

  /** How the contractor comparator treats a `sort` value: number fields by
      `order * (b - a)`, string fields by localeCompare, the array fields
      and missing names by throwing. */
  datatype ContractorKey =
    | ByTotalContracts | ByTotalValue | ByName | ByLastContractDate
    | ByList | ByMissing

  function ParseContractorKey(sort: string): ContractorKey
  {
    if sort == "" || sort == "totalValue" then ByTotalValue
    else if sort == "totalContracts" then ByTotalContracts
    else if sort == "name" then ByName
    else if sort == "lastContractDate" then ByLastContractDate
    else if sort == "locations" || sort == "agencies" then ByList
    else ByMissing
  }

  /** The comparator of project/mockApi.js:433-439. */
  function ContractorCompare(key: ContractorKey, asc: bool, a: Contractor, b: Contractor): int
  {
    var order := if asc then 1 else -1;
    match key
    case ByTotalContracts => order * (b.totalContracts - a.totalContracts)
    case ByTotalValue => order * (b.totalValue - a.totalValue)
    case ByName => order * LocaleCompare(a.name, b.name)
    case ByLastContractDate => order * DayCompare(a.lastContractDate, b.lastContractDate)
    case ByList => 0
    case ByMissing => 0
  }

  function ContractorBefore(key: ContractorKey, asc: bool): (Contractor, Contractor) -> bool
  {
    (a, b) => ContractorCompare(key, asc, a, b) <= 0
  }

  predicate Orders(key: ContractorKey)
  {
    !key.ByList? && !key.ByMissing?
  }

  lemma ContractorBeforeIsTotalPreorder(key: ContractorKey, asc: bool)
    requires Orders(key)
    ensures TotalPreorder(ContractorBefore(key, asc))
  {
    var le := ContractorBefore(key, asc);
    forall a, b ensures le(a, b) || le(b, a) {
      LocaleCompareAntisymmetric(a.name, b.name);
    }
    forall a, b, c | le(a, b) && le(b, c) ensures le(a, c) {
      if key == ByName {
        LocaleCompareAntisymmetric(a.name, b.name);
        LocaleCompareAntisymmetric(b.name, c.name);
        LocaleCompareAntisymmetric(a.name, c.name);
        if asc {
          LocaleCompareTransitive(a.name, b.name, c.name);
        } else {
          LocaleCompareTransitive(c.name, b.name, a.name);
        }
      }
    }
  }

  predicate NameMatches(search: string, c: Contractor)
  {
    search == "" || Includes(Lower(c.name), Lower(search))
  }

  predicate EnoughContracts(bound: Param<int>, c: Contractor)
  {
    match bound
    case Unset => true
    case Given(n) => c.totalContracts >= n
    case Unparsable => false
  }

  predicate ContractorMatches(p: ContractorParams, c: Contractor)
  {
    NameMatches(p.search, c) && EnoughContracts(p.minContracts, c)
  }

  function ContractorTest(p: ContractorParams): Contractor -> bool
  {
    (c: Contractor) => ContractorMatches(p, c)
  }

  function SelectedContractors(cs: seq<Contractor>, p: ContractorParams): (r: seq<Contractor>)
    ensures forall c :: c in r <==> c in cs && ContractorMatches(p, c)
    ensures forall c :: multiset(r)[c] == if ContractorMatches(p, c) then multiset(cs)[c] else 0
    ensures |r| == |Positions(cs, ContractorTest(p))|
    ensures forall k :: 0 <= k < |r| ==> r[k] == cs[Positions(cs, ContractorTest(p))[k]]
  {
    FilterCount(cs, ContractorTest(p));
    FilterOrder(cs, ContractorTest(p));
    Filter(cs, ContractorTest(p))
  }

  function OrderedContractors(cs: seq<Contractor>, p: ContractorParams): seq<Contractor>
  {
    var key := ParseContractorKey(p.sort);
    if Orders(key) then SortBy(SelectedContractors(cs, p), ContractorBefore(key, p.order == "asc"))
    else SelectedContractors(cs, p)
  }

  /** The contractor list is sorted with the same `order * (b - a)` rule as
      contracts, so 'asc' on a number field is largest first; on the name it
      is ascending. */
  lemma {:induction false} ContractorsDirection(cs: seq<Contractor>, p: ContractorParams, i: nat, j: nat)
    requires i < j < |OrderedContractors(cs, p)|
    ensures var o := OrderedContractors(cs, p); var key := ParseContractorKey(p.sort);
      && (key == ByTotalValue && p.order == "asc" ==> o[i].totalValue >= o[j].totalValue)
      && (key == ByTotalValue && p.order != "asc" ==> o[i].totalValue <= o[j].totalValue)
      && (key == ByTotalContracts && p.order == "asc" ==> o[i].totalContracts >= o[j].totalContracts)
      && (key == ByTotalContracts && p.order != "asc" ==> o[i].totalContracts <= o[j].totalContracts)
      && (key == ByName && p.order == "asc" ==> LocaleCompare(o[i].name, o[j].name) <= 0)
      && (key == ByName && p.order != "asc" ==> LocaleCompare(o[i].name, o[j].name) >= 0)
      && (key == ByLastContractDate && p.order == "asc" ==> o[i].lastContractDate <= o[j].lastContractDate)
      && (key == ByLastContractDate && p.order != "asc" ==> o[i].lastContractDate >= o[j].lastContractDate)
  {
    var key := ParseContractorKey(p.sort);
    if Orders(key) {
      var le := ContractorBefore(key, p.order == "asc");
      ContractorBeforeIsTotalPreorder(key, p.order == "asc");
      SortBySorted(SelectedContractors(cs, p), le);
      var o := OrderedContractors(cs, p);
      assert le(o[i], o[j]);
      ContractorBeforeMeans(key, p.order == "asc", o[i], o[j]);
    }
  }

  /** What `ContractorBefore` says of two contractors, field by field. */
  lemma ContractorBeforeMeans(key: ContractorKey, asc: bool, a: Contractor, b: Contractor)
    requires ContractorBefore(key, asc)(a, b)
    ensures key == ByTotalValue && asc ==> a.totalValue >= b.totalValue
    ensures key == ByTotalValue && !asc ==> a.totalValue <= b.totalValue
    ensures key == ByTotalContracts && asc ==> a.totalContracts >= b.totalContracts
    ensures key == ByTotalContracts && !asc ==> a.totalContracts <= b.totalContracts
    ensures key == ByName && asc ==> LocaleCompare(a.name, b.name) <= 0
    ensures key == ByName && !asc ==> LocaleCompare(a.name, b.name) >= 0
    ensures key == ByLastContractDate && asc ==> a.lastContractDate <= b.lastContractDate
    ensures key == ByLastContractDate && !asc ==> a.lastContractDate >= b.lastContractDate
  {
  }

  /** The filter stage of `getContractors`: project/mockApi.js:412-427. */
  method FilterContractorList(cs: seq<Contractor>, p: ContractorParams) returns (filtered: seq<Contractor>)
    ensures filtered == SelectedContractors(cs, p)
  {
    filtered := cs;
    if p.search != "" {
      filtered := Filter(filtered, (c: Contractor) => NameMatches(p.search, c));
    }
    ghost var named := filtered;
    FilterStage(cs, named, p.search != "", (c: Contractor) => NameMatches(p.search, c));
    if !p.minContracts.Unset? {
      filtered := Filter(filtered, (c: Contractor) => EnoughContracts(p.minContracts, c));
    }
    FilterStage(named, filtered, !p.minContracts.Unset?, (c: Contractor) => EnoughContracts(p.minContracts, c));
    FilterFilter(cs, (c: Contractor) => NameMatches(p.search, c),
      (c: Contractor) => EnoughContracts(p.minContracts, c), ContractorTest(p));
  }

  /** `contractors.getContractors(params)`: project/mockApi.js:408-457. */
  method GetContractors(cs: seq<Contractor>, p: ContractorParams) returns (r: Result<ContractorPage>)
    ensures r.Ok? <==> Orders(ParseContractorKey(p.sort)) || |SelectedContractors(cs, p)| < 2
    ensures r.Err? ==> r.message == if ParseContractorKey(p.sort) == ByList then NotAFunction else UndefinedLocaleCompare
    ensures r.Ok? ==> r.value.pagination.total == |SelectedContractors(cs, p)|
    ensures r.Ok? ==> forall c :: c in r.value.contractors ==> c in cs && ContractorMatches(p, c)
    ensures r.Ok? ==> (r.value.contractors, r.value.pagination) == Paginate(OrderedContractors(cs, p), p.page, p.limit)
  {
    var filtered := FilterContractorList(cs, p);
    var key := ParseContractorKey(p.sort);
    if !Orders(key) {
      if |filtered| >= 2 {
        return Err(if key == ByList then NotAFunction else UndefinedLocaleCompare);
      }
    } else {
      filtered := SortBy(filtered, ContractorBefore(key, p.order == "asc"));
    }
    assert filtered == OrderedContractors(cs, p);
    var (page, pagination) := Paginate(filtered, p.page, p.limit);
    assert multiset(page) <= multiset(SelectedContractors(cs, p));
    forall c | c in page ensures c in cs && ContractorMatches(p, c) {
      assert c in multiset(page);
    }
    r := Ok(ContractorPage(page, pagination));
  }

  // ---------------------------------------------------------------- getAgencies

  datatype AgencyKey = ByAgencyContracts | ByAgencyValue | ByAgencyName | ByLatestDate | ByAgencyMissing

  function ParseAgencyKey(sort: string): AgencyKey
  {
    if sort == "" || sort == "totalValue" then ByAgencyValue
    else if sort == "totalContracts" then ByAgencyContracts
    else if sort == "name" then ByAgencyName
    else if sort == "latestDate" then ByLatestDate
    else ByAgencyMissing
  }

  /** The comparator of project/mockApi.js:506-512. */
  function AgencyCompare(key: AgencyKey, asc: bool, a: AgencyRecord, b: AgencyRecord): int
  {
    var order := if asc then 1 else -1;
    match key
    case ByAgencyContracts => order * (b.totalContracts - a.totalContracts)
    case ByAgencyValue => order * (b.totalValue - a.totalValue)
    case ByAgencyName => order * LocaleCompare(a.name, b.name)
    case ByLatestDate => order * DayCompare(a.latestDate, b.latestDate)
    case ByAgencyMissing => 0
  }

  function AgencyBefore(key: AgencyKey, asc: bool): (AgencyRecord, AgencyRecord) -> bool
  {
    (a, b) => AgencyCompare(key, asc, a, b) <= 0
  }

  lemma AgencyBeforeIsTotalPreorder(key: AgencyKey, asc: bool)
    requires key != ByAgencyMissing
    ensures TotalPreorder(AgencyBefore(key, asc))
  {
    var le := AgencyBefore(key, asc);
    forall a, b ensures le(a, b) || le(b, a) {
      LocaleCompareAntisymmetric(a.name, b.name);
    }
    forall a, b, c | le(a, b) && le(b, c) ensures le(a, c) {
      if key == ByAgencyName {
        LocaleCompareAntisymmetric(a.name, b.name);
        LocaleCompareAntisymmetric(b.name, c.name);
        LocaleCompareAntisymmetric(a.name, c.name);
        if asc {
          LocaleCompareTransitive(a.name, b.name, c.name);
        } else {
          LocaleCompareTransitive(c.name, b.name, a.name);
        }
      }
    }
  }

  /** `agencies.getAgencies(params)`: project/mockApi.js:498-515, a sorted
      copy of the agency list. */
  function GetAgencies(agencies: seq<AgencyRecord>, sort: string, order: string): (r: Result<seq<AgencyRecord>>)
    ensures r.Ok? <==> ParseAgencyKey(sort) != ByAgencyMissing || |agencies| < 2
    ensures r.Err? ==> r.message == UndefinedLocaleCompare
    ensures r.Ok? ==> multiset(r.value) == multiset(agencies)
  {
    var key := ParseAgencyKey(sort);
    if key == ByAgencyMissing then
      (if |agencies| >= 2 then Err(UndefinedLocaleCompare) else Ok(agencies))
    else Ok(SortBy(agencies, AgencyBefore(key, order == "asc")))
  }

  lemma {:induction false} AgenciesDirection(agencies: seq<AgencyRecord>, sort: string, order: string, i: nat, j: nat)
    requires GetAgencies(agencies, sort, order).Ok?
    requires i < j < |GetAgencies(agencies, sort, order).value|
    ensures var o := GetAgencies(agencies, sort, order).value; var key := ParseAgencyKey(sort);
      && (key == ByAgencyValue && order == "asc" ==> o[i].totalValue >= o[j].totalValue)
      && (key == ByAgencyValue && order != "asc" ==> o[i].totalValue <= o[j].totalValue)
      && (key == ByAgencyContracts && order == "asc" ==> o[i].totalContracts >= o[j].totalContracts)
      && (key == ByAgencyContracts && order != "asc" ==> o[i].totalContracts <= o[j].totalContracts)
      && (key == ByAgencyName && order == "asc" ==> LocaleCompare(o[i].name, o[j].name) <= 0)
      && (key == ByAgencyName && order != "asc" ==> LocaleCompare(o[i].name, o[j].name) >= 0)
      && (key == ByLatestDate && order == "asc" ==> o[i].latestDate <= o[j].latestDate)
      && (key == ByLatestDate && order != "asc" ==> o[i].latestDate >= o[j].latestDate)
  {
    var key := ParseAgencyKey(sort);
    if key != ByAgencyMissing {
      var le := AgencyBefore(key, order == "asc");
      AgencyBeforeIsTotalPreorder(key, order == "asc");
      SortBySorted(agencies, le);
      var o := GetAgencies(agencies, sort, order).value;
      assert le(o[i], o[j]);
    }
  }

  // ---------------------------------------------------------------- details

  /** The newest five of the contracts that pass `test`:
      `.filter(test).sort((a, b) => new Date(b.date) - new Date(a.date)).slice(0, 5)`. */
  function RecentContracts(contracts: seq<Contract>, test: Contract -> bool): (r: seq<Contract>)
    ensures |r| == Min(|Filter(contracts, test)|, 5)
    ensures forall c :: c in r ==> c in contracts && test(c)
    ensures multiset(r) <= multiset(Filter(contracts, test))
  {
    var t := Take(SortBy(Filter(contracts, test), Before(ByDate, true)), 5);
    TakeMultiset(SortBy(Filter(contracts, test), Before(ByDate, true)), 5);
    assert forall c :: c in t ==> c in multiset(Filter(contracts, test));
    t
  }

  /** The recent list is newest first, and nothing newer was left out. */
  lemma RecentContractsNewest(contracts: seq<Contract>, test: Contract -> bool)
    ensures var r := RecentContracts(contracts, test);
      && |r| == Min(|Filter(contracts, test)|, 5)
      && (forall i, j :: 0 <= i < j < |r| ==> r[i].date >= r[j].date)
      && (forall x, y :: x in contracts && test(x) && x !in r && y in r ==> y.date >= x.date)
  {
    RecentContractsSorted(contracts, test);
    RecentContractsDominate(contracts, test);
  }

  lemma RecentContractsSorted(contracts: seq<Contract>, test: Contract -> bool)
    ensures var r := RecentContracts(contracts, test);
      forall i, j :: 0 <= i < j < |r| ==> r[i].date >= r[j].date
  {
    var le := Before(ByDate, true);
    var s := Filter(contracts, test);
    BeforeIsTotalPreorder(ByDate, true);
    SortBySorted(s, le);
    var r := RecentContracts(contracts, test);
    forall i, j | 0 <= i < j < |r| ensures r[i].date >= r[j].date {
      assert le(r[i], r[j]);
    }
  }

  lemma RecentContractsDominate(contracts: seq<Contract>, test: Contract -> bool)
    ensures var r := RecentContracts(contracts, test);
      forall x, y :: x in contracts && test(x) && x !in r && y in r ==> y.date >= x.date
  {
    var le := Before(ByDate, true);
    var s := Filter(contracts, test);
    BeforeIsTotalPreorder(ByDate, true);
    var r := RecentContracts(contracts, test);
    forall x, y | x in contracts && test(x) && x !in r && y in r ensures y.date >= x.date {
      TakeSortedDominates(s, le, 5, x, y);
    }
  }

  function ByContractor(name: string): Contract -> bool
  {
    (c: Contract) => c.contractor == name
  }

  function ByAgency(name: string): Contract -> bool
  {
    (c: Contract) => c.agency == name
  }

  function ByPair(contractor: string, agency: string): Contract -> bool
  {
    (c: Contract) => c.contractor == contractor && c.agency == agency
  }

  function AgencyOf(c: Contract): string
  {
    c.agency
  }

  predicate SameName(a: string, b: string)
  {
    Lower(a) == Lower(b)
  }

  datatype YearTotal = YearTotal(year: int, totalValue: int, count: int)

  datatype AgencyShare = AgencyShare(agency: string, totalValue: int, count: int)

  datatype ContractorDetail = ContractorDetail(
    contractor: Contractor,
    recentContracts: seq<Contract>,
    contractHistory: seq<YearTotal>,
    agencyDistribution: seq<AgencyShare>)

  /** The contractor's contracts with one agency: their amount sum and count. */
  function Share(contracts: seq<Contract>, contractor: string, agency: string): AgencyShare
  {
    var mine := Filter(contracts, ByPair(contractor, agency));
    AgencyShare(agency, SumOf(mine, Amount), |mine|)
  }

  /** `contractor.agencies.map(agency => ...)` (project/mockApi.js:483-491). */
  function Distribution(contracts: seq<Contract>, contractor: string, agencies: seq<string>): (r: seq<AgencyShare>)
    ensures |r| == |agencies|
    ensures forall i :: 0 <= i < |r| ==> r[i].agency == agencies[i]
    ensures forall i :: 0 <= i < |r| ==> r[i] == Share(contracts, contractor, agencies[i])
  {
    seq(|agencies|, i requires 0 <= i < |agencies| => Share(contracts, contractor, agencies[i]))
  }

  function ShareValue(a: AgencyShare): int
  {
    a.totalValue
  }

  lemma DistributionSnoc(contracts: seq<Contract>, contractor: string, agencies: seq<string>)
    requires agencies != []
    ensures Distribution(contracts, contractor, agencies)
         == Distribution(contracts, contractor, Init(agencies)) + [Share(contracts, contractor, Last(agencies))]
  {
    var a := Distribution(contracts, contractor, agencies);
    var b := Distribution(contracts, contractor, Init(agencies)) + [Share(contracts, contractor, Last(agencies))];
    forall i | 0 <= i < |a| ensures a[i] == b[i] {
      if i < |agencies| - 1 {
        assert Init(agencies)[i] == agencies[i];
      }
    }
  }

  lemma {:induction false} DistributionIsKeysTotal(contracts: seq<Contract>, contractor: string, agencies: seq<string>)
    ensures SumOf(Distribution(contracts, contractor, agencies), ShareValue)
         == KeysTotal(agencies, Filter(contracts, ByContractor(contractor)), AgencyOf, Amount)
  {
    if agencies != [] {
      var d := Distribution(contracts, contractor, Init(agencies));
      DistributionSnoc(contracts, contractor, agencies);
      DistributionIsKeysTotal(contracts, contractor, Init(agencies));
      SnocInit(d, Share(contracts, contractor, Last(agencies)));
      SumWhereFilter(contracts, ByContractor(contractor), AgencyOf, Last(agencies), Amount,
        ByPair(contractor, Last(agencies)));
    }
  }

  /** When the contractor's agency list names every agency it holds a
      contract with, once each, the distribution accounts for all of its
      contract value. */
  lemma DistributionTotal(contracts: seq<Contract>, c: Contractor)
    requires Distinct(c.agencies)
    requires forall x :: x in contracts && x.contractor == c.name ==> x.agency in c.agencies
    ensures SumOf(Distribution(contracts, c.name, c.agencies), ShareValue)
         == SumOf(Filter(contracts, ByContractor(c.name)), Amount)
  {
    var mine := Filter(contracts, ByContractor(c.name));
    DistributionIsKeysTotal(contracts, c.name, c.agencies);
    forall i | 0 <= i < |mine| ensures AgencyOf(mine[i]) in c.agencies {
      var x := mine[i];
      assert x in mine;
      assert x in contracts && x.contractor == c.name;
    }
    KeysTotalCover(c.agencies, mine, AgencyOf, Amount);
  }

  /** `contractors.getContractor(name)`: project/mockApi.js:459-493. */
  function GetContractor(contractors: seq<Contractor>, contracts: seq<Contract>, name: string): (r: Result<ContractorDetail>)
    ensures r.Err? <==> forall c :: c in contractors ==> !SameName(c.name, name)
    ensures r.Err? ==> r.message == "Contractor not found"
    ensures r.Ok? ==> var d := r.value;
      && d.contractor in contractors && SameName(d.contractor.name, name)
      && (forall i :: 0 <= i < |contractors| && SameName(contractors[i].name, name) ==>
            exists j :: 0 <= j <= i && contractors[j] == d.contractor)
      && d.recentContracts == RecentContracts(contracts, ByContractor(d.contractor.name))
      && |d.recentContracts| == Min(|Filter(contracts, ByContractor(d.contractor.name))|, 5)
      && (forall x :: x in d.recentContracts ==> x in contracts && x.contractor == d.contractor.name)
      && d.contractHistory == [YearTotal(2023, 2100000000, 5), YearTotal(2024, 3200000000, 8),
                               YearTotal(2025, d.contractor.totalValue, d.contractor.totalContracts)]
      && d.agencyDistribution == Distribution(contracts, d.contractor.name, d.contractor.agencies)
      && |d.agencyDistribution| == |d.contractor.agencies|
  {
    match FindFirst(contractors, (c: Contractor) => SameName(c.name, name))
    case None => Err("Contractor not found")
    case Some(i) =>
      var c := contractors[i];
      Ok(ContractorDetail(
        c,
        RecentContracts(contracts, ByContractor(c.name)),
        [YearTotal(2023, 2100000000, 5), YearTotal(2024, 3200000000, 8),
         YearTotal(2025, c.totalValue, c.totalContracts)],
        Distribution(contracts, c.name, c.agencies)))
  }

  datatype ContractorShare = ContractorShare(contractor: string, totalValue: int, count: int)

  datatype MonthTotal = MonthTotal(month: int, totalValue: int, count: int)

  datatype AgencyDetail = AgencyDetail(
    agency: AgencyRecord,
    recentContracts: seq<Contract>,
    topContractors: seq<ContractorShare>,
    contractHistory: seq<MonthTotal>)

  /** A contractor's contracts with the agency, summed and counted. */
  function ShareWith(contracts: seq<Contract>, agency: string, c: Contractor): ContractorShare
  {
    var mine := Filter(contracts, ByPair(c.name, agency));
    ContractorShare(c.name, SumOf(mine, Amount), |mine|)
  }

  function ListsAgency(agency: string): Contractor -> bool
  {
    (c: Contractor) => agency in c.agencies
  }

  /** `mockContractors.filter(c => c.agencies.includes(agency)).map(...)`. */
  function SharesWith(contracts: seq<Contract>, agency: string, contractors: seq<Contractor>): (r: seq<ContractorShare>)
    ensures forall s :: s in r ==> exists c :: c in contractors && agency in c.agencies && s == ShareWith(contracts, agency, c)
    ensures forall c :: c in contractors && agency in c.agencies ==> ShareWith(contracts, agency, c) in r
  {
    if contractors == [] then []
    else
      var c := Last(contractors);
      InitLast(contractors);
      SharesWith(contracts, agency, Init(contractors)) +
        (if agency in c.agencies then [ShareWith(contracts, agency, c)] else [])
  }

  /** One share per contractor that lists the agency. */
  lemma {:induction false} SharesWithLength(contracts: seq<Contract>, agency: string, contractors: seq<Contractor>)
    ensures |SharesWith(contracts, agency, contractors)| == |Filter(contractors, ListsAgency(agency))|
  {
    if contractors != [] {
      SharesWithLength(contracts, agency, Init(contractors));
    }
  }

  function LargerShare(): (ContractorShare, ContractorShare) -> bool
  {
    (a: ContractorShare, b: ContractorShare) => b.totalValue - a.totalValue <= 0
  }

  lemma LargerShareIsTotalPreorder()
    ensures TotalPreorder(LargerShare())
  {
  }

  /** The five largest shares: `.sort((a, b) => b.totalValue - a.totalValue).slice(0, 5)`. */
  function TopShares(shares: seq<ContractorShare>): (r: seq<ContractorShare>)
    ensures |r| == Min(|shares|, 5)
    ensures forall s :: s in r ==> s in shares
    ensures multiset(r) <= multiset(shares)
  {
    var t := Take(SortBy(shares, LargerShare()), 5);
    TakeMultiset(SortBy(shares, LargerShare()), 5);
    assert forall s :: s in t ==> s in multiset(shares);
    t
  }

  /** The top list is in non-increasing value order, and every share left
      out is no larger than every share kept. */
  lemma TopSharesLargest(shares: seq<ContractorShare>)
    ensures var r := TopShares(shares);
      && |r| == Min(|shares|, 5)
      && (forall i, j :: 0 <= i < j < |r| ==> r[i].totalValue >= r[j].totalValue)
      && (forall x, y :: x in shares && x !in r && y in r ==> y.totalValue >= x.totalValue)
  {
    var le := LargerShare();
    LargerShareIsTotalPreorder();
    SortBySorted(shares, le);
    var r := TopShares(shares);
    forall i, j | 0 <= i < j < |r| ensures r[i].totalValue >= r[j].totalValue {
      assert le(r[i], r[j]);
    }
    forall x, y | x in shares && x !in r && y in r ensures y.totalValue >= x.totalValue {
      TakeSortedDominates(shares, le, 5, x, y);
    }
  }

  /** `agencies.getAgency(name)`: project/mockApi.js:517-555. */
  function GetAgency(agencies: seq<AgencyRecord>, contractors: seq<Contractor>, contracts: seq<Contract>, name: string): (r: Result<AgencyDetail>)
    ensures r.Err? <==> forall a :: a in agencies ==> !SameName(a.name, name)
    ensures r.Err? ==> r.message == "Agency not found"
    ensures r.Ok? ==> var d := r.value;
      && d.agency in agencies && SameName(d.agency.name, name)
      && (forall i :: 0 <= i < |agencies| && SameName(agencies[i].name, name) ==>
            exists j :: 0 <= j <= i && agencies[j] == d.agency)
      && d.recentContracts == RecentContracts(contracts, ByAgency(d.agency.name))
      && |d.recentContracts| == Min(|Filter(contracts, ByAgency(d.agency.name))|, 5)
      && (forall x :: x in d.recentContracts ==> x in contracts && x.agency == d.agency.name)
      && d.topContractors == TopShares(SharesWith(contracts, d.agency.name, contractors))
      && |d.topContractors| == Min(|Filter(contractors, ListsAgency(d.agency.name))|, 5)
      && (forall s :: s in d.topContractors ==>
            exists c :: c in contractors && d.agency.name in c.agencies && s == ShareWith(contracts, d.agency.name, c))
      && d.contractHistory == [MonthTotal(202501, 640000000, 3), MonthTotal(202502, 890000000, 4),
                               MonthTotal(202503, d.agency.totalValue, d.agency.totalContracts)]
  {
    match FindFirst(agencies, (a: AgencyRecord) => SameName(a.name, name))
    case None => Err("Agency not found")
    case Some(i) =>
      var a := agencies[i];
      SharesWithLength(contracts, a.name, contractors);
      Ok(AgencyDetail(
        a,
        RecentContracts(contracts, ByAgency(a.name)),
        TopShares(SharesWith(contracts, a.name, contractors)),
        [MonthTotal(202501, 640000000, 3), MonthTotal(202502, 890000000, 4),
         MonthTotal(202503, a.totalValue, a.totalContracts)]))
  }

  /** An agency's top contractors are the largest shares among the
      contractors that list it, in non-increasing order. */
  lemma AgencyTopContractors(agencies: seq<AgencyRecord>, contractors: seq<Contractor>, contracts: seq<Contract>, name: string)
    requires GetAgency(agencies, contractors, contracts, name).Ok?
    ensures var d := GetAgency(agencies, contractors, contracts, name).value; var t := d.topContractors;
      && (forall i, j :: 0 <= i < j < |t| ==> t[i].totalValue >= t[j].totalValue)
      && (forall c, y ::
            (c in contractors && d.agency.name in c.agencies &&
             ShareWith(contracts, d.agency.name, c) !in t && y in t) ==>
            y.totalValue >= ShareWith(contracts, d.agency.name, c).totalValue)
  {
    var d := GetAgency(agencies, contractors, contracts, name).value;
    TopSharesLargest(SharesWith(contracts, d.agency.name, contractors));
  }

  /** An agency's recent contracts are its newest, newest first. */
  lemma AgencyRecentContracts(agencies: seq<AgencyRecord>, contractors: seq<Contractor>, contracts: seq<Contract>, name: string)
    requires GetAgency(agencies, contractors, contracts, name).Ok?
    ensures var d := GetAgency(agencies, contractors, contracts, name).value; var r := d.recentContracts;
      && (forall i, j :: 0 <= i < j < |r| ==> r[i].date >= r[j].date)
      && (forall x, y :: x in contracts && x.agency == d.agency.name && x !in r && y in r ==> y.date >= x.date)
  {
    var d := GetAgency(agencies, contractors, contracts, name).value;
    RecentContractsNewest(contracts, ByAgency(d.agency.name));
  }

  /** A contractor's recent contracts are its newest, newest first. */
  lemma ContractorRecentContracts(contractors: seq<Contractor>, contracts: seq<Contract>, name: string)
    requires GetContractor(contractors, contracts, name).Ok?
    ensures var d := GetContractor(contractors, contracts, name).value; var r := d.recentContracts;
      && (forall i, j :: 0 <= i < j < |r| ==> r[i].date >= r[j].date)
      && (forall x, y :: x in contracts && x.contractor == d.contractor.name && x !in r && y in r ==> y.date >= x.date)
  {
    var d := GetContractor(contractors, contracts, name).value;
    RecentContractsNewest(contracts, ByContractor(d.contractor.name));
  }

  // ---------------------------------------------------------------- alerts

  /** A value of the alert-settings object. */
  datatype Setting = Names(names: seq<string>) | Number(value: int) | Flag(on: bool)

  /** `{ ...current, ...update }`: the update's keys take its values, every
      other key keeps its old value. */
  function MergeSettings(current: map<string, Setting>, update: map<string, Setting>): (r: map<string, Setting>)
    ensures r.Keys == current.Keys + update.Keys
    ensures forall k :: k in update ==> r[k] == update[k]
    ensures forall k :: k in current && k !in update ==> r[k] == current[k]
  {
    current + update
  }

  /** Sending the same update twice has the effect of sending it once. */
  lemma MergeSettingsIdempotent(current: map<string, Setting>, update: map<string, Setting>)
    ensures MergeSettings(MergeSettings(current, update), update) == MergeSettings(current, update)
  {
  }

  /** `mockUser` (project/mockApi.js:226-237): the one object the JavaScript
      back-end changes. */
  class MockUser {
    const id: string
    const email: string
    const name: string
    const role: string
    var alertSettings: map<string, Setting>

    constructor ()
      ensures alertSettings == map[
        "contractors" := Names(["Lockheed Martin Corp.", "Northrop Grumman Systems Corp."]),
        "agencies" := Names(["NAVY", "SPACE FORCE"]),
        "minAmount" := Number(300000000),
        "enabled" := Flag(true)]
    {
      id := "user123";
      email := "investor@wire84.com";
      name := "John Investor";
      role := "user";
      alertSettings := map[
        "contractors" := Names(["Lockheed Martin Corp.", "Northrop Grumman Systems Corp."]),
        "agencies" := Names(["NAVY", "SPACE FORCE"]),
        "minAmount" := Number(300000000),
        "enabled" := Flag(true)];
    }

    /** `alerts.updateAlerts(alertSettings)`: project/mockApi.js:567-578. */
    method UpdateAlerts(update: map<string, Setting>) returns (settings: map<string, Setting>)
      modifies this
      ensures alertSettings == MergeSettings(old(alertSettings), update)
      ensures settings == alertSettings
    {
      alertSettings := MergeSettings(alertSettings, update);
      settings := alertSettings;
    }
  }

  // ---------------------------------------------------------------- the shipped data

  /** The first agency whose name matches in lower case is the one found. */
  lemma AgencyFound(agencies: seq<AgencyRecord>, contractors: seq<Contractor>, contracts: seq<Contract>, name: string, i: nat)
    requires i < |agencies| && Lower(agencies[i].name) == Lower(name)
    requires forall j :: 0 <= j < i ==> Lower(agencies[j].name) != Lower(name)
    ensures var r := GetAgency(agencies, contractors, contracts, name);
      r.Ok? && r.value.agency == agencies[i]
  {
    var r := GetAgency(agencies, contractors, contracts, name);
    assert SameName(agencies[i].name, name);
    FirstMatch(agencies, name, r.value.agency, i);
  }

  lemma FirstMatch(agencies: seq<AgencyRecord>, name: string, a: AgencyRecord, i: nat)
    requires i < |agencies| && SameName(a.name, name)
    requires forall j :: 0 <= j < i ==> !SameName(agencies[j].name, name)
    requires exists j :: 0 <= j <= i && agencies[j] == a
    ensures a == agencies[i]
  {
  }

  /** A name that no contractor's name matches in lower case is
      "Contractor not found". */
  lemma ContractorMissing(contractors: seq<Contractor>, contracts: seq<Contract>, name: string)
    requires forall c :: c in contractors ==> Lower(c.name) != Lower(name)
    ensures var r := GetContractor(contractors, contracts, name);
      r.Err? && r.message == "Contractor not found"
  {
  }

  /** A company that holds a shipped contract but has no contractor record
      (SpaceX) is "Contractor not found". */
  lemma ShippedMissingContractor()
    ensures var r := GetContractor(MockContractors, MockContracts, "SpaceX");
      r.Err? && r.message == "Contractor not found"
  {
    forall c | c in MockContractors ensures Lower(c.name) != Lower("SpaceX") {
      assert |Lower(c.name)| != |Lower("SpaceX")|;
    }
    ContractorMissing(MockContractors, MockContracts, "SpaceX");
  }

  /** On the shipped lists, looking up 'navy' finds the NAVY record whatever
      the case. */
  lemma ShippedAgencyLookup()
    ensures var r := GetAgency(MockAgencies, MockContractors, MockContracts, "navy");
      r.Ok? && r.value.agency == MockAgencies[0]
  {
    assert Lower("NAVY") == "navy";
    AgencyFound(MockAgencies, MockContractors, MockContracts, "navy", 0);
  }
}
