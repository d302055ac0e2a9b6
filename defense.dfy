/** The defense-industry analytics helpers (project/src/lib/defenseAnalytics.ts)
    over the static industry record of project/src/data/defense_industry_data.ts.
    Each helper takes the record as a parameter, and `Data` is the record the
    page ships with. Revenues and values are exact reals. */
module DefenseAnalytics {
  import opened Seqs
  import opened Js

  // ---------------------------------------------------------------- the record

  datatype TopContractor = TopContractor(name: string, revenue: real, specialties: seq<string>, recentContracts: real)

  datatype RecentContract = RecentContract(contractor: string, value: real, kind: string, description: string)

  datatype Trend = Trend(name: string, impact: string)

  datatype Regulation = Regulation(name: string, impact: string)

  datatype SupplyIssue = SupplyIssue(name: string, impact: string)

  datatype Risk = Risk(factor: string, severity: string)

  datatype IndustryData = IndustryData(
    budgetTotal: real,
    budgetYear: int,
    breakdown: seq<(string, real)>,
    topContractors: seq<TopContractor>,
    recentContracts: seq<RecentContract>,
    technological: seq<Trend>,
    regulatory: seq<Regulation>,
    supplyChain: seq<SupplyIssue>,
    risks: seq<Risk>)

  /** `budget.breakdown` (project/src/data/defense_industry_data.ts:5-10), in
      key order. */
  const Breakdown: seq<(string, real)> :=
    [("rdte", 145.8), ("cybersecurity", 14.0), ("ai", 1.8), ("modernization", 78.5)]

  /** `topContractors` (project/src/data/defense_industry_data.ts:13-44). */
  const TopContractors: seq<TopContractor> :=
    [ TopContractor("Lockheed Martin", 72.5, ["F-35 fighter jet", "missile systems", "space technology"], 18.2),
      TopContractor("RTX", 40.6, ["missile systems", "integrated defense", "advanced sensors"], 12.4),
      TopContractor("Northrop Grumman", 35.2, ["nuclear modernization", "B-21 Raider", "space systems"], 15.8),
      TopContractor("General Dynamics", 33.7, ["combat vehicles", "shipbuilding", "IT services"], 9.6),
      TopContractor("Boeing", 32.7, ["F-15EX fighter jet", "satellite systems"], 8.9) ]

  /** `recentContracts` (project/src/data/defense_industry_data.ts:46-87),
      without the breakdown the helpers never read. */
  const RecentContracts: seq<RecentContract> :=
    [ RecentContract("Northrop Grumman", 1400.0, "Air and Missile Defense",
        "Modernization of global air and missile defense capabilities"),
      RecentContract("HII", 147.0, "Naval Systems", "Shipboard and shore-based combat training for U.S. Navy"),
      RecentContract("Charles Stark Draper Laboratory", 308.0, "Naval Systems",
        "Engineering for hypersonic missile program navigation"),
      RecentContract("GE Aerospace", 5000.0, "Aircraft Systems", "F110 engines support for foreign military sales"),
      RecentContract("KBR", 229.0, "Aircraft Systems", "Life cycle research for cargo helicopter systems") ]

  /** `trends.technological` (project/src/data/defense_industry_data.ts:90-115). */
  const Technological: seq<Trend> :=
    [ Trend("AI Integration", "High"), Trend("Industry 5.0", "Medium"),
      Trend("Autonomous Systems", "High"), Trend("Cybersecurity", "Critical") ]

  /** `trends.regulatory` (project/src/data/defense_industry_data.ts:117-138). */
  const Regulatory: seq<Regulation> :=
    [ Regulation("Streamlined Acquisition", "Positive"), Regulation("Software Reform", "Positive"),
      Regulation("Commercial Items", "Positive"), Regulation("Inflation Relief", "Neutral") ]

  /** `trends.supplyChain` (project/src/data/defense_industry_data.ts:140-151). */
  const SupplyChain: seq<SupplyIssue> :=
    [ SupplyIssue("Berry Amendment", "Medium"), SupplyIssue("Supply Monitoring", "High") ]

  /** `outlook.risks` (project/src/data/defense_industry_data.ts:155-171). */
  const Risks: seq<Risk> :=
    [ Risk("Budget Uncertainty", "High"), Risk("Supply Chain", "Medium"), Risk("Shifting Priorities", "Medium") ]

  /** `defenseIndustryData` (project/src/data/defense_industry_data.ts:1-173),
      without the descriptions the helpers never read. */
  const Data: IndustryData :=
    IndustryData(895.2, 2025, Breakdown, TopContractors, RecentContracts, Technological, Regulatory, SupplyChain, Risks)

  // ---------------------------------------------------------------- numbers

  /** A JavaScript number that a quotient can produce. */
  datatype Number = Finite(value: real) | NaN | PositiveInfinity | NegativeInfinity

  /** `a / b` on JavaScript numbers. */
  function Divide(a: real, b: real): (r: Number)
    ensures b != 0.0 ==> r == Finite(a / b)
    ensures b == 0.0 ==> (r.NaN? <==> a == 0.0)
  {
    if b != 0.0 then Finite(a / b)
    else if a > 0.0 then PositiveInfinity
    else if a < 0.0 then NegativeInfinity
    else NaN
  }

  /** `x * 100`; the infinities and NaN stay as they are. */
  function Percent(x: Number): Number
  {
    match x
    case Finite(v) => Finite(v * 100.0)
    case _ => x
  }

  function RealSum<T>(s: seq<T>, f: T -> real): real
  {
    if s == [] then 0.0 else RealSum(Init(s), f) + f(Last(s))
  }

  function Revenue(c: TopContractor): real
  {
    c.revenue
  }

  function ContractValue(c: RecentContract): real
  {
    c.value
  }

  // ---------------------------------------------------------------- lookups

  function NamedAs(name: string): TopContractor -> bool
  {
    (c: TopContractor) => c.name == name
  }

  /** s[i] is the first contractor named name, the one `find` returns. */
  predicate FirstNamed(s: seq<TopContractor>, i: int, name: string)
  {
    0 <= i < |s| && s[i].name == name && forall j :: 0 <= j < i ==> s[j].name != name
  }

  /** `getContractorValue` (project/src/lib/defenseAnalytics.ts:11-16): the
      revenue of the first contractor with exactly that name, 0 if none. */
  function GetContractorValue(d: IndustryData, name: string): (r: real)
    ensures (forall c :: c in d.topContractors ==> c.name != name) ==> r == 0.0
    ensures forall i :: FirstNamed(d.topContractors, i, name) ==> r == d.topContractors[i].revenue
  {
    match FindFirst(d.topContractors, NamedAs(name))
    case None => 0.0
    case Some(i) => d.topContractors[i].revenue
  }

  /** `getContractorContracts` (project/src/lib/defenseAnalytics.ts:19-23):
      the recent contracts of that contractor, in their original order. */
  function AwardedTo(name: string): RecentContract -> bool
  {
    (c: RecentContract) => c.contractor == name
  }

  function GetContractorContracts(d: IndustryData, name: string): (r: seq<RecentContract>)
    ensures forall c :: c in r <==> c in d.recentContracts && c.contractor == name
    ensures forall c :: multiset(r)[c] == if c.contractor == name then multiset(d.recentContracts)[c] else 0
    ensures |r| == |Positions(d.recentContracts, AwardedTo(name))|
    ensures forall k :: 0 <= k < |r| ==> r[k] == d.recentContracts[Positions(d.recentContracts, AwardedTo(name))[k]]
  {
    FilterCount(d.recentContracts, AwardedTo(name));
    FilterOrder(d.recentContracts, AwardedTo(name));
    Filter(d.recentContracts, AwardedTo(name))
  }

  /** `calculateMarketShare` (project/src/lib/defenseAnalytics.ts:26-33). */
  function CalculateMarketShare(d: IndustryData, name: string): (r: Number)
    ensures RealSum(d.topContractors, Revenue) != 0.0 ==>
      r == Finite(GetContractorValue(d, name) / RealSum(d.topContractors, Revenue) * 100.0)
    ensures RealSum(d.topContractors, Revenue) == 0.0 && GetContractorValue(d, name) == 0.0 ==> r == NaN
  {
    Percent(Divide(GetContractorValue(d, name), RealSum(d.topContractors, Revenue)))
  }

  /** A name no contractor has gets a market share of 0 whenever the
      revenues do not add up to 0. */
  lemma UnknownMarketShare(d: IndustryData, name: string)
    requires RealSum(d.topContractors, Revenue) != 0.0
    requires forall c :: c in d.topContractors ==> c.name != name
    ensures CalculateMarketShare(d, name) == Finite(0.0)
  {
  }

  /** Revenue of a contractor whose name is unique is its own. */
  lemma ContractorValueOfUnique(d: IndustryData, i: nat)
    requires i < |d.topContractors|
    requires forall j :: 0 <= j < |d.topContractors| && j != i ==> d.topContractors[j].name != d.topContractors[i].name
    ensures GetContractorValue(d, d.topContractors[i].name) == d.topContractors[i].revenue
  {
  }

  lemma UniqueNameValue(d: IndustryData, c: TopContractor)
    requires Distinct(Names(d.topContractors))
    requires c in d.topContractors
    ensures GetContractorValue(d, c.name) == c.revenue
  {
    var s := d.topContractors;
    var i :| 0 <= i < |s| && s[i] == c;
    var ns := Names(s);
    forall j | 0 <= j < |s| && j != i ensures s[j].name != s[i].name {
      assert ns[j] == s[j].name && ns[i] == s[i].name;
    }
    ContractorValueOfUnique(d, i);
  }

  lemma {:induction false} RealSumExt(s: seq<TopContractor>, f: TopContractor -> real, g: TopContractor -> real)
    requires forall c :: c in s ==> f(c) == g(c)
    ensures RealSum(s, f) == RealSum(s, g)
  {
    if s != [] {
      assert forall c :: c in Init(s) ==> c in s by {
        InitLast(s);
      }
      RealSumExt(Init(s), f, g);
      assert Last(s) == s[|s| - 1];
    }
  }

  /** With distinct names, looking every listed contractor up by name gives
      back all of the revenue: the market shares, each its value over that
      total times 100, add up to 100. */
  lemma ContractorValuesTotal(d: IndustryData)
    requires Distinct(Names(d.topContractors))
    ensures RealSum(d.topContractors, (c: TopContractor) => GetContractorValue(d, c.name)) ==
      RealSum(d.topContractors, Revenue)
  {
    var s := d.topContractors;
    forall c | c in s ensures GetContractorValue(d, c.name) == Revenue(c) {
      UniqueNameValue(d, c);
    }
    RealSumExt(s, (c: TopContractor) => GetContractorValue(d, c.name), Revenue);
  }

  function Names(s: seq<TopContractor>): (r: seq<string>)
    ensures |r| == |s| && forall i :: 0 <= i < |s| ==> r[i] == s[i].name
  {
    seq(|s|, i requires 0 <= i < |s| => s[i].name)
  }

  // ---------------------------------------------------------------- rankings

  /** The comparator `(a, b) => w(b) - w(a)` read as "a may stay before b". */
  function Heavier<T>(w: T -> real): (T, T) -> bool
  {
    (a: T, b: T) => w(b) - w(a) <= 0.0
  }

  lemma HeavierIsTotalPreorder<T(!new)>(w: T -> real)
    ensures TotalPreorder(Heavier(w))
  {
  }

  /** `[...s].sort((a, b) => w(b) - w(a)).slice(0, limit)` with the default
      limit 5: the sort works on a copy, so s itself is left as it is. */
  function TopBy<T>(s: seq<T>, w: T -> real, limit: Option<int>): seq<T>
  {
    var l := match limit case None => 5 case Some(n) => n;
    JsSlice(SortBy(s, Heavier(w)), 0, l)
  }

  /** The top list is a prefix of the heaviest-first order: min(limit, n)
      entries for a non-negative limit, non-increasing weights, drawn from s,
      and no entry left out is heavier than one that is in. */
  lemma TopByFacts<T(!new)>(s: seq<T>, w: T -> real, limit: Option<int>)
    ensures var r := TopBy(s, w, limit); var l := match limit case None => 5 case Some(n) => n;
      && (l >= 0 ==> |r| == if l < |s| then l else |s|)
      && (forall i, j :: 0 <= i < j < |r| ==> w(r[i]) >= w(r[j]))
      && multiset(r) <= multiset(s)
      && (forall x, y :: x in s && x !in r && y in r ==> w(y) >= w(x))
  {
    var l := match limit case None => 5 case Some(n) => n;
    var sorted := SortBy(s, Heavier(w));
    var n := RelativeIndex(l, |sorted|);
    var r := TopBy(s, w, limit);
    assert r == sorted[..n] by {
      if n == 0 {
        assert JsSlice(sorted, 0, l) == [];
      } else {
        assert sorted[0..n] == sorted[..n];
      }
    }
    HeavierIsTotalPreorder(w);
    SortBySorted(s, Heavier(w));
    assert Take(sorted, n) == r;
    forall x, y | x in s && x !in r && y in r ensures w(y) >= w(x) {
      TakeSortedDominates(s, Heavier(w), n, x, y);
    }
  }

  /** `getTopContractors` (project/src/lib/defenseAnalytics.ts:36-40). */
  function GetTopContractors(d: IndustryData, limit: Option<int>): seq<TopContractor>
  {
    TopBy(d.topContractors, Revenue, limit)
  }

  /** `getLargestContracts` (project/src/lib/defenseAnalytics.ts:43-47). */
  function GetLargestContracts(d: IndustryData, limit: Option<int>): seq<RecentContract>
  {
    TopBy(d.recentContracts, ContractValue, limit)
  }

  // ---------------------------------------------------------------- trends

  datatype TrendAnalysis = TrendAnalysis(highImpact: seq<Trend>, total: nat, criticalCount: nat)

  predicate HighOrCritical(t: Trend)
  {
    t.impact == "High" || t.impact == "Critical"
  }

  predicate IsCritical(t: Trend)
  {
    t.impact == "Critical"
  }

  /** A filter keeps at least as many elements under a weaker test. */
  lemma {:induction false} FilterWeaker<T(!new)>(s: seq<T>, p: T -> bool, q: T -> bool)
    requires forall x :: p(x) ==> q(x)
    ensures |Filter(s, p)| <= |Filter(s, q)|
  {
    if s != [] {
      FilterWeaker(Init(s), p, q);
    }
  }

  /** `analyzeTrends` (project/src/lib/defenseAnalytics.ts:50-62). */
  function AnalyzeTrends(d: IndustryData): (r: TrendAnalysis)
    ensures forall t :: t in r.highImpact <==> t in d.technological && (t.impact == "High" || t.impact == "Critical")
    ensures |r.highImpact| == |Positions(d.technological, HighOrCritical)|
    ensures forall k :: 0 <= k < |r.highImpact| ==>
      r.highImpact[k] == d.technological[Positions(d.technological, HighOrCritical)[k]]
    ensures r.total == |d.technological|
    ensures r.criticalCount == |Filter(d.technological, IsCritical)| == |Positions(d.technological, IsCritical)|
    ensures r.criticalCount <= |r.highImpact| <= r.total
  {
    FilterWeaker(d.technological, IsCritical, HighOrCritical);
    FilterOrder(d.technological, HighOrCritical);
    FilterOrder(d.technological, IsCritical);
    TrendAnalysis(Filter(d.technological, HighOrCritical), |d.technological|, |Filter(d.technological, IsCritical)|)
  }

  // ---------------------------------------------------------------- risk

  /** `riskWeights[severity] || 0`. */
  function RiskWeight(r: Risk): (w: real)
    ensures r.severity == "High" ==> w == 1.0
    ensures r.severity == "Medium" ==> w == 0.6
    ensures r.severity == "Low" ==> w == 0.3
    ensures r.severity !in {"High", "Medium", "Low"} ==> w == 0.0
    ensures 0.0 <= w <= 1.0
  {
    if r.severity == "High" then 1.0
    else if r.severity == "Medium" then 0.6
    else if r.severity == "Low" then 0.3
    else 0.0
  }

  /** `calculateRiskScore` (project/src/lib/defenseAnalytics.ts:65-74): the
      mean weight times 100; NaN (0 / 0) for an empty risk list. */
  function CalculateRiskScore(d: IndustryData): (r: Number)
    ensures d.risks == [] ==> r == NaN
    ensures d.risks != [] ==> r == Finite(RealSum(d.risks, RiskWeight) / |d.risks| as real * 100.0)
    ensures d.risks != [] ==> r.Finite? && 0.0 <= r.value <= 100.0
  {
    RiskSumBounds(d.risks);
    PercentBounds(RealSum(d.risks, RiskWeight), |d.risks| as real);
    Percent(Divide(RealSum(d.risks, RiskWeight), |d.risks| as real))
  }

  /** A part of a positive whole is between 0 and 100 percent of it. */
  lemma PercentBounds(a: real, n: real)
    requires 0.0 <= a <= n
    ensures n > 0.0 ==> 0.0 <= a / n * 100.0 <= 100.0
  {
    if n > 0.0 {
      assert a / n <= 1.0;
    }
  }

  predicate IsHigh(r: Risk)
  {
    r.severity == "High"
  }

  predicate IsMedium(r: Risk)
  {
    r.severity == "Medium"
  }

  predicate IsLow(r: Risk)
  {
    r.severity == "Low"
  }

  /** The summed weight counts each 'High' risk as 1, each 'Medium' one as
      0.6 and each 'Low' one as 0.3; any other severity adds nothing. */
  lemma {:induction false} RiskSumByLevel(s: seq<Risk>)
    ensures RealSum(s, RiskWeight) ==
      |Filter(s, IsHigh)| as real + 0.6 * |Filter(s, IsMedium)| as real + 0.3 * |Filter(s, IsLow)| as real
  {
    if s != [] {
      RiskSumByLevel(Init(s));
    }
  }

  lemma {:induction false} RiskSumBounds(s: seq<Risk>)
    ensures 0.0 <= RealSum(s, RiskWeight) <= |s| as real
  {
    if s != [] {
      RiskSumBounds(Init(s));
    }
  }

  // ---------------------------------------------------------------- budget

  datatype Allocation = Allocation(category: string, value: real, percentage: Number)

  /** `getBudgetAllocation` (project/src/lib/defenseAnalytics.ts:82-91): every
      breakdown entry, in order, with its share of the total budget. */
  function GetBudgetAllocation(d: IndustryData): (r: seq<Allocation>)
    ensures |r| == |d.breakdown|
    ensures forall i :: 0 <= i < |r| ==> r[i].category == d.breakdown[i].0 && r[i].value == d.breakdown[i].1
    ensures d.budgetTotal != 0.0 ==> forall i :: 0 <= i < |r| ==>
      r[i].percentage == Finite(d.breakdown[i].1 / d.budgetTotal * 100.0)
  {
    seq(|d.breakdown|, i requires 0 <= i < |d.breakdown| =>
      Allocation(d.breakdown[i].0, d.breakdown[i].1, Percent(Divide(d.breakdown[i].1, d.budgetTotal))))
  }

  // ---------------------------------------------------------------- regulation

  function RegulationImpact(r: Regulation): string
  {
    r.impact
  }

  /** `getRegulatoryImpact` (project/src/lib/defenseAnalytics.ts:94-99): the
      reduce bumps the count of each entry's impact label in place. */
  method GetRegulatoryImpact(d: IndustryData) returns (counts: map<string, int>)
    ensures forall k :: k in counts <==> k in DistinctKeys(d.regulatory, RegulationImpact)
    ensures forall k :: k in counts ==> counts[k] == SumWhere(d.regulatory, RegulationImpact, k, One)
  {
    var regs := d.regulatory;
    counts := map[];
    for i := 0 to |regs|
      invariant SumsBy(counts, regs[..i], RegulationImpact, One)
    {
      assert regs[..i + 1] == regs[..i] + [regs[i]];
      AddToSums(counts, regs[..i], regs[i], RegulationImpact, One);
      counts := AddTo(counts, regs[i].impact, 1);
    }
    assert regs[..|regs|] == regs;
  }

  /** The sum of the entries of m listed in ks. */
  function MapTotal(ks: seq<string>, m: map<string, int>): int
  {
    if ks == [] then 0 else MapTotal(Init(ks), m) + (if Last(ks) in m then m[Last(ks)] else 0)
  }

  lemma {:induction false} MapTotalIsKeysTotal<T>(ks: seq<string>, m: map<string, int>, s: seq<T>, key: T -> string)
    requires forall k :: k in ks ==> k in m && m[k] == SumWhere(s, key, k, One)
    ensures MapTotal(ks, m) == KeysTotal(ks, s, key, One)
  {
    if ks != [] {
      assert forall k :: k in Init(ks) ==> k in ks by {
        InitLast(ks);
      }
      MapTotalIsKeysTotal(Init(ks), m, s, key);
    }
  }

  /** The label counts, one per distinct label, add up to the number of
      regulatory entries. */
  lemma RegulatoryCountsTotal(d: IndustryData, counts: map<string, int>)
    requires forall k :: k in counts <==> k in DistinctKeys(d.regulatory, RegulationImpact)
    requires forall k :: k in counts ==> counts[k] == SumWhere(d.regulatory, RegulationImpact, k, One)
    ensures MapTotal(DistinctKeys(d.regulatory, RegulationImpact), counts) == |d.regulatory|
  {
    var ks := DistinctKeys(d.regulatory, RegulationImpact);
    MapTotalIsKeysTotal(ks, counts, d.regulatory, RegulationImpact);
    GroupTotal(d.regulatory, RegulationImpact, One);
    SumOneIsLength(d.regulatory);
  }

  // ---------------------------------------------------------------- diversity

  /** `calculateContractorDiversity` (project/src/lib/defenseAnalytics.ts:102-109):
      0 for an unknown name, else the first match's specialty count out of 5,
      as a percentage. */
  function CalculateContractorDiversity(d: IndustryData, name: string): (r: real)
    ensures (forall c :: c in d.topContractors ==> c.name != name) ==> r == 0.0
    ensures forall i :: FirstNamed(d.topContractors, i, name) ==>
      r == |d.topContractors[i].specialties| as real / 5.0 * 100.0
    ensures 0.0 <= r
    ensures (forall c :: c in d.topContractors ==> |c.specialties| <= 5) ==> r <= 100.0
  {
    match FindFirst(d.topContractors, NamedAs(name))
    case None => 0.0
    case Some(i) => |d.topContractors[i].specialties| as real / 5.0 * 100.0
  }

  // ---------------------------------------------------------------- supply chain

  datatype SupplyChainRisk = SupplyChainRisk(highImpactCount: nat, totalIssues: nat, riskLevel: string)

  /** `getSupplyChainRisk` (project/src/lib/defenseAnalytics.ts:112-122). */
  function GetSupplyChainRisk(d: IndustryData): (r: SupplyChainRisk)
    ensures r.totalIssues == |d.supplyChain|
    ensures r.highImpactCount <= r.totalIssues
    ensures r.highImpactCount == |Filter(d.supplyChain, (s: SupplyIssue) => s.impact == "High")|
    ensures r.riskLevel == "High" <==> r.highImpactCount > 1
    ensures r.riskLevel != "High" ==> r.riskLevel == "Moderate"
  {
    var high := Filter(d.supplyChain, (s: SupplyIssue) => s.impact == "High");
    SupplyChainRisk(|high|, |d.supplyChain|, if |high| > 1 then "High" else "Moderate")
  }

  // ---------------------------------------------------------------- the shipped record

  /** On the shipped record Lockheed Martin's revenue is 72.5 and a name
      that is not listed gives 0. */
  lemma ShippedContractorValue()
    ensures GetContractorValue(Data, "Lockheed Martin") == 72.5
    ensures GetContractorValue(Data, "Acme") == 0.0
  {
    assert FirstNamed(TopContractors, 0, "Lockheed Martin");
    assert forall c :: c in TopContractors ==> c.name != "Acme";
  }

  /** Boeing lists two specialties: a diversity of 40. */
  lemma ShippedDiversity()
    ensures CalculateContractorDiversity(Data, "Boeing") == 40.0
  {
    assert FirstNamed(TopContractors, 4, "Boeing");
  }

  /** Only one supply-chain issue is high impact, so the rating is
      'Moderate'. */
  lemma ShippedSupplyChain()
    ensures GetSupplyChainRisk(Data) == SupplyChainRisk(1, 2, "Moderate")
  {
  }
}
