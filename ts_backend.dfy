/** The TypeScript mock back-end (project/src/mockApi.ts): it loads the
    contract dataset, drops unpriced rows, computes the analytics summary
    with accumulator dictionaries, sorts the shared contract list by amount
    as a side effect, and answers contract queries from that list. */
module TsBackend {
  import opened Seqs
  import opened Js
  import opened ContractQuery

  // ---------------------------------------------------------------- parseInt

  predicate IsDigit(c: char)
  {
    '0' <= c <= '9'
  }

  /** The ASCII characters `parseInt` skips before the number. */
  predicate IsSpace(c: char)
  {
    c == ' ' || c == '\t' || c == '\n' || c == '\r' || c == '\U{B}' || c == '\U{C}'
  }

  function TrimStart(s: string): (r: string)
    ensures r == [] || !IsSpace(r[0])
    ensures s != [] && !IsSpace(s[0]) ==> r == s
  {
    if s != [] && IsSpace(s[0]) then TrimStart(s[1..]) else s
  }

  /** The longest run of digits at the start of s. */
  function DigitPrefix(s: string): (r: string)
    ensures r <= s
    ensures forall i :: 0 <= i < |r| ==> IsDigit(r[i])
    ensures |r| == |s| || !IsDigit(s[|r|])
  {
    if s != [] && IsDigit(s[0]) then [s[0]] + DigitPrefix(s[1..]) else []
  }

  /** The number a run of decimal digits denotes. */
  function DigitsValue(ds: string): nat
  {
    if ds == [] then 0
    else DigitsValue(Init(ds)) * 10 + (if IsDigit(Last(ds)) then Last(ds) as int - '0' as int else 0)
  }

  /** The leading digits of t as a number, or None when t does not start
      with a digit. */
  function ParseDigits(t: string): Option<int>
  {
    var ds := DigitPrefix(t);
    if ds == [] then None else Some(DigitsValue(ds))
  }

  /** An optional sign, then the leading digits. */
  function ParseSigned(t: string): Option<int>
  {
    if t != [] && t[0] == '-' then
      match ParseDigits(t[1..])
      case Some(v) => Some(-v)
      case None => None
    else if t != [] && t[0] == '+' then ParseDigits(t[1..])
    else ParseDigits(t)
  }

  /** `parseInt(s)` in base 10: leading whitespace, an optional sign, then
      the leading digits; no digits at all is NaN (None). */
  function ParseInt(s: string): Option<int>
  {
    ParseSigned(TrimStart(s))
  }

  function DigitChar(d: nat): char
    requires d < 10
  {
    ('0' as int + d) as char
  }

  /** The decimal digits of n, most significant first. */
  function DecimalString(n: nat): (r: string)
    ensures r != []
    ensures forall i :: 0 <= i < |r| ==> IsDigit(r[i])
  {
    if n < 10 then [DigitChar(n)] else DecimalString(n / 10) + [DigitChar(n % 10)]
  }

  lemma {:induction false} DecimalStringValue(n: nat)
    ensures DigitsValue(DecimalString(n)) == n
  {
    var r := DecimalString(n);
    if n >= 10 {
      DecimalStringValue(n / 10);
      SnocInit(DecimalString(n / 10), DigitChar(n % 10));
    }
  }

  lemma {:induction false} DigitPrefixOf(ds: string, rest: string)
    requires forall i :: 0 <= i < |ds| ==> IsDigit(ds[i])
    requires rest == [] || !IsDigit(rest[0])
    ensures DigitPrefix(ds + rest) == ds
  {
    if ds != [] {
      assert (ds + rest)[1..] == ds[1..] + rest;
      DigitPrefixOf(ds[1..], rest);
    } else {
      assert ds + rest == rest;
    }
  }

  /** parseInt reads a run of digits and stops at the first character that
      is not a digit: `parseInt('1000.50')` is 1000. */
  lemma ParseIntDigits(ds: string, rest: string)
    requires ds != [] && forall i :: 0 <= i < |ds| ==> IsDigit(ds[i])
    requires rest == [] || !IsDigit(rest[0])
    ensures ParseInt(ds + rest) == Some(DigitsValue(ds))
  {
    var s := ds + rest;
    assert s[0] == ds[0];
    assert TrimStart(s) == s;
    DigitPrefixOf(ds, rest);
  }

  /** A minus sign in front of a number negates it. */
  lemma ParseIntMinus(u: string)
    ensures ParseInt("-" + u) == match ParseDigits(u) case Some(v) => Some(-v) case None => None
  {
    var s := "-" + u;
    assert s[0] == '-' && s[1..] == u;
    assert TrimStart(s) == s;
  }

  /** parseInt reads back the decimal form of every natural number, and of
      its negation. */
  lemma ParseIntDecimal(n: nat)
    ensures ParseInt(DecimalString(n)) == Some(n)
    ensures n > 0 ==> ParseInt("-" + DecimalString(n)) == Some(-(n as int))
  {
    var d := DecimalString(n);
    DecimalStringValue(n);
    assert d + [] == d;
    ParseIntDigits(d, []);
    DigitPrefixOf(d, []);
    assert ParseDigits(d) == Some(n);
    ParseIntMinus(d);
  }

  // ---------------------------------------------------------------- parseCurrency

  function NotCurrencyMark(c: char): bool
  {
    c != '$' && c != ','
  }

  /** `value.replace(/[$,]/g, '')`. */
  function StripCurrency(s: string): string
  {
    Filter(s, NotCurrencyMark)
  }

  /** `parseCurrency` (project/src/mockApi.ts:5-8); None is NaN. */
  function ParseCurrency(value: string): Option<int>
  {
    if value == "N/A" then Some(0) else ParseInt(StripCurrency(value))
  }

  /** A digit string with a ',' before every group of three digits from the
      right, as in "1,234,567". */
  function GroupThousands(ds: string): string
  {
    if |ds| <= 3 then ds else GroupThousands(ds[..|ds| - 3]) + "," + ds[|ds| - 3..]
  }

  /** 'N/A' reads as 0; any other value loses every '$' and ',' and keeps
      every other character, and is then read by parseInt. */
  lemma ParseCurrencyCases(value: string)
    ensures ParseCurrency("N/A") == Some(0)
    ensures value != "N/A" ==> ParseCurrency(value) == ParseInt(StripCurrency(value))
    ensures forall c :: c in StripCurrency(value) <==> c in value && c != '$' && c != ','
  {
  }

  lemma StripOne(c: char)
    ensures StripCurrency([c]) == if NotCurrencyMark(c) then [c] else []
  {
    assert Init([c]) == [] && Last([c]) == c;
  }

  lemma StripAroundComma(g: string, b: string)
    ensures StripCurrency(g + "," + b) == StripCurrency(g) + StripCurrency(b)
  {
    FilterAppend(g + ",", b, NotCurrencyMark);
    FilterAppend(g, ",", NotCurrencyMark);
    StripOne(',');
  }

  lemma StripDigits(ds: string)
    requires forall i :: 0 <= i < |ds| ==> IsDigit(ds[i])
    ensures StripCurrency(ds) == ds
  {
    FilterAll(ds, NotCurrencyMark);
  }

  lemma {:induction false} StripGroupThousands(ds: string)
    requires forall i :: 0 <= i < |ds| ==> IsDigit(ds[i])
    ensures StripCurrency(GroupThousands(ds)) == ds
  {
    if |ds| <= 3 {
      StripDigits(ds);
    } else {
      var a, b := ds[..|ds| - 3], ds[|ds| - 3..];
      assert ds == a + b;
      assert GroupThousands(ds) == GroupThousands(a) + "," + b;
      StripGroupThousands(a);
      StripDigits(b);
      StripAroundComma(GroupThousands(a), b);
    }
  }

  lemma StripDollar(g: string, cents: string)
    ensures StripCurrency("$" + g + cents) == StripCurrency(g) + StripCurrency(cents)
  {
    var dg := "$" + g;
    FilterAppend(dg, cents, NotCurrencyMark);
    FilterAppend("$", g, NotCurrencyMark);
    StripOne('$');
    assert StripCurrency(dg) == [] + StripCurrency(g) == StripCurrency(g);
  }

  lemma StripCents(cents: string)
    requires cents != [] && cents[0] == '.'
    ensures StripCurrency(cents) != [] && StripCurrency(cents)[0] == '.'
  {
    assert cents == ['.'] + cents[1..];
    FilterAppend(['.'], cents[1..], NotCurrencyMark);
    StripOne('.');
  }

  /** parseCurrency reads back a dollar amount written with thousands
      separators: `parseCurrency('$1,234,567') == 1234567`, and any cents
      after a '.' are dropped. */
  lemma ParseCurrencyFormatted(n: nat, cents: string)
    requires cents == [] || cents[0] == '.'
    ensures ParseCurrency("$" + GroupThousands(DecimalString(n)) + cents) == Some(n)
  {
    var ds := DecimalString(n);
    var v := "$" + GroupThousands(ds) + cents;
    StripGroupThousands(ds);
    StripDollar(GroupThousands(ds), cents);
    if cents != [] {
      StripCents(cents);
    }
    assert v[0] == '$';
    DecimalStringValue(n);
    ParseIntDigits(ds, StripCurrency(cents));
  }

  // ---------------------------------------------------------------- loading

  /** A row of the dataset's `government_contracts` array. */
  datatype RawContract = RawContract(
    contract_date: int,
    agency: string,
    contractor: string,
    contract_value: string,
    text: string,
    location: string)

  predicate Priced(w: RawContract)
  {
    w.contract_value != "N/A"
  }

  /** Every priced row's value parses: otherwise its amount would be NaN. */
  predicate Loadable(raw: seq<RawContract>)
  {
    forall w :: w in raw && Priced(w) ==> ParseCurrency(w.contract_value).Some?
  }

  /** `new Date(new Date(d).setFullYear(2027))` as an ISO day: the same month
      and day in 2027, where 29 February rolls over to 1 March. */
  function CompletionDate(day: int): (r: int)
    ensures r / 10000 == 2027
    ensures day % 10000 != 229 ==> r % 10000 == day % 10000
    ensures day % 10000 == 229 ==> r % 10000 == 301
  {
    var mmdd := day % 10000;
    if mmdd == 229 then 20270301 else 20270000 + mmdd
  }

  /** `parseContractData` (project/src/mockApi.ts:11-22); the stored `text`
      field is the description. */
  function ParseContractData(w: RawContract): (c: Contract)
    requires ParseCurrency(w.contract_value).Some?
    ensures c.amount == ParseCurrency(w.contract_value).value
    ensures c.date == w.contract_date && c.agency == w.agency && c.contractor == w.contractor
    ensures c.description == w.text && c.location == w.location
    ensures c.completionDate == CompletionDate(w.contract_date)
  {
    Contract(w.contract_date, w.agency, w.contractor, ParseCurrency(w.contract_value).value,
      w.text, w.location, CompletionDate(w.contract_date))
  }

  /** `contractsData.government_contracts.filter(c => c.contract_value !==
      'N/A').map(parseContractData)` (project/src/mockApi.ts:25-27). */
  function LoadContracts(raw: seq<RawContract>): (r: seq<Contract>)
    requires Loadable(raw)
    ensures |r| == |Filter(raw, Priced)|
  {
    var priced := Filter(raw, Priced);
    seq(|priced|, i requires 0 <= i < |priced| => ParseContractData(priced[i]))
  }

  /** Loading keeps exactly the priced rows: every stored contract is a
      parsed priced row, so no stored amount comes from an 'N/A' value, and
      every priced row is stored. */
  lemma LoadContractsFacts(raw: seq<RawContract>)
    requires Loadable(raw)
    ensures forall c :: c in LoadContracts(raw) ==>
      exists w :: w in raw && w.contract_value != "N/A" && c == ParseContractData(w)
    ensures forall w :: w in raw && Priced(w) ==> ParseContractData(w) in LoadContracts(raw)
  {
    var priced := Filter(raw, Priced);
    var r := LoadContracts(raw);
    forall c | c in r ensures exists w :: w in raw && w.contract_value != "N/A" && c == ParseContractData(w) {
      var i :| 0 <= i < |r| && r[i] == c;
      assert priced[i] in priced;
    }
    forall w | w in raw && Priced(w) ensures ParseContractData(w) in r {
      assert w in priced;
      var i :| 0 <= i < |priced| && priced[i] == w;
      assert r[i] == ParseContractData(w);
    }
  }

  /** Each stored amount is parseInt of a priced row's value with '$' and
      ',' removed. */
  lemma StoredAmounts(raw: seq<RawContract>)
    requires Loadable(raw)
    ensures forall c :: c in LoadContracts(raw) ==>
      exists w :: w in raw && w.contract_value != "N/A" && Some(c.amount) == ParseInt(StripCurrency(w.contract_value))
  {
    LoadContractsFacts(raw);
  }

  // ---------------------------------------------------------------- analytics

  function Amount(c: Contract): int
  {
    c.amount
  }

  function AgencyKey(c: Contract): string
  {
    c.agency
  }

  function ContractorKey(c: Contract): string
  {
    c.contractor
  }

  function DateKey(c: Contract): int
  {
    c.date
  }

  datatype NamedValue = NamedValue(name: string, value: int)

  datatype DateTotal = DateTotal(date: int, value: int, count: int)

  datatype ContractSummary = ContractSummary(date: int, agency: string, contractor: string, amount: int, description: string)

  datatype Analytics = Analytics(
    totalValue: int,
    agencyBreakdown: seq<NamedValue>,
    topContractors: seq<NamedValue>,
    contractsByDate: seq<DateTotal>,
    recentLargeContracts: seq<ContractSummary>)

  /** One entry per listed key, with the amount sum of the contracts that
      have that key. */
  function Entries(ks: seq<string>, cs: seq<Contract>, key: Contract -> string): (r: seq<NamedValue>)
    ensures |r| == |ks|
    ensures forall j :: 0 <= j < |r| ==> r[j] == NamedValue(ks[j], SumWhere(cs, key, ks[j], Amount))
  {
    if ks == [] then [] else Entries(Init(ks), cs, key) + [NamedValue(Last(ks), SumWhere(cs, key, Last(ks), Amount))]
  }

  /** `Object.entries(reduce((acc, c) => acc[key(c)] += c.amount)).map(...)`:
      the keys in first-occurrence order with their amount sums. */
  function Breakdown(cs: seq<Contract>, key: Contract -> string): seq<NamedValue>
  {
    Entries(DistinctKeys(cs, key), cs, key)
  }

  function Value(e: NamedValue): int
  {
    e.value
  }

  lemma {:induction false} EntriesTotal(ks: seq<string>, cs: seq<Contract>, key: Contract -> string)
    ensures SumOf(Entries(ks, cs, key), Value) == KeysTotal(ks, cs, key, Amount)
  {
    if ks != [] {
      EntriesTotal(Init(ks), cs, key);
      SnocInit(Entries(Init(ks), cs, key), NamedValue(Last(ks), SumWhere(cs, key, Last(ks), Amount)));
    }
  }

  function Names(b: seq<NamedValue>): (r: seq<string>)
    ensures |r| == |b|
  {
    seq(|b|, j requires 0 <= j < |b| => b[j].name)
  }

  /** A breakdown lists the distinct keys in first-occurrence order (so
      each key once, exactly the keys that occur), each with that key's
      sum, and its values add up to the total amount. */
  lemma BreakdownFacts(cs: seq<Contract>, key: Contract -> string)
    ensures var b := Breakdown(cs, key);
      && Names(b) == DistinctKeys(cs, key)
      && (forall j :: 0 <= j < |b| ==> b[j].value == SumWhere(cs, key, b[j].name, Amount))
      && SumOf(b, Value) == SumOf(cs, Amount)
  {
    var ks := DistinctKeys(cs, key);
    EntriesTotal(ks, cs, key);
    GroupTotal(cs, key, Amount);
  }

  /** The per-key reduce of project/src/mockApi.ts:36-40 and 42-46 followed
      by `Object.entries(acc).map(...)`: the accumulator dictionary is
      updated in place, and its keys are listed in insertion order. */
  method TallyByKey(cs: seq<Contract>, key: Contract -> string) returns (entries: seq<NamedValue>)
    ensures entries == Breakdown(cs, key)
  {
    var keys: seq<string> := [];
    var acc: map<string, int> := map[];
    for i := 0 to |cs|
      invariant keys == DistinctKeys(cs[..i], key)
      invariant SumsBy(acc, cs[..i], key, Amount)
    {
      var k := key(cs[i]);
      assert cs[..i + 1] == cs[..i] + [cs[i]];
      DistinctKeysSnoc(cs[..i], cs[i], key);
      AddToSums(acc, cs[..i], cs[i], key, Amount);
      if k !in acc {
        keys := keys + [k];
      }
      acc := AddTo(acc, k, cs[i].amount);
    }
    assert cs[..|cs|] == cs;
    forall j | 0 <= j < |keys| ensures keys[j] in acc {
      var k := keys[j];
      assert k in keys;
    }
    entries := seq(|keys|, j requires 0 <= j < |keys| => NamedValue(keys[j], acc[keys[j]]));
  }

  /** One entry per listed date, with that date's amount sum and count. */
  function DateEntries(ds: seq<int>, cs: seq<Contract>): (r: seq<DateTotal>)
    ensures |r| == |ds|
    ensures forall j :: 0 <= j < |r| ==>
      r[j] == DateTotal(ds[j], SumWhere(cs, DateKey, ds[j], Amount), SumWhere(cs, DateKey, ds[j], One))
  {
    if ds == [] then []
    else
      DateEntries(Init(ds), cs) +
      [DateTotal(Last(ds), SumWhere(cs, DateKey, Last(ds), Amount), SumWhere(cs, DateKey, Last(ds), One))]
  }

  function DateValue(e: DateTotal): int
  {
    e.value
  }

  function DateCount(e: DateTotal): int
  {
    e.count
  }

  function DateBreakdown(cs: seq<Contract>): seq<DateTotal>
  {
    DateEntries(DistinctKeys(cs, DateKey), cs)
  }

  lemma {:induction false} DateEntriesTotals(ds: seq<int>, cs: seq<Contract>)
    ensures SumOf(DateEntries(ds, cs), DateValue) == KeysTotal(ds, cs, DateKey, Amount)
    ensures SumOf(DateEntries(ds, cs), DateCount) == KeysTotal(ds, cs, DateKey, One)
  {
    if ds != [] {
      DateEntriesTotals(Init(ds), cs);
      var e := DateTotal(Last(ds), SumWhere(cs, DateKey, Last(ds), Amount), SumWhere(cs, DateKey, Last(ds), One));
      SnocInit(DateEntries(Init(ds), cs), e);
    }
  }

  /** contractsByDate has one entry per distinct date; its values add up to
      the total amount and its counts to the number of contracts. */
  lemma DateBreakdownFacts(cs: seq<Contract>)
    ensures var b := DateBreakdown(cs);
      && (forall i, j :: 0 <= i < j < |b| ==> b[i].date != b[j].date)
      && SumOf(b, DateValue) == SumOf(cs, Amount)
      && SumOf(b, DateCount) == |cs|
  {
    var ds := DistinctKeys(cs, DateKey);
    DateEntriesTotals(ds, cs);
    GroupTotal(cs, DateKey, Amount);
    GroupTotal(cs, DateKey, One);
    SumOneIsLength(cs);
  }

  /** The `{ value, count }` record of date d after the contracts p. */
  function DateTally(p: seq<Contract>, d: int): (int, int)
  {
    (SumWhere(p, DateKey, d, Amount), SumWhere(p, DateKey, d, One))
  }

  /** One more contract adds its amount and one to the record of its own
      date and leaves every other date's record alone. */
  lemma DateTallySnoc(p: seq<Contract>, x: Contract)
    ensures DateTally(p + [x], x.date) == (DateTally(p, x.date).0 + x.amount, DateTally(p, x.date).1 + 1)
    ensures forall d :: d != x.date ==> DateTally(p + [x], d) == DateTally(p, d)
  {
    SumWhereSnoc(p, x, DateKey, x.date, Amount);
    SumWhereSnoc(p, x, DateKey, x.date, One);
    forall d | d != x.date ensures DateTally(p + [x], d) == DateTally(p, d) {
      SumWhereSnoc(p, x, DateKey, d, Amount);
      SumWhereSnoc(p, x, DateKey, d, One);
    }
  }

  /** The reduce callback of project/src/mockApi.ts:51-58: create the
      record `{ value: 0, count: 0 }` of the contract's date on first sight,
      then add the amount to its value and one to its count. */
  function Bump(acc: map<int, (int, int)>, x: Contract): map<int, (int, int)>
  {
    var (value, count) := if x.date in acc then acc[x.date] else (0, 0);
    acc[x.date := (value + x.amount, count + 1)]
  }

  /** acc holds exactly the dates of p, each with its amount sum and count. */
  ghost predicate Tallies(acc: map<int, (int, int)>, p: seq<Contract>)
  {
    (forall d :: d in acc <==> d in DistinctKeys(p, DateKey)) &&
    (forall d :: d in acc ==> acc[d] == DateTally(p, d))
  }

  /** The dictionary that tallies the contracts p, bumped with x, tallies
      p + [x]. */
  lemma BumpTallies(acc: map<int, (int, int)>, p: seq<Contract>, x: Contract)
    requires Tallies(acc, p)
    ensures Tallies(Bump(acc, x), p + [x])
  {
    var b := Bump(acc, x);
    var ks := DistinctKeys(p, DateKey);
    DistinctKeysSnoc(p, x, DateKey);
    DateTallySnoc(p, x);
    if x.date !in acc {
      SumWhereAbsent(p, DateKey, x.date, Amount);
      SumWhereAbsent(p, DateKey, x.date, One);
    }
    assert b.Keys == acc.Keys + {x.date};
    assert b[x.date] == DateTally(p + [x], x.date);
    forall d | d in b && d != x.date ensures b[d] == DateTally(p + [x], d) {
      assert b[d] == acc[d];
    }
  }

  /** The reduce of project/src/mockApi.ts:50-59: a `{ value, count }`
      record per date, created on first sight and then incremented; dates
      lists the dictionary's keys in insertion order. */
  method TallyDates(cs: seq<Contract>) returns (dates: seq<int>, acc: map<int, (int, int)>)
    ensures dates == DistinctKeys(cs, DateKey)
    ensures forall d :: d in acc <==> d in dates
    ensures forall d :: d in acc ==> acc[d] == DateTally(cs, d)
  {
    dates := [];
    acc := map[];
    for i := 0 to |cs|
      invariant dates == DistinctKeys(cs[..i], DateKey)
      invariant Tallies(acc, cs[..i])
    {
      var c := cs[i];
      assert cs[..i + 1] == cs[..i] + [c];
      DistinctKeysSnoc(cs[..i], c, DateKey);
      BumpTallies(acc, cs[..i], c);
      if c.date !in acc {
        dates := dates + [c.date];
      }
      acc := Bump(acc, c);
    }
    assert cs[..|cs|] == cs;
  }

  /** contractsByDate: `Object.entries` of the tally, one record per date
      in first-seen order. */
  method TallyByDate(cs: seq<Contract>) returns (entries: seq<DateTotal>)
    ensures entries == DateBreakdown(cs)
  {
    var dates, acc := TallyDates(cs);
    forall j | 0 <= j < |dates| ensures dates[j] in acc {
      var d := dates[j];
      assert d in dates;
      assert d in acc;
    }
    entries := seq(|dates|, j requires 0 <= j < |dates| => DateTotal(dates[j], acc[dates[j]].0, acc[dates[j]].1));
  }

  function LargerValue(): (NamedValue, NamedValue) -> bool
  {
    (a: NamedValue, b: NamedValue) => b.value - a.value <= 0
  }

  function LargerAmount(): (Contract, Contract) -> bool
  {
    (a: Contract, b: Contract) => b.amount - a.amount <= 0
  }

  /** `.sort((a, b) => b.value - a.value).slice(0, 5)` (project/src/mockApi.ts:48-49). */
  function TopFive(entries: seq<NamedValue>): (r: seq<NamedValue>)
    ensures |r| == Min(|entries|, 5)
    ensures forall e :: e in r ==> e in entries
    ensures multiset(r) <= multiset(entries)
  {
    var t := Take(SortBy(entries, LargerValue()), 5);
    TakeMultiset(SortBy(entries, LargerValue()), 5);
    assert forall e :: e in t ==> e in multiset(entries);
    t
  }

  /** topContractors holds contractor sums, largest first, and no left-out
      contractor has a larger sum than a listed one. */
  lemma TopContractorsFacts(cs: seq<Contract>)
    ensures var b := Breakdown(cs, ContractorKey); var t := TopFive(b);
      && |t| == Min(|DistinctKeys(cs, ContractorKey)|, 5)
      && (forall i, j :: 0 <= i < j < |t| ==> t[i].value >= t[j].value)
      && (forall e :: e in t ==> e.value == SumWhere(cs, ContractorKey, e.name, Amount))
      && (forall x, y :: x in b && x !in t && y in t ==> y.value >= x.value)
  {
    var b := Breakdown(cs, ContractorKey);
    var le := LargerValue();
    assert TotalPreorder(le);
    SortBySorted(b, le);
    var t := TopFive(b);
    forall i, j | 0 <= i < j < |t| ensures t[i].value >= t[j].value {
      assert le(t[i], t[j]);
    }
    forall x, y | x in b && x !in t && y in t ensures y.value >= x.value {
      TakeSortedDominates(b, le, 5, x, y);
    }
  }

  function Summary(c: Contract): ContractSummary
  {
    ContractSummary(c.date, c.agency, c.contractor, c.amount, c.description)
  }

  /** recentLargeContracts: the two largest contracts of the amount-sorted
      list, as summaries, in non-increasing amount order; no other contract
      is larger. */
  lemma RecentLargeFacts(cs: seq<Contract>)
    ensures var t := Take(SortBy(cs, LargerAmount()), 2);
      && |t| == (if |cs| < 2 then |cs| else 2)
      && (forall i, j :: 0 <= i < j < |t| ==> t[i].amount >= t[j].amount)
      && (forall x, y :: x in cs && x !in t && y in t ==> y.amount >= x.amount)
  {
    var le := LargerAmount();
    assert TotalPreorder(le);
    SortBySorted(cs, le);
    var t := Take(SortBy(cs, le), 2);
    forall i, j | 0 <= i < j < |t| ensures t[i].amount >= t[j].amount {
      assert le(t[i], t[j]);
    }
    forall x, y | x in cs && x !in t && y in t ensures y.amount >= x.amount {
      TakeSortedDominates(cs, le, 2, x, y);
    }
  }

  /** The module state of project/src/mockApi.ts: the shared `mockContracts`
      array, which the analytics initialiser sorts in place, and the
      analytics record computed once while the module loads. */
  /** The analytics of project/src/mockApi.ts:25-70, computed in field
      order; the last field sorts the shared array by amount, largest first,
      so the stored list comes back sorted as well. */
  method Analyze(loaded: seq<Contract>) returns (sorted: seq<Contract>, a: Analytics)
    ensures sorted == SortBy(loaded, LargerAmount())
    ensures a.totalValue == SumOf(loaded, Amount)
    ensures a.agencyBreakdown == Breakdown(loaded, AgencyKey)
    ensures a.topContractors == TopFive(Breakdown(loaded, ContractorKey))
    ensures a.contractsByDate == DateBreakdown(loaded)
    ensures |a.recentLargeContracts| == |Take(sorted, 2)|
    ensures forall i :: 0 <= i < |a.recentLargeContracts| ==> a.recentLargeContracts[i] == Summary(sorted[i])
  {
    var total := SumOf(loaded, Amount);
    var byAgency := TallyByKey(loaded, AgencyKey);
    var byContractor := TallyByKey(loaded, ContractorKey);
    var byDate := TallyByDate(loaded);
    sorted := SortBy(loaded, LargerAmount());
    var top := Take(sorted, 2);
    a := Analytics(total, byAgency, TopFive(byContractor), byDate,
      seq(|top|, i requires 0 <= i < |top| => Summary(top[i])));
  }

  class MockData {
    var contracts: seq<Contract>
    var analytics: Analytics

    /** Module initialisation, project/src/mockApi.ts:25-70: load the
        records, then compute the analytics. */
    constructor (raw: seq<RawContract>)
      requires Loadable(raw)
      ensures contracts == SortBy(LoadContracts(raw), LargerAmount())
      ensures var loaded := LoadContracts(raw);
        && analytics.totalValue == SumOf(loaded, Amount)
        && analytics.agencyBreakdown == Breakdown(loaded, AgencyKey)
        && analytics.topContractors == TopFive(Breakdown(loaded, ContractorKey))
        && analytics.contractsByDate == DateBreakdown(loaded)
        && |analytics.recentLargeContracts| == |Take(contracts, 2)|
        && forall i :: 0 <= i < |analytics.recentLargeContracts| ==>
             analytics.recentLargeContracts[i] == Summary(contracts[i])
    {
      var loaded := LoadContracts(raw);
      var sorted, a := Analyze(loaded);
      contracts := sorted;
      analytics := a;
    }

    /** `contracts.getContracts(params)`: project/src/mockApi.ts:123-194. It
        filters a copy of the stored list, so the list is not changed. */
    method GetContracts(p: ContractParams) returns (r: Result<Page>)
      ensures r.Ok? <==> ParseSortKey(TsMock, p.sort) != Unknown || |Selected(contracts, p)| < 2
      ensures r.Err? ==> r.message == UndefinedLocaleCompare
      ensures r.Ok? ==> r.value.pagination.total == |Selected(contracts, p)|
      ensures r.Ok? ==> forall c :: c in r.value.contracts ==> c in contracts && Matches(p, c)
      ensures r.Ok? ==> (r.value.contracts, r.value.pagination) == Paginate(Ordered(contracts, p, TsMock), p.page, p.limit)
    {
      r := FilterContracts(contracts, p, TsMock);
    }
  }
}
