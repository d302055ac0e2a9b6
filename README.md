# Wire84 contract dashboard: a Dafny model of its data core

Wire84 is a defense-contract intelligence dashboard. It has no real
server. Two mock back-ends answer the pages' queries from in-memory lists:
`project/mockApi.js` and the TypeScript `project/src/mockApi.ts`. A few
pages do their own aggregation over fetched or static data. This project
models that data core in Dafny and proves what it computes.

- **Contract query** (`ContractQuery`, `Js`). A chain of optional filters
  over the contract list: agency, case-insensitive search, amount bounds,
  date bounds. Then a keyed sort with an `order` flag, then `page`/`limit`
  pagination. `Js` holds the JavaScript semantics this relies on: falsy
  parameters, `toLowerCase`, `includes`, `localeCompare`, `slice`,
  `Math.ceil` and `parseInt(x) || d`.
- **JavaScript mock back-end** (`MockBackend`). The shipped contractor and
  agency lists and the contractor list query. The agency sort. The
  case-insensitive contractor and agency lookups with their derived lists
  (newest contracts, agency distribution, top contractors). The alert
  settings of the mock user and their merge.
- **TypeScript mock back-end** (`TsBackend`). `parseCurrency`, and loading
  the dataset with unpriced rows dropped. The analytics record built by
  reduces over accumulator dictionaries. The in-place sort of the shared
  contract list by amount. `getContracts`.
- **Defense analytics** (`DefenseAnalytics`). The helpers of
  `project/src/lib/defenseAnalytics.ts` over the static industry record,
  which the model encodes as the constant `Data`.
- **Insider trades** (`InsiderTrades`). The S&P 500 feed: gathered for the
  first five symbols, then sorted newest first. The one-pass aggregation:
  buy and sell totals, per-ticker counts, the largest transaction, the most
  active ticker, and the seven-day trend. The validation of a single
  ticker's response. The page state is a class.
- **Hedge-fund table** (`HedgeFund`). The top-ten chart selection, the
  table comparator that puts nulls last, and the sort-direction toggle.
- **Dashboard series** (`Dashboard`). The reduce that groups contracts by
  their formatted date, in first-occurrence order, and sums their amounts.

`Seqs` holds the shared sequence vocabulary:
- filters and sums;
- distinct keys in first-occurrence order, which is how the model reads
  `Object.entries` of a reduce dictionary;
- a stable insertion sort `SortBy`, which stands for
  `Array.prototype.sort`.

JavaScript's sort is stable. So under a consistent comparator its result
is the one `SortBy` gives.

Modelling conventions:
- Dates are `YYYYMMDD` integers. Their order is the order of the ISO
  strings.
- Contract amounts are integers.
- The defense record and the hedge-fund figures are exact reals.
- `localeCompare` compares strings by Unicode code point, one character at a
  time.
- `toLowerCase` lowercases ASCII letters.
- A thrown error is `Err(message)`.
- A parameter that JavaScript treats as falsy is `Unset`. A truthy one
  that parses to NaN or an Invalid Date is `Unparsable`, and every
  comparison against it is false.

## Model

| member | source | states |
|---|---|---|
| Js.Lower | project/mockApi.js:250 | lowercasing keeps the length, maps each ASCII upper-case letter to its lower-case letter (code + 32), and keeps every other character |
| Js.LowerIdempotent | project/mockApi.js:250-253 | lowercasing twice is lowercasing once |
| Js.IncludesAt | project/mockApi.js:252-253 | a string contains every substring found at some position |
| Js.IncludesSomewhere | project/mockApi.js:252-253 | conversely, a contained substring is found at some position |
| Js.LocaleCompare | project/mockApi.js:288 | the comparison answers -1, 0 or 1 |
| Js.LocaleCompareAntisymmetric | project/mockApi.js:288 | swapping the operands negates the comparison |
| Js.LocaleCompareZero | project/mockApi.js:288 | the comparison is 0 exactly for equal strings |
| Js.LocaleCompareTransitive | project/mockApi.js:288 | "not after" is transitive |
| Js.RelativeIndex | project/mockApi.js:300 | a slice index is clamped to the length, and a negative index counts from the end |
| Js.JsSlice | project/mockApi.js:300 | a slice is no longer than the list and draws only from it |
| Js.SliceWindow | project/mockApi.js:300 | from a non-negative start, `slice(start, start + n)` is the window cut at the end: at most n elements, empty past the end |
| Js.SlicePrefix | project/src/lib/defenseAnalytics.ts:39 | `slice(0, n)` is the first n elements |
| Js.OrDefault | project/mockApi.js:293-294 | `parseInt(x) \|\| d` is x unless x is NaN or 0, else d |
| Js.CeilDivBounds | project/mockApi.js:296 | `Math.ceil(total / limit)` is the least page count that covers total for a positive limit |
| Js.Times | project/mockApi.js:297 | the skip product of non-negatives is non-negative |
| Js.TimesIsProduct | project/mockApi.js:297 | the skip is `(page - 1) * limit` |
| Js.Paginate | project/mockApi.js:292-307 | total is the list length; page and limit default to 1 and 20; pages is the ceiling quotient; the page draws from the list |
| Js.PageWindow | project/mockApi.js:297-300 | for a positive page and limit, the page is the window starting at `(page - 1) * limit`, at most limit long |
| Js.PagesPrefix | project/mockApi.js:297-300 | pages 1..n laid end to end are the first n·limit elements |
| Js.PagesCoverAll | project/mockApi.js:296-300 | the pages 1..pages together are the whole list |
| ContractQuery.TextCompareFacts | project/mockApi.js:288 | each text comparator is antisymmetric and transitive |
| ContractQuery.BeforeIsTotalPreorder | project/mockApi.js:282-290 | for every known sort key the comparator is a total preorder, so the sort is well defined |
| ContractQuery.Selected | project/mockApi.js:241-276 | a contract is selected exactly when it is stored and passes each supplied filter; each selected contract occurs as often as in the store, and the selection lists the matching positions of the store in increasing order |
| ContractQuery.OrderedIsPermutation | project/mockApi.js:279-290 | sorting neither adds nor drops a contract |
| ContractQuery.OrderedPair | project/mockApi.js:279-290 | under a known sort key any two listed contracts are in comparator order |
| ContractQuery.OrderedDirection | project/mockApi.js:279-290 | 'asc' puts date and amount in non-increasing order and any other order in non-decreasing order; for text keys 'asc' is ascending |
| ContractQuery.FilterChain | project/mockApi.js:244-276 | the six filters in turn equal the single conjunctive filter |
| ContractQuery.ApplyFilters | project/mockApi.js:241-276 | the filter stage applies exactly the truthy filters and returns the selected contracts |
| ContractQuery.FilterContracts | project/mockApi.js:240-308 | fails with the undefined-localeCompare error exactly when the key is unknown and two or more contracts remain; otherwise total is the selected count, every returned contract passes the filters, and the page is the pagination of the sorted selection |
| MockBackend.ContractorBeforeIsTotalPreorder | project/mockApi.js:433-439 | the contractor comparator is a total preorder for the numeric, string and date keys |
| MockBackend.SelectedContractors | project/mockApi.js:412-427 | a contractor is kept exactly when its name contains the lowercased search and its contract count reaches the minimum; kept contractors keep their multiplicity and their order in the list |
| MockBackend.ContractorsDirection | project/mockApi.js:430-439 | the contractor list is ordered by the requested key, with 'asc' giving largest first for numbers |
| MockBackend.ContractorBeforeMeans | project/mockApi.js:433-439 | what "may stay before" means for each contractor key and order |
| MockBackend.FilterContractorList | project/mockApi.js:412-427 | the filter stage returns the selected contractors |
| MockBackend.GetContractors | project/mockApi.js:408-457 | fails exactly when the key cannot be compared and two or more remain, with the matching TypeError; otherwise total, filter membership and the pagination of the sorted list |
| MockBackend.AgencyBeforeIsTotalPreorder | project/mockApi.js:506-512 | the agency comparator is a total preorder for every stored key |
| MockBackend.GetAgencies | project/mockApi.js:498-515 | fails exactly when the key is missing and two or more agencies exist; otherwise a permutation of the agencies |
| MockBackend.AgenciesDirection | project/mockApi.js:503-512 | the agency list is ordered by the requested key and order |
| MockBackend.RecentContracts | project/mockApi.js:474-477 | min(5, number of matches) contracts, each stored and matching the test, none more often than among the matches |
| MockBackend.RecentContractsSorted | project/mockApi.js:474-477 | the recent list is newest first |
| MockBackend.RecentContractsDominate | project/mockApi.js:474-477 | no matching contract left out of the recent list is newer than a listed one |
| MockBackend.RecentContractsNewest | project/mockApi.js:474-477 | the recent list has min(5, number of matches) entries, newest first, and no left-out match is newer than a listed one |
| MockBackend.Distribution | project/mockApi.js:483-491 | one share per listed agency, in order; share i sums the amounts and counts the contracts of this contractor with agency i |
| MockBackend.DistributionIsKeysTotal | project/mockApi.js:483-491 | the share values add up to the contractor's amount sums over the listed agencies |
| MockBackend.DistributionTotal | project/mockApi.js:483-491 | with distinct agencies covering all its contracts, the shares add up to the contractor's whole contract value |
| MockBackend.GetContractor | project/mockApi.js:459-493 | not found exactly when no name matches case-insensitively, with message 'Contractor not found'; otherwise the first match, the recent list of its own contracts (min(5, the number of its stored contracts) of them), the fixed history with the 2025 row from the record, and its agency distribution |
| MockBackend.SharesWith | project/mockApi.js:536-546 | exactly the shares of the contractors that list the agency |
| MockBackend.SharesWithLength | project/mockApi.js:536-546 | there is one share per contractor that lists the agency |
| MockBackend.LargerShareIsTotalPreorder | project/mockApi.js:547 | the share comparator is a total preorder |
| MockBackend.TopShares | project/mockApi.js:547-548 | min(5, number of shares) shares, drawn from the input with no share more often than there |
| MockBackend.TopSharesLargest | project/mockApi.js:547-548 | the top list has min(5, number of shares) entries, non-increasing, and no left-out share is larger |
| MockBackend.GetAgency | project/mockApi.js:517-555 | not found exactly when no name matches case-insensitively, with message 'Agency not found'; otherwise the first match, the recent list of its contracts (min(5, the number of its stored contracts) of them), the top shares of the contractors listing it (min(5, their number) of them), and the fixed history |
| MockBackend.AgencyTopContractors | project/mockApi.js:536-548 | the agency's top contractors are non-increasing by value and dominate every left-out listing contractor |
| MockBackend.AgencyRecentContracts | project/mockApi.js:532-535 | the agency's recent contracts are its newest, newest first |
| MockBackend.ContractorRecentContracts | project/mockApi.js:474-477 | the contractor's recent contracts are its newest, newest first |
| MockBackend.AgencyFound | project/mockApi.js:521-527 | when agency i is the first whose lower-cased name equals the lower-cased query, the lookup succeeds with agency i |
| MockBackend.ContractorMissing | project/mockApi.js:463-469 | a name that no contractor's lower-cased name equals is 'Contractor not found' |
| MockBackend.ShippedAgencyLookup | project/mockApi.js:214-223 | on the shipped agencies, 'navy' finds the NAVY record |
| MockBackend.ShippedMissingContractor | project/mockApi.js:170-211 | on the shipped lists, SpaceX holds a contract but is 'Contractor not found' |
| MockBackend.MergeSettings | project/mockApi.js:572-575 | the merge has both key sets; updated keys take the update's value and other keys keep theirs |
| MockBackend.MergeSettingsIdempotent | project/mockApi.js:572-575 | applying the same update twice equals applying it once |
| MockBackend.MockUser.constructor | project/mockApi.js:226-237 | the mock user's initial alert settings |
| MockBackend.MockUser.UpdateAlerts | project/mockApi.js:567-578 | the stored settings become the merge of the old ones with the update, and are returned |
| TsBackend.TrimStart | project/src/mockApi.ts:7 | parseInt's leading-whitespace skip leaves no leading space and changes nothing without one |
| TsBackend.DigitPrefix | project/src/mockApi.ts:7 | the digits parseInt reads are the longest prefix of digits |
| TsBackend.DecimalString | project/src/mockApi.ts:7 | a decimal numeral is a non-empty string of digits |
| TsBackend.DecimalStringValue | project/src/mockApi.ts:7 | a numeral's digit value is the number it writes |
| TsBackend.DigitPrefixOf | project/src/mockApi.ts:7 | parseInt stops at the first non-digit |
| TsBackend.ParseIntDigits | project/src/mockApi.ts:7 | parseInt of digits followed by a non-digit is the digits' value |
| TsBackend.ParseIntMinus | project/src/mockApi.ts:7 | a leading '-' negates what follows |
| TsBackend.ParseIntDecimal | project/src/mockApi.ts:7 | parseInt reads back every decimal numeral, negative ones too |
| TsBackend.ParseCurrencyCases | project/src/mockApi.ts:5-8 | 'N/A' reads as 0; any other value loses exactly its '$' and ',' characters before parseInt |
| TsBackend.StripOne | project/src/mockApi.ts:7 | one character is removed exactly when it is '$' or ',' |
| TsBackend.StripAroundComma | project/src/mockApi.ts:7 | a separating ',' disappears |
| TsBackend.StripDigits | project/src/mockApi.ts:7 | digits are kept |
| TsBackend.StripGroupThousands | project/src/mockApi.ts:7 | a digit string with thousands separators strips back to the digits |
| TsBackend.StripDollar | project/src/mockApi.ts:7 | a leading '$' disappears |
| TsBackend.StripCents | project/src/mockApi.ts:7 | a cents part still starts with '.' after stripping |
| TsBackend.ParseCurrencyFormatted | project/src/mockApi.ts:5-8 | `parseCurrency` reads back every dollar amount written with thousands separators, dropping cents |
| TsBackend.CompletionDate | project/src/mockApi.ts:20 | the date moved to 2027: the year is 2027, month and day are kept, and 29 February becomes 1 March |
| TsBackend.ParseContractData | project/src/mockApi.ts:11-22 | each field of a stored contract comes from its row, the amount is the row's parsed value, and the completion date is the row's day moved to 2027 |
| TsBackend.LoadContracts | project/src/mockApi.ts:25-27 | one stored contract per priced row |
| TsBackend.LoadContractsFacts | project/src/mockApi.ts:25-27 | every stored contract is a parsed row whose value is not 'N/A', and every priced row is stored |
| TsBackend.StoredAmounts | project/src/mockApi.ts:25-27 | every stored amount is parseInt of a priced row's value with '$' and ',' removed |
| TsBackend.Entries | project/src/mockApi.ts:35-40 | one entry per listed key, holding that key's amount sum |
| TsBackend.EntriesTotal | project/src/mockApi.ts:35-40 | the entry values add up to the keys' total |
| TsBackend.Names | project/src/mockApi.ts:40 | the names of a breakdown, in order |
| TsBackend.BreakdownFacts | project/src/mockApi.ts:35-46 | a breakdown lists each distinct key once, in first-occurrence order, with that key's sum, and the values add up to the total amount |
| TsBackend.TallyByKey | project/src/mockApi.ts:35-47 | the per-key reduce and `Object.entries` give the breakdown |
| TsBackend.DateEntries | project/src/mockApi.ts:50-59 | one entry per listed date, with that date's amount sum and count |
| TsBackend.DateEntriesTotals | project/src/mockApi.ts:50-59 | the entries' values and counts add up to the dates' totals |
| TsBackend.DateBreakdownFacts | project/src/mockApi.ts:50-59 | distinct dates; values add up to the total amount and counts to the number of contracts |
| TsBackend.DateTallySnoc | project/src/mockApi.ts:51-58 | one contract adds its amount and 1 to its own date and leaves other dates alone |
| TsBackend.BumpTallies | project/src/mockApi.ts:51-58 | the reduce callback keeps every date's record equal to its tally |
| TsBackend.TallyDates | project/src/mockApi.ts:50-59 | the dictionary holds exactly the dates that occur, each with its value sum and count |
| TsBackend.TallyByDate | project/src/mockApi.ts:50-59 | `contractsByDate` is the date breakdown |
| TsBackend.TopFive | project/src/mockApi.ts:47-49 | min(5, number of entries) entries, drawn from the breakdown with no entry more often than there |
| TsBackend.TopContractorsFacts | project/src/mockApi.ts:41-49 | min(5, number of distinct contractors) entries; the top contractors hold their own sums, largest first, and no left-out contractor has a larger sum |
| TsBackend.RecentLargeFacts | project/src/mockApi.ts:60-62 | the two largest contracts, or all if fewer, in non-increasing order, and no other contract is larger |
| TsBackend.Analyze | project/src/mockApi.ts:33-70 | totalValue is the amount sum; agencyBreakdown, topContractors and contractsByDate are the breakdowns; the list comes back sorted by amount; recentLargeContracts summarises its first two |
| TsBackend.MockData.constructor | project/src/mockApi.ts:25-70 | the shared list is the loaded rows sorted by amount, and the analytics are those of the loaded rows |
| TsBackend.MockData.GetContracts | project/src/mockApi.ts:123-194 | the same outcome, error message, filter membership, total and pagination as the JavaScript query, with `text` also sortable |
| DefenseAnalytics.Divide | project/src/lib/defenseAnalytics.ts:32 | division is the quotient for a non-zero divisor, and a division by zero is NaN exactly when the dividend is 0 |
| DefenseAnalytics.GetContractorValue | project/src/lib/defenseAnalytics.ts:11-16 | the revenue of the first exact name match, or 0 when none matches |
| DefenseAnalytics.GetContractorContracts | project/src/lib/defenseAnalytics.ts:19-23 | exactly the recent contracts of the named contractor, each as often as in the record, in record order |
| DefenseAnalytics.CalculateMarketShare | project/src/lib/defenseAnalytics.ts:26-33 | the contractor's value over the total revenue, times 100; NaN for 0/0 |
| DefenseAnalytics.UnknownMarketShare | project/src/lib/defenseAnalytics.ts:26-33 | an unknown name has market share 0 |
| DefenseAnalytics.ContractorValueOfUnique | project/src/lib/defenseAnalytics.ts:11-16 | a contractor with a unique name gets its own revenue |
| DefenseAnalytics.UniqueNameValue | project/src/lib/defenseAnalytics.ts:11-16 | with distinct names every listed contractor gets its own revenue |
| DefenseAnalytics.ContractorValuesTotal | project/src/lib/defenseAnalytics.ts:26-33 | with distinct names, the looked-up values add up to the total revenue, so the shares add up to 100 |
| DefenseAnalytics.Names | project/src/data/defense_industry_data.ts:13-44 | the contractor names, in order |
| DefenseAnalytics.HeavierIsTotalPreorder | project/src/lib/defenseAnalytics.ts:38 | the descending-weight comparator is a total preorder |
| DefenseAnalytics.TopByFacts | project/src/lib/defenseAnalytics.ts:36-47 | `getTopContractors` and `getLargestContracts` give min(limit, n) entries, in non-increasing order, drawn from the record, and no left-out entry is heavier |
| DefenseAnalytics.FilterWeaker | project/src/lib/defenseAnalytics.ts:51-60 | a stricter filter keeps no more entries |
| DefenseAnalytics.AnalyzeTrends | project/src/lib/defenseAnalytics.ts:50-62 | highImpact is exactly the High and Critical trends in record order; total is the trend count; criticalCount is the number of Critical trends; criticalCount ≤ \|highImpact\| ≤ total |
| DefenseAnalytics.RiskWeight | project/src/lib/defenseAnalytics.ts:67-70 | High weighs 1, Medium 0.6, Low 0.3, any other severity 0 |
| DefenseAnalytics.CalculateRiskScore | project/src/lib/defenseAnalytics.ts:65-74 | NaN for no risks; otherwise exactly the weight sum over the risk count, times 100, which lies in [0, 100] |
| DefenseAnalytics.RiskSumByLevel | project/src/lib/defenseAnalytics.ts:67-71 | the weight sum is the High count plus 0.6 times the Medium count plus 0.3 times the Low count |
| DefenseAnalytics.RiskSumBounds | project/src/lib/defenseAnalytics.ts:69-71 | the weight sum lies between 0 and the number of risks |
| DefenseAnalytics.GetBudgetAllocation | project/src/lib/defenseAnalytics.ts:82-91 | one allocation per budget category, in order, with its value and its share of the total as a percentage |
| DefenseAnalytics.GetRegulatoryImpact | project/src/lib/defenseAnalytics.ts:94-99 | one count per distinct impact label, each the number of entries with that label |
| DefenseAnalytics.MapTotalIsKeysTotal | project/src/lib/defenseAnalytics.ts:94-99 | the counts of a dictionary that tallies the labels sum to the labels' total |
| DefenseAnalytics.RegulatoryCountsTotal | project/src/lib/defenseAnalytics.ts:94-99 | the label counts add up to the number of regulatory entries |
| DefenseAnalytics.CalculateContractorDiversity | project/src/lib/defenseAnalytics.ts:102-109 | 0 for an unknown name, else 100 times the specialty count of the first match over 5; in [0, 100] when no contractor lists more than five |
| DefenseAnalytics.GetSupplyChainRisk | project/src/lib/defenseAnalytics.ts:112-122 | the counts of all and of High issues; 'High' exactly when more than one issue is High, else 'Moderate' |
| DefenseAnalytics.ShippedContractorValue | project/src/data/defense_industry_data.ts:13-44 | on the shipped record Lockheed Martin's value is 72.5 and an unlisted name gets 0 |
| DefenseAnalytics.ShippedDiversity | project/src/data/defense_industry_data.ts:13-44 | on the shipped record Boeing's diversity is 40 |
| DefenseAnalytics.ShippedSupplyChain | project/src/data/defense_industry_data.ts:140-151 | on the shipped record one of two supply-chain issues is High, so the level is 'Moderate' |
| InsiderTrades.GatheredStep | project/src/pages/InsiderTradesPage.tsx:79-91 | each symbol appends the rows of its response, when they are an array |
| InsiderTrades.FeedNewestFirst | project/src/pages/InsiderTradesPage.tsx:94-96 | the sorted feed is a permutation of the gathered rows with non-increasing dates |
| InsiderTrades.CollectFeed | project/src/pages/InsiderTradesPage.tsx:76-96 | the feed is the rows of the first five symbols, sorted newest first |
| InsiderTrades.TotalsSnoc | project/src/pages/InsiderTradesPage.tsx:119-124 | each transaction adds its value to the buy total if its flag is 'A' and to the sell total otherwise |
| InsiderTrades.TotalsPartition | project/src/pages/InsiderTradesPage.tsx:119-124 | the buy and sell totals add up to the total value |
| InsiderTrades.BuyTotalFiltered | project/src/pages/InsiderTradesPage.tsx:120-121 | the buy total is the value of the 'A' transactions |
| InsiderTrades.SellTotalFiltered | project/src/pages/InsiderTradesPage.tsx:122-123 | the sell total is the value of all the other transactions |
| InsiderTrades.LargestSnoc | project/src/pages/InsiderTradesPage.tsx:128-132 | the largest is replaced only by a strictly larger value |
| InsiderTrades.LargestIsFirstMaximum | project/src/pages/InsiderTradesPage.tsx:111-132 | there is no largest exactly for no transactions; otherwise it is the first transaction of maximal value |
| InsiderTrades.CountEntries | project/src/pages/InsiderTradesPage.tsx:126-140 | one entry per listed ticker, holding its count |
| InsiderTrades.CountEntriesTotal | project/src/pages/InsiderTradesPage.tsx:126 | the entries' counts add up to the tickers' total |
| InsiderTrades.TickerCountsTotal | project/src/pages/InsiderTradesPage.tsx:117-126 | the per-ticker counts add up to the number of transactions |
| InsiderTrades.OccurringTickerCounted | project/src/pages/InsiderTradesPage.tsx:126 | a ticker that occurs has a count of at least 1 |
| InsiderTrades.NoNegativeCount | project/src/pages/InsiderTradesPage.tsx:126 | no count is negative |
| InsiderTrades.MostActiveIsFirstMaximum | project/src/pages/InsiderTradesPage.tsx:136-140 | the reduce gives ('', 0) when every count is 0, and otherwise the first entry with the maximal count |
| InsiderTrades.MostActiveTicker | project/src/pages/InsiderTradesPage.tsx:136-140 | no transactions give ('', 0); otherwise an occurring ticker with its true count, no smaller than any ticker's count, and the first such |
| InsiderTrades.TickerEntry | project/src/pages/InsiderTradesPage.tsx:126-140 | every transaction's ticker has an entry, with a count of at least 1 |
| InsiderTrades.DaysInMonth | project/src/pages/InsiderTradesPage.tsx:145 | a month has 28 to 31 days |
| InsiderTrades.YmdParts | project/src/pages/InsiderTradesPage.tsx:146 | year, month and day read back from a date |
| InsiderTrades.DateParts | project/src/pages/InsiderTradesPage.tsx:146 | a valid date is made of its parts |
| InsiderTrades.PrevInMonth | project/src/pages/InsiderTradesPage.tsx:145 | stepping back within a month gives an earlier valid date of the same year |
| InsiderTrades.PrevAcrossMonth | project/src/pages/InsiderTradesPage.tsx:145 | stepping back from the 1st gives the previous month's last day |
| InsiderTrades.PrevAcrossYear | project/src/pages/InsiderTradesPage.tsx:145 | stepping back from 1 January gives 31 December of the year before |
| InsiderTrades.PrevDayValid | project/src/pages/InsiderTradesPage.tsx:145 | the day before a valid date is a valid, earlier date at most a year back |
| InsiderTrades.DaysBeforeValid | project/src/pages/InsiderTradesPage.tsx:143-147 | n days back is a valid date, earlier than every fewer-days-back date |
| InsiderTrades.Last7Days | project/src/pages/InsiderTradesPage.tsx:143-147 | the list has seven days |
| InsiderTrades.Last7DaysDecreasing | project/src/pages/InsiderTradesPage.tsx:143-147 | they start today, go back one day at a time, and are valid and strictly decreasing |
| InsiderTrades.RecentTrends | project/src/pages/InsiderTradesPage.tsx:149-157 | the trend has seven entries |
| InsiderTrades.RecentTrendsCounts | project/src/pages/InsiderTradesPage.tsx:143-157 | entry i is for the day i days back; buyCount is the number of 'A' and sellCount the number of 'D' transactions of that day; together they are at most that day's transactions |
| InsiderTrades.Scan | project/src/pages/InsiderTradesPage.tsx:117-133 | the loop computes the buy and sell totals, the ticker dictionary with its counts in insertion order, and the largest transaction |
| InsiderTrades.CalculateAggregatedData | project/src/pages/InsiderTradesPage.tsx:107-160 | the aggregated record of the transactions |
| InsiderTrades.Validate | project/src/pages/InsiderTradesPage.tsx:172-180 | a response succeeds exactly when it has no error and an array of rows; an error fails with its message, and a missing array with 'Invalid data format received' |
| InsiderTrades.TradesPage.constructor | project/src/pages/InsiderTradesPage.tsx:60-66 | the page's initial state |
| InsiderTrades.TradesPage.FetchSP500Feed | project/src/pages/InsiderTradesPage.tsx:72-105 | the feed is the sorted rows of the first five symbols, the aggregate is computed from it, loading ends, and the search state is unchanged |
| InsiderTrades.TradesPage.FetchInsiderTrades | project/src/pages/InsiderTradesPage.tsx:162-187 | success stores the rows and clears the error; failure stores no rows and the message; loading ends, and the feed state is unchanged |
| HedgeFund.FirstTenIsTakeThenFilter | project/src/pages/HedgeFundDashboard.tsx:72 | the index filter is the non-null filter over the first ten |
| HedgeFund.TopManagersShape | project/src/pages/HedgeFundDashboard.tsx:70-72 | at most ten managers, none null in the viewed field, each among the first ten of the descending sort |
| HedgeFund.TopManagersOrdered | project/src/pages/HedgeFundDashboard.tsx:70-72 | the chart is in non-increasing order of the viewed field |
| HedgeFund.TopManagersDominate | project/src/pages/HedgeFundDashboard.tsx:70-72 | no manager outside the first ten has a larger viewed value than a charted one |
| HedgeFund.NullRowsLast | project/src/pages/HedgeFundDashboard.tsx:76-77 | a row with a null cell goes after any row, and a non-null row goes before it |
| HedgeFund.NullsLast | project/src/pages/HedgeFundDashboard.tsx:75-84 | a null cell compares as 1; a non-null cell against a null one as -1 and back as 1; the comparator never answers 0 |
| HedgeFund.TableOrder | project/src/pages/HedgeFundDashboard.tsx:79-83 | between non-null cells, 'asc' answers -1 exactly when a < b, 'desc' exactly when a > b, and 1 otherwise |
| HedgeFund.EqualCellsBothAfter | project/src/pages/HedgeFundDashboard.tsx:79-83 | equal non-null cells compare as 1, so the comparator is not antisymmetric |
| HedgeFund.DistinctNumbersOpposite | project/src/pages/HedgeFundDashboard.tsx:79-83 | distinct numbers compare in opposite ways |
| HedgeFund.SortConfig.constructor | project/src/pages/HedgeFundDashboard.tsx:64 | the table starts sorted by rank, ascending |
| HedgeFund.SortConfig.RequestSort | project/src/pages/HedgeFundDashboard.tsx:87-93 | the key becomes the requested one; the direction becomes 'desc' exactly when that key was already ascending |
| HedgeFund.NextSortFacts | project/src/pages/HedgeFundDashboard.tsx:87-93 | the toggle gives the requested key, and 'desc' exactly for a repeat of an ascending key |
| HedgeFund.RequestTwice | project/src/pages/HedgeFundDashboard.tsx:87-93 | requesting an ascending key twice returns to ascending |
| Dashboard.Points | project/src/pages/DashboardPage.tsx:120-129 | one point per listed label, holding its amount sum |
| Dashboard.Find | project/src/pages/DashboardPage.tsx:122 | the search finds the first point with the date, or none |
| Dashboard.GroupedAdd | project/src/pages/DashboardPage.tsx:123-124 | adding to an existing point keeps the series grouped |
| Dashboard.GroupedPush | project/src/pages/DashboardPage.tsx:125-126 | pushing a new label's point keeps the series grouped |
| Dashboard.ContractValueByDate | project/src/pages/DashboardPage.tsx:120-129 | the reduce gives one point per label, in first-occurrence order, each holding its amount sum |
| Dashboard.ValueByDateDistinct | project/src/pages/DashboardPage.tsx:122-127 | the labels are pairwise distinct, and each value is the amount sum of exactly the contracts with that label |
| Dashboard.PointLabelsOccur | project/src/pages/DashboardPage.tsx:121-126 | every point's label is some contract's label |
| Dashboard.ContractLabelsCharted | project/src/pages/DashboardPage.tsx:121-126 | every contract's label has a point |
| Dashboard.PointsTotal | project/src/pages/DashboardPage.tsx:120-129 | the point values add up to the labels' total |
| Dashboard.ValueByDateTotal | project/src/pages/DashboardPage.tsx:120-129 | the point values add up to the total amount |
| Dashboard.ValueByDateOrder | project/src/pages/DashboardPage.tsx:122-127 | points come in order of their labels' first occurrence |
| Dashboard.ValueByDateEmpty | project/src/pages/DashboardPage.tsx:120-129 | no contracts give no points |

## Left out

- Network and I/O are not modelled. This covers the `fetch` calls of the insider page, axios and the five-minute refresh in the dashboard page, and the API-key lookup. A response is a parameter: `fetch` is a function from symbol to payload.
- The simulated latency (`setTimeout` in both mock APIs and the one-second pause between feed requests) is a no-op. `async`/`await` is sequential code.
- The auth stubs of both mock APIs always succeed, carry no logic, and are not modelled.
- `getContract`, `getTrending`, `getAnalytics`, `getNews`, `getAlerts` and `getAlertMatches` are not modelled. They return a fixed value or a find over the same list; the core here is the query, the lookups and the merge.
- No request throttler and no TTL cache exist in this code, so none is modelled.
- `formatCurrency` (numeral formatting) and all display formatting are not modelled.
- `getGrowthOpportunities` is not modelled. It reads `outlook.winners`, which the industry record does not have, so it throws.
- The JSON dataset of the TypeScript back-end is not part of this model. It is the constructor's input `raw`.
- TsBackend.MockData.constructor: requires `Loadable(raw)`, so every priced row parses. A row whose value parses to NaN would need a NaN amount, which the integer amounts do not model.
- TsBackend.LoadContracts: requires `Loadable(raw)`, for the same reason.
- TsBackend.ParseContractData: requires that the value parses, for the same reason.
- `parseInt` with a hexadecimal or other radix prefix is not modelled. Only decimal digits are read.
- `toLowerCase` lowercases ASCII letters only. Non-ASCII case mapping and non-ASCII whitespace in `parseInt` are not modelled.
- `localeCompare` and the hedge-fund table's `<` on strings are both the code-point order. `localeCompare` is really a locale collation, which is not modelled. `<` compares UTF-16 code units, which differs from code-point order only when a character outside the Basic Multilingual Plane (a surrogate pair) meets one in U+E000–U+FFFF; that case is not modelled.
- Doubles are exact reals or integers, so rounding is not modelled. This covers the defense record, the hedge-fund figures and the insider `shares * share_price`.
- The insider value `parseFloat(shares) * parseFloat(share_price)` is one integer per transaction. A NaN product is not modelled.
- Dates are `YYYYMMDD` integers, not `Date` objects. An invalid date string in the feed sort (a NaN comparison) is not modelled.
- `new Date()` for the seven-day trend is the parameter `today`, taken as the UTC date. The model assumes that stepping back a day and `toISOString` agree, which holds for a constant timezone offset, and that years lie in 1..9999.
- `completionDate` (`setFullYear(2027)`) is computed on the day number. `new Date('YYYY-MM-DD')` is UTC midnight, `setFullYear` keeps the local wall-clock time, and `toISOString` reads the UTC day back. So the model matches the code only where that UTC midnight falls on the same local calendar day (a zone at or east of UTC) and the zone's offset is the same on the source date and on its 2027 counterpart (no daylight-saving change between them). Otherwise the day can move: at UTC−5, '2024-03-01' becomes 2 March 2027; in Europe/London, '2025-03-30' (GMT at that midnight, BST on 30 March 2027) becomes 29 March 2027.
- The dashboard's `format(new Date(date), 'MMM dd')` is the uninterpreted parameter `fmt`.
- Keys that are `Object.prototype` member names are not modelled. With a ticker or label such as "constructor", `acc[key] \|\| 0` reads an inherited function. The risk-weight lookup is affected the same way.
- `Object.entries` order is insertion order. JavaScript lists integer-like keys first, and the model does not capture that; the tickers and agencies here are not integer-like.
- InsiderTrades.Validate: an `error` field that is a truthy non-string (an object, whose message becomes "[object Object]") is not modelled. `error` is absent or a string.
- HedgeFund table sort: the comparator answers 1 for equal cells, so it is not consistent, and `Array.prototype.sort`'s result under it is implementation-defined. The model states the comparator's properties, not a sorted table.
- HedgeFund table keys: the table headers derive keys such as 'earnings ($b)' that name no field. This is a display quirk; such a key reads as `Undefined` under `CellOf`. The `keyHoldings` array column is not a sortable cell.
- HedgeFund dataset: it is a parameter. Both sorts copy it, and here every list is a value, so "`data` is unchanged" holds by construction and is not a separate statement.
- Dashboard.ContractValueByDate: `existing.value +=` updates an object that `acc` shares. The model replaces the point in the sequence, so aliasing of that object is not captured.
- MockBackend.MergeSettings: a setting value is a name list, a number or a flag, the kinds the stored settings have. An update carrying any other JSON value is not representable.
- InsiderTrades.TradesPage.FetchSP500Feed: a rejected key lookup, `fetch` or `json()` (the catch at project/src/pages/InsiderTradesPage.tsx:100-104) is not modelled. There the feed and the aggregate would keep their old values.
- InsiderTrades.TradesPage.FetchInsiderTrades: a rejected key lookup, `fetch` or `json()` reaching the catch at project/src/pages/InsiderTradesPage.tsx:181-183 is not modelled. Only the two errors the body throws itself are.
- Rendering, charts, routing and the page effects are presentation only and are not modelled.
- DefenseAnalytics.ContractorValuesTotal: states that the looked-up values add up to the total revenue. The claim that the percentages add up to 100 follows by real arithmetic and is not a separate lemma.
