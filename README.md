# Fraud-Detection dashboard core, modelled in Dafny

This project models the deterministic core of the Fraud-Detection dashboard. The backend scores
bank accounts in a Neo4j graph; a Flask API serves the results; a browser dashboard renders them.
The model covers four pieces:

- **The fraud-transaction modal** (`static/js/fraud_transactions.js`, module `FraudTransactions`).
  It covers the conjunctive filter, the single-key sort, the summary statistics, the per-type
  chart grouping, the score tiers and the sort-header click transition. `TransactionsPanel` is a
  class holding the modal's state: the current transactions, header marks, table rows, totals,
  statistics, chart and error alert.
- **The community browser** (`static/js/community_viewer.js`, module `CommunityViewer`).
  It covers the filter over the cached community list, the risk and size tiers, the account
  feature labels, the in-place ranking of a community's internal transactions, the node/link
  projection for the graph, and the currency guard. `CommunityBrowser` is a class holding the
  cache, the rendered cards, the not-found panel and the filter inputs.
- **The metrics panel** (`static/js/fixes.js`, module `MetricsPanel`).
  It covers the guarded text and progress-bar updates and the three outcomes of a metrics fetch.
  `Dashboard` is a class over the page's text slots, bars and error banner.
- **The API's pure routines** (`routes/api.py`, module `Api`).
  These are the zero-guarded precision/recall/F1, the defaulting of `metrics_data`, the
  `size_category`/`risk_level` buckets, and the node/link assembly of `get_network`.

Shared modules:
- `Wrappers` holds `Option`.
- `Seqs` holds filter, subsequence, count, sum and first-seen grouping, with their lemmas.
- `Text` holds the JavaScript string operations used: ASCII `toLowerCase`, `trim`, `includes`,
  `startsWith`/`endsWith`, `split(':')`, and `String(n)` for integers.
- `Sorting` holds `Array.prototype.sort` with a comparator, modelled as an in-place insertion sort.
  It always returns a permutation. It is sorted whenever the comparator is a strict weak order
  on the data.

Scores and amounts are `real`. A JSON field the code defaults with `|| 0`, or that may be absent,
is an `Option`. DOM writes are assignments to class fields.

The code is modelled as written. Where the code and its evident intent differ, the as-written
behaviour is what the classes do. A corrected definition stands beside it, with the intended
property proved (see "## Findings").

## Model

| member | source | states |
|---|---|---|
| FraudTransactions.ScoreClassOf | static/js/fraud_transactions.js:190-193 | `high` iff score > 0.7, `medium` iff 0.5 < score ≤ 0.7, `low` otherwise; a missing score is `low` |
| FraudTransactions.ScoreClassMonotone | static/js/fraud_transactions.js:123-124 | a higher average score never gets a lower tier |
| FraudTransactions.Keep | static/js/fraud_transactions.js:67-82 | the callback keeps a transaction iff it satisfies every active predicate, and throws exactly when a search runs into a missing type |
| FraudTransactions.FilterTransactions | static/js/fraud_transactions.js:67-82 | the result is an ordered subsequence of the input; every kept transaction satisfies all active predicates; every satisfying one is kept; no result iff some transaction makes the callback throw |
| FraudTransactions.NoFiltersKeepsAll | static/js/fraud_transactions.js:62-82 | with the default empty filters every transaction is kept, in order |
| FraudTransactions.ZeroBoundImposesNothing | static/js/fraud_transactions.js:68-70 | a bound of 0 filters exactly like no bound (truthiness test) |
| FraudTransactions.SearchIgnoresQueryCase | static/js/fraud_transactions.js:75-79 | two queries that differ only in letter case keep the same transactions |
| FraudTransactions.Greater | static/js/fraud_transactions.js:106-108 | `a > b` holds only for two different numbers or two different strings; on numbers it is the numeric order; mixed kinds and `undefined` compare false |
| FraudTransactions.SortKey | static/js/fraud_transactions.js:89-104 | amount, average score, timestamp, both scores, `is_fraud` and both communities give numbers, with a null score or community compared as 0; source and target give strings; type gives its string, or `undefined` when absent; any other field is `undefined` |
| FraudTransactions.After | static/js/fraud_transactions.js:106-108 | `x` goes after `y` only when their keys differ and are both defined; on a numeric field the larger key goes later for `asc` and earlier otherwise |
| FraudTransactions.SameKindIsConsistent | static/js/fraud_transactions.js:87-109 | when the sort keys are all numbers, all strings or all undefined, the comparator is a strict weak order in either direction |
| FraudTransactions.NumericFieldsSameKind | static/js/fraud_transactions.js:89-104 | every numeric field (amount, score, timestamp, the two scores, `is_fraud`, the two communities) gives all transactions numeric keys, so it always sorts |
| FraudTransactions.NumericOrder | static/js/fraud_transactions.js:85-109 | after sorting by a numeric field, keys are non-decreasing for `asc` and non-increasing otherwise |
| FraudTransactions.SortTransactions | static/js/fraud_transactions.js:85-110 | the array is permuted in place, and sorted by the comparator whenever the keys are of one kind |
| Sorting.SortInPlace | static/js/fraud_transactions.js:87-109 | `Array.prototype.sort`: a permutation of the array, sorted when the comparator is a strict weak order on it |
| FraudTransactions.ComputeStats | static/js/fraud_transactions.js:196-208 | total is the length; the total amount is the sum of the amounts; the mean score times the count is the sum of the row scores, and 0 for an empty list; the fraud and high-risk counts are at most the total |
| FraudTransactions.MeanOf | static/js/fraud_transactions.js:198-201 | `sum / (total \|\| 1)`: times a non-zero count it gives back the sum; with no values it is the sum itself |
| FraudTransactions.StatsCountsAreFilters | static/js/fraud_transactions.js:203-207 | the confirmed count is the number of `is_fraud` transactions, and the high-risk count the number whose average score exceeds 0.7 |
| FraudTransactions.StatsIgnoreOrder | static/js/fraud_transactions.js:113 | the statistics of the sorted rows equal those of the filtered list |
| FraudTransactions.HighRiskCountsHighRows | static/js/fraud_transactions.js:205-208 | the high-risk count is the number of rows whose tier is `high` |
| FraudTransactions.MeanScoreInUnitInterval | static/js/fraud_transactions.js:199-202 | scores in [0, 1] give a mean score in [0, 1] |
| FraudTransactions.AppendStatsBlock | static/js/fraud_transactions.js:218-230 | a block is appended exactly when there are confirmed or high-risk transactions |
| FraudTransactions.StatsBlocksAccumulate | static/js/fraud_transactions.js:218-230 | rendering twice a list with anything confirmed or high-risk leaves two blocks |
| FraudTransactions.ReplaceStatsBlock | static/js/fraud_transactions.js:218-230 | corrected: at most one block, present iff there is something to report, holding the current counts |
| FraudTransactions.ReplaceStatsBlockIdempotent | static/js/fraud_transactions.js:218-230 | corrected: re-rendering the same statistics changes nothing |
| FraudTransactions.TypeLabel | static/js/fraud_transactions.js:264 | a missing or empty type is grouped as `Khác`, any other type under its own name |
| FraudTransactions.TallyByType | static/js/fraud_transactions.js:263-271 | the reduce's accumulator holds, per type, the count and amount sum of its transactions, with types in first-seen order |
| FraudTransactions.TallyStep | static/js/fraud_transactions.js:264-270 | one reduce step keeps the per-type tallies exact |
| FraudTransactions.Entries | static/js/fraud_transactions.js:273-277 | one chart entry per accumulated type, in order, carrying its count and amount |
| FraudTransactions.ChartCoversTypes | static/js/fraud_transactions.js:263-277 | every transaction's type label appears in the chart |
| FraudTransactions.ChartTotals | static/js/fraud_transactions.js:273-277 | the chart's counts and amounts add up to the per-type totals |
| Seqs.GroupsPartition | static/js/fraud_transactions.js:263-271 | per-key counts over the first-seen keys add up to the length, and the amounts to the total amount |
| FraudTransactions.GroupByType | static/js/fraud_transactions.js:263-277 | the chart has one entry per distinct type with its count and amount; counts sum to the number of transactions and amounts to the total amount |
| FraudTransactions.CurrentSortAsWritten | static/js/fraud_transactions.js:366 | the sort read back is the bare `data-sort` key of the first marked header, or none when no header is marked |
| FraudTransactions.NextSort | static/js/fraud_transactions.js:329-334 | starts with the key and ends with `:asc` gives `key:desc`; starts with the key otherwise gives null; anything else gives `key:asc` |
| FraudTransactions.Remark | static/js/fraud_transactions.js:337-342 | every header loses its mark; the clicked one is marked by the new sort's suffix |
| FraudTransactions.ClickActiveClearsAsWritten | static/js/fraud_transactions.js:325-331 | as written: a click on the marked header always clears the sort |
| FraudTransactions.FirstMarked | static/js/fraud_transactions.js:366 | the first marked header decides the current sort, bare key as written and key with direction when corrected |
| FraudTransactions.NeverDescendingAsWritten | static/js/fraud_transactions.js:323-342 | as written: no click ever marks a header descending |
| FraudTransactions.RerenderSortsDescendingAsWritten | static/js/fraud_transactions.js:354-355 | as written: a re-render with a header marked ascending sorts descending |
| FraudTransactions.CurrentSortIntended | static/js/fraud_transactions.js:366 | corrected: the key with its direction, none iff no header is marked |
| FraudTransactions.IntendedSortMatchesMark | static/js/fraud_transactions.js:86 | corrected: the sort read back splits into the marked key and a direction that is `asc` iff the header is marked ascending |
| FraudTransactions.SplitSuffix | static/js/fraud_transactions.js:86 | `split(':')` of a colon-free key plus `:dir` gives the key and `dir` |
| FraudTransactions.ClickCycleIntended | static/js/fraud_transactions.js:329-342 | corrected: three clicks on a header go ascending, descending, unmarked |
| FraudTransactions.ArrangeRows | static/js/fraud_transactions.js:84-110 | the rows are a permutation of the filtered list; unchanged without a sort; sorted when the keys are of one kind |
| FraudTransactions.OrNull | static/js/fraud_transactions.js:362-364 | `parseFloat(...) \|\| null`: a zero bound becomes none, which filters the same |
| FraudTransactions.CurrentFiltersAsWritten | static/js/fraud_transactions.js:359-367 | the filters read back carry the inputs and the bare header key |
| FraudTransactions.TransactionsPanel.constructor | static/js/fraud_transactions.js:5-6 | the modal starts empty, with no header marked |
| FraudTransactions.TransactionsPanel.Render | static/js/fraud_transactions.js:62-187 | the body is cleared; if the filter throws nothing else changes; otherwise rows, statistics, appended block and total show the filtered and sorted list |
| FraudTransactions.BuildTable | static/js/fraud_transactions.js:62-187 | succeeds exactly when the filter does; the rows are then a permutation of the filtered list, in input order without a sort and sorted by the active sort otherwise; the statistics are those of the filtered list, a block is appended only when something is confirmed or high-risk, and the total shows "filtered of all" when filtering dropped rows |
| FraudTransactions.TransactionsPanel.Load | static/js/fraud_transactions.js:234-296 | an HTTP error or error body shows the alert and leaves the list, rows, statistics, total and chart as they were; a body replaces the current list, renders it and charts the whole list; a throwing render shows the alert, empties the rows and changes no statistics, total or chart |
| FraudTransactions.TransactionsPanel.Show | static/js/fraud_transactions.js:253-280 | store, render, then chart; a throwing render shows the alert, empties the rows, and leaves statistics, blocks, total and chart as they were |
| FraudTransactions.TransactionsPanel.Open | static/js/fraud_transactions.js:371-375 | opening loads all types with no filters: the rows are the whole response |
| FraudTransactions.TransactionsPanel.ChangeType | static/js/fraud_transactions.js:304-306 | the type select reloads with the current filters |
| FraudTransactions.TransactionsPanel.Rerender | static/js/fraud_transactions.js:352-357 | a filter input re-renders the current list with the filters read back |
| FraudTransactions.TransactionsPanel.ClickHeader | static/js/fraud_transactions.js:323-348 | the marks are redrawn from the transition and the table is rendered with the new sort |
| CommunityViewer.RiskTierOf | static/js/community_viewer.js:356-358 | high iff > 0.7, medium iff in (0.5, 0.7], low otherwise; the bounds fall to the lower tier |
| CommunityViewer.BadgeTier | static/js/community_viewer.js:543-559 | the detail badge uses the same tiers, and a missing average is low |
| CommunityViewer.SizeClassOf | static/js/community_viewer.js:361-363 | large iff > 10, medium iff in (3, 10], small otherwise |
| CommunityViewer.SubtitleSize | static/js/community_viewer.js:546 | the subtitle word is one of the three size words |
| CommunityViewer.RiskTierAgreesWithServer | static/js/community_viewer.js:356-358 | the card tier and the server's `risk_level` agree on every score |
| CommunityViewer.SizeClassAgreesWithServer | static/js/community_viewer.js:361-363 | card size class, subtitle word and the server's `size_category` agree on every size |
| CommunityViewer.ApplyFilters | static/js/community_viewer.js:420-440 | the chained filters only drop communities: the result is no longer than the cache and drawn from it |
| CommunityViewer.Matches | static/js/community_viewer.js:423-440 | with every input unset, every community matches; a set size, risk or search input each excludes a community that fails it |
| CommunityViewer.ApplyFiltersIsConjunction | static/js/community_viewer.js:420-440 | the three chained filters are one filter on the conjunction of the enabled predicates |
| CommunityViewer.ApplyFiltersMeaning | static/js/community_viewer.js:420-440 | the result is an ordered subsequence of the cache holding exactly the matching communities |
| CommunityViewer.ResetShowsAll | static/js/community_viewer.js:460-465 | the reset inputs select the whole cache, in order |
| CommunityViewer.BlankSearchIgnored | static/js/community_viewer.js:423-440 | a search of only white space filters like no search |
| CommunityViewer.SearchByWholeId | static/js/community_viewer.js:439 | searching for a community's full decimal id finds it |
| CommunityViewer.CommunityBrowser.Load | static/js/community_viewer.js:306-345 | the container is emptied first; a failure shows only the error and keeps the cache; an empty list shows not-found, no error, and keeps the cache; otherwise the cache is replaced and shown whole, with no error |
| CommunityViewer.CommunityBrowser.Apply | static/js/community_viewer.js:420-452 | the cards are the filtered cache; not-found shows iff there are none; any error shown before is gone |
| CommunityViewer.CommunityBrowser.ChangeFilters | static/js/community_viewer.js:455-457 | a changed input re-applies the filters and clears any error shown |
| CommunityViewer.CommunityBrowser.Reset | static/js/community_viewer.js:460-472 | the inputs return to `all`, `all`, empty; the whole cache is shown; not-found iff the cache is empty; no error remains |
| CommunityViewer.FeatureOf | static/js/community_viewer.js:595-599 | the first that applies of `in_cycle === 1`, \|imbalance\| > 0.5, pagerank > 1.5, else ordinary |
| CommunityViewer.AccountsTableOf | static/js/community_viewer.js:578-615 | a missing or empty list gives one 6-column placeholder; otherwise one row per account with its tier, feature and imbalance alert |
| CommunityViewer.RankAfter | static/js/community_viewer.js:633-640 | a flagged transaction never goes after an unflagged one; within a group, `a` goes after `b` iff its amount is smaller |
| CommunityViewer.RankIsConsistent | static/js/community_viewer.js:633-640 | the ranking comparator is a strict weak order on any list |
| CommunityViewer.RankedOrder | static/js/community_viewer.js:633-640 | after ranking, flagged transactions precede unflagged ones and amounts are non-increasing within each group |
| CommunityViewer.StatusOf | static/js/community_viewer.js:652-657 | Fraud iff both scores > 0.8; Risky iff not that and `high_risk` |
| CommunityViewer.RenderTransactionsList | static/js/community_viewer.js:618-673 | the caller's array is ranked in place; at most ten rows from its front; a footer carrying n − 10 iff n > 10; one 5-column placeholder for a missing or empty list |
| CommunityViewer.UnscoredRankByAmount | static/js/community_viewer.js:633-640 | without endpoint scores no row is Fraud and the order is by amount, descending |
| CommunityViewer.NodeOf | static/js/community_viewer.js:761-768 | a node keeps the account's id and score; pagerank, sent and received counts are the account's value, or 0 when absent; `in_cycle` iff `in_cycle === 1` |
| CommunityViewer.LinkOf | static/js/community_viewer.js:770-774 | a link keeps source, target and amount; `is_fraud` iff the table would badge it Fraud |
| CommunityViewer.ProjectNetwork | static/js/community_viewer.js:744-774 | not enough data iff accounts or transactions are missing or there are no accounts; otherwise nodes and links map one-to-one |
| CommunityViewer.LabelledAccounts | static/js/community_viewer.js:866 | the labelled nodes are, in order, exactly the high-tier or central accounts |
| CommunityViewer.FormatCurrency | static/js/community_viewer.js:913-920 | `N/A` exactly for a missing value; zero is formatted |
| MetricsPanel.Shown | static/js/fixes.js:19 | the value when truthy, else the default |
| MetricsPanel.SetText | static/js/fixes.js:6-24 | a slot with an element gets the content; a missing element changes nothing |
| MetricsPanel.FillMeaning | static/js/fixes.js:113-124 | writing the same word to the summary slots changes exactly those that exist |
| MetricsPanel.RoundTenth | static/js/fixes.js:33 | the result is a whole number of tenths within 0.05 of the input, which fixes it uniquely |
| MetricsPanel.RoundTenthIdempotent | static/js/fixes.js:33 | rounding a rounded value changes nothing |
| MetricsPanel.RoundTenthBounds | static/js/fixes.js:33 | a percentage in [0, 100] rounds into [0, 100] |
| MetricsPanel.BandOf | static/js/fixes.js:42-45 | success iff ≥ 80, info iff in [60, 80), warning iff in [40, 60), danger iff < 40 |
| MetricsPanel.UpdatedBar | static/js/fixes.js:33-45 | width, `aria-valuenow` and text carry the same rounded value; exactly one colour class, chosen from it; other classes kept |
| MetricsPanel.UpdatedBarIdempotent | static/js/fixes.js:33-45 | updating a bar twice with the same value equals updating it once |
| MetricsPanel.FailureMessage | static/js/fixes.js:56-58 | an error message exists iff the fetch or the status failed |
| MetricsPanel.CountText | static/js/fixes.js:65-66 | a missing or zero count shows "0", any other count itself; never falsy |
| MetricsPanel.SuccessTextsMeaning | static/js/fixes.js:63-91 | a usable body never writes the dash or the error word to a summary slot |
| MetricsPanel.SummarySlotOutcome | static/js/fixes.js:110-124 | a summary slot shows the error word iff the fetch failed, and the dash iff the body has no usable data |
| MetricsPanel.TextsAfter | static/js/fixes.js:52-134 | no outcome adds a slot or touches one outside the four summary slots |
| MetricsPanel.BarsAfter | static/js/fixes.js:94-102 | no bar is added; only the three metric bars can change, and only on a usable body |
| MetricsPanel.BarOutcome | static/js/fixes.js:94-102 | a bar changes only on a usable body whose metric for it is defined, and then shows that metric as a percentage |
| MetricsPanel.ClientMetrics | routes/api.py:255-259 | the page sees the accounts, transactions, detected and high-risk counts as sent; precision, recall and F1 are each present exactly when validation produced them, with the computed values |
| MetricsPanel.PayloadBars | static/js/fixes.js:94-102 | fed the server's payload, a bar moves iff the rates were produced, and rates in [0, 1] keep it within 0-100 % |
| MetricsPanel.Dashboard.SafeUpdateText | static/js/fixes.js:15-24 | writes `value \|\| default` to an existing slot; a missing element changes nothing |
| MetricsPanel.Dashboard.SafeUpdateProgressBar | static/js/fixes.js:27-49 | an existing bar becomes the updated bar; a missing one changes nothing |
| MetricsPanel.Dashboard.ApplyResponse | static/js/fixes.js:52-134 | slots and bars follow the outcome; a failure reveals the banner with the message; data hides it; no data leaves it |
| MetricsPanel.Dashboard.FillSummary | static/js/fixes.js:113-116 | the four summary slots get the same word, in order |
| MetricsPanel.Dashboard.ShowFailure | static/js/fixes.js:118-132 | the four slots show the error word and the banner shows the message |
| MetricsPanel.Dashboard.ShowMetrics | static/js/fixes.js:63-109 | counts, fraud summary, bars, and the banner hidden |
| MetricsPanel.Dashboard.WriteCounts | static/js/fixes.js:65-91 | the four summary slots in the page's order |
| MetricsPanel.Dashboard.WriteBars | static/js/fixes.js:94-102 | each bar whose metric is defined, in order |
| MetricsPanel.Dashboard.Refresh | static/js/fixes.js:149-156 | the banner is hidden, then the response applied: it ends visible iff the fetch failed |
| Api.Precision | routes/api.py:229 | 0 without detections; otherwise precision × detected = true positives |
| Api.Recall | routes/api.py:230 | 0 without ground-truth frauds; otherwise recall × ground truth = true positives |
| Api.F1 | routes/api.py:231 | 0 when p + r ≤ 0; otherwise F1 × (p + r) = 2pr |
| Api.RatesOf | routes/api.py:224-231 | the rates carry the record's true positives and ground truth; with non-negative counts, precision, recall and F1 are the zero-guarded ratios of those counts |
| Api.RatesInUnitInterval | routes/api.py:224-231 | with tp ≤ detected and tp ≤ ground truth, precision, recall and F1 all lie in [0, 1] |
| Api.RateBounds | routes/api.py:229-230 | a part over a whole lies in [0, 1] |
| Api.F1Bounds | routes/api.py:231 | F1 lies between the smaller and the larger of p and r |
| Api.F1Closed | routes/api.py:229-231 | with detections and ground truth both present, F1 = 2 tp / (detected + ground truth) |
| Api.Field | routes/api.py:196-208 | a missing record or key reads 0 |
| Api.MetricsData | routes/api.py:196-253 | every summary field is its record's value or 0; no rates iff validation returned no record; a raised validation zeroes the six validation fields; a record gives precision, recall and F1 of its counts |
| Api.PayloadRatesInUnitInterval | routes/api.py:222-231 | consistent validation counts give rates in [0, 1] |
| Api.SizeCategory | routes/api.py:606-610 | small iff ≤ 3, medium iff in (3, 10], large iff > 10 |
| Api.RiskLevel | routes/api.py:611-615 | high iff > 0.7, medium iff in (0.5, 0.7], low otherwise |
| Api.LinkOf | routes/api.py:377-382 | source and target ids; value is the amount, or 1 when absent; `is_fraud` iff either score (missing → 0) > 0.7 |
| Api.LinksOf | routes/api.py:374-382 | every emitted link has both ends in `node_map` |
| Api.CentralPartIsFilter | routes/api.py:355-362 | the central entries are, one for one and in order, the central nodes that exist and have an id, each typed central |
| Api.AssembleNetwork | routes/api.py:346-382 | the nodes are the central entries followed by the connected entries appended against the central ids; every connected id ends in `node_map`; `node_map` is the set of node ids; the links are the kept relationships in order |
| Api.CollectCentral | routes/api.py:355-362 | the loop builds exactly the central entries; `node_map` is their set of ids |
| Api.CollectConnected | routes/api.py:364-371 | the loop appends exactly the connected entries against the ids already in `node_map`, keeping the earlier nodes as a prefix; `node_map` stays the set of node ids |
| Api.ConnectedPartFresh | routes/api.py:364-371 | every appended node is typed connected and carries an id not already in `node_map`; no two appended nodes share an id |
| Api.ConnectedPartSources | routes/api.py:364-371 | every appended node is the entry of some connected node that has an id |
| Api.ConnectedPartCovers | routes/api.py:366-371 | every connected node with an id ends up with its id either already in `node_map` or among the appended nodes |
| Api.FirstConnectedWins | routes/api.py:366-371 | of two connected nodes with the same id, only the first is appended |
| Api.CollectLinks | routes/api.py:374-382 | the links are exactly the relationships that are well formed and whose two ends are in `node_map`, in order |
| Api.LinksJoinKnownNodes | routes/api.py:374-376 | every link joins two nodes of the payload |
| Api.LinksOfKeepsExactly | routes/api.py:374-382 | a relationship is linked exactly when it is well formed and both ends are known, in order |
| Api.LinksOfMembers | routes/api.py:374-382 | every well-formed relationship with both ends known gives a link, and every link comes from such a relationship |

## Left out

- Cypher queries and the Neo4j driver are not modelled: query results arrive as parameters (`Record`, `GraphNode`, `GraphRel`).
- `fetch`, promises, `setTimeout` debouncing and the retries in `fixes.js` are not modelled. Each handler is a method that takes the settled response as a parameter.
- Chart.js, D3 (`community_viewer.js:777-909`), Bootstrap modals and HTML string building are not modelled. The model records what the code puts into them: rows, chart entries, nodes and links.
- Number formatting (`Intl.NumberFormat`, `toLocaleString`, `toFixed`) is not modelled. A number is stored as the number it displays. The fraud summary's `toFixed(1)` percentages are modelled by the same one-decimal rounding as the bars.
- Floating point is not modelled. Scores, amounts and rates are exact reals, so `MetricsPanel.RoundTenth` rounds exactly; NaN and `Infinity` do not arise.
- FraudTransactions.SortKey: dates are compared by their timestamp number; invalid dates (NaN) are not modelled. A string compared with a number is converted to a number in JavaScript; the model compares such mixed keys false both ways. No sort field gives a number for some transactions and a string for others.
- FraudTransactions.TransactionsPanel.Load: the `catch` replaces the whole content area (`contentEl.innerHTML`) with the alert, which removes the table, statistics and chart canvas from the page. The model records the alert in `failure` and keeps those fields. What a later load does once those elements are gone is not modelled; the model renders into its fields as before.
- FraudTransactions.TransactionsPanel.Show: a throwing render reaches the same `catch`, so the same replacement of the content area is not modelled here either.
- Text.Lower maps ASCII letters only. Locale-dependent and non-ASCII case mapping is not modelled.
- Text.StrLess compares by character code. JavaScript compares UTF-16 code units, which differ for characters outside the Basic Multilingual Plane.
- FraudTransactions.SortTransactions: the comparator never returns 0, so equal keys compare as tied here. Real engines may order them either way. The model promises a permutation, and sortedness only when the keys are of one kind. Stability is not promised.
- FraudTransactions.GroupByType: `Object.entries` lists integer-like keys before the others, and a type named like an `Object.prototype` member (`constructor`) would hit the prototype. The model uses first-seen order and plain keys.
- `parseFloat` of the input boxes is not modelled: `Controls` holds the parsed number, or none for an empty box.
- Event-listener registration is not modelled. `setupFilters` adds a second set of listeners on every reload; filtering is idempotent, so repeated handlers show the same cards.
- CommunityViewer.CommunityBrowser.Load: a response without a `communities` field is modelled as an empty list, which the code treats the same way.
- `initFraudChart` only feeds the entries to Chart.js, so its only modelled part is the `|| 'Khác'` label.
- Api.AssembleNetwork: a missing query result (`top_nodes_result` is None) is modelled as three empty lists, which produce the same empty network.
- The community detail view's other panels (overview counts, related-community cards beyond their tier) are HTML output only.
- The server's internal-transaction payload (`routes/api.py:518-531`) sends no endpoint scores. So no row of the community transaction table is ever flagged, and the ranking is by amount alone (`CommunityViewer.UnscoredRankByAmount`).

## Findings

| source | as written | input that shows it | evidently intended | confidence | as-written member | corrected member |
|---|---|---|---|---|---|---|
| static/js/fraud_transactions.js:329-331, 366 | `getCurrentFilters` returns the header's bare `data-sort` key, which never ends with `:asc`, so a second click on the ascending header clears the sort | click the `amount` header twice: the first click sorts `amount:asc`, the second yields null | ascending, then descending, then unmarked | not executed | FraudTransactions.ClickActiveClearsAsWritten | FraudTransactions.ClickCycleIntended |
| static/js/fraud_transactions.js:106, 354-355, 366 | a debounced re-render reads the bare key back, so `direction` is undefined and the table sorts descending though the header shows ascending | mark `amount` ascending, then type in the search box | the re-render keeps the direction the header shows | not executed | FraudTransactions.RerenderSortsDescendingAsWritten | FraudTransactions.IntendedSortMatchesMark |
| static/js/fraud_transactions.js:218-230 | `statsContainer.innerHTML +=` appends a new block on every render | any list with a confirmed fraud or a high-risk transaction, rendered twice | one block showing the current counts | not executed | FraudTransactions.StatsBlocksAccumulate | FraudTransactions.ReplaceStatsBlockIdempotent |

The panel class follows the code as written: `TransactionsPanel.ClickHeader` uses `NextSort` on
`CurrentSortAsWritten`, and `TransactionsPanel.Render` appends stats blocks. The corrected
members say what the page should do instead.
