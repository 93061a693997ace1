/** The community browser: the client-side filter over the cached community list, the risk and
    size tiers of cards and badges, the account and transaction tables of the detail view, the
    node/link projection fed to the network graph, and the currency guard. */
module CommunityViewer {
  import opened Wrappers
  import opened Text
  import Seqs
  import Sorting
  import Api

  // ---------------------------------------------------------------------------------------------
  // Tiers

  /** The three-level colour of a card header, a detail badge or a related-community badge. */
  datatype RiskTier = HighRisk | MediumRisk | LowRisk

  /** `score > 0.7` high, else `score > 0.5` medium, else low: both bounds are strict. */
  function RiskTierOf(score: real): (t: RiskTier)
    ensures t == HighRisk <==> score > 0.7
    ensures t == MediumRisk <==> 0.5 < score <= 0.7
    ensures t == LowRisk <==> score <= 0.5
  {
    if score > 0.7 then HighRisk else if score > 0.5 then MediumRisk else LowRisk
  }

  /** The detail badge reads `parseFloat(overview.avg_score || 0)`: a missing average is low risk. */
  function BadgeTier(avgScore: Option<real>): (t: RiskTier)
    ensures avgScore.None? ==> t == LowRisk
    ensures avgScore.Some? ==> t == RiskTierOf(avgScore.value)
  {
    RiskTierOf(avgScore.GetOr(0.0))
  }

  /** The card size class. */
  datatype SizeClass = Large | MediumSize | Small

  /** `size > 10` large, else `size > 3` medium, else small. */
  function SizeClassOf(size: int): (c: SizeClass)
    ensures c == Large <==> size > 10
    ensures c == MediumSize <==> 3 < size <= 10
    ensures c == Small <==> size <= 3
  {
    if size > 10 then Large else if size > 3 then MediumSize else Small
  }

  /** The size word of the detail subtitle: `<= 3` small, `<= 10` medium, else large. */
  function SubtitleSize(totalAccounts: int): (w: string)
    ensures w == "nhỏ" || w == "trung bình" || w == "lớn"
  {
    if totalAccounts <= 3 then "nhỏ" else if totalAccounts <= 10 then "trung bình" else "lớn"
  }

  /** The card colour agrees with the `risk_level` the server computed from the same score. */
  lemma RiskTierAgreesWithServer(score: real)
    ensures RiskTierOf(score) == HighRisk <==> Api.RiskLevel(score) == "high"
    ensures RiskTierOf(score) == MediumRisk <==> Api.RiskLevel(score) == "medium"
    ensures RiskTierOf(score) == LowRisk <==> Api.RiskLevel(score) == "low"
  {
  }

  /** The card size class, the subtitle word and the server's `size_category` agree on every size. */
  lemma SizeClassAgreesWithServer(size: int)
    ensures SizeClassOf(size) == Small <==> Api.SizeCategory(size) == "small"
    ensures SizeClassOf(size) == MediumSize <==> Api.SizeCategory(size) == "medium"
    ensures SizeClassOf(size) == Large <==> Api.SizeCategory(size) == "large"
    ensures SubtitleSize(size) == "nhỏ" <==> SizeClassOf(size) == Small
    ensures SubtitleSize(size) == "trung bình" <==> SizeClassOf(size) == MediumSize
    ensures SubtitleSize(size) == "lớn" <==> SizeClassOf(size) == Large
  {
  }

  // ---------------------------------------------------------------------------------------------
  // The community list and its filter

  /** One entry of `/api/communities`. */
  datatype Community = Community(id: int, size: int, avgScore: real, sizeCategory: string, riskLevel: string)

  /** The three filter inputs, as typed. */
  datatype CommunityFilters = CommunityFilters(size: string, risk: string, search: string)

  const ResetFilters := CommunityFilters("all", "all", "")

  /** `searchInput.value.trim().toLowerCase()`. */
  function Query(search: string): string {
    Lower(Trim(search))
  }

  /** `applyFilters`' three chained filters, each applied only when its input is set. They
      only ever drop communities: the result is no longer than the cache and drawn from it. */
  function ApplyFilters(all: seq<Community>, f: CommunityFilters): (r: seq<Community>)
    ensures |r| <= |all|
    ensures forall i :: 0 <= i < |r| ==> r[i] in all
  {
    var q := Query(f.search);
    var bySize := if f.size != "all" then Seqs.Filter(all, (c: Community) => c.sizeCategory == f.size) else all;
    var byRisk := if f.risk != "all" then Seqs.Filter(bySize, (c: Community) => c.riskLevel == f.risk) else bySize;
    if q != "" then Seqs.Filter(byRisk, (c: Community) => Contains(IntToString(c.id), q)) else byRisk
  }

  /** The three predicates stated together: an unset input imposes nothing, and each set
      input on its own can exclude a community. */
  predicate Matches(c: Community, f: CommunityFilters): (r: bool)
    ensures f.size == "all" && f.risk == "all" && Query(f.search) == "" ==> r
    ensures f.size != "all" && c.sizeCategory != f.size ==> !r
    ensures f.risk != "all" && c.riskLevel != f.risk ==> !r
    ensures Query(f.search) != "" && !Contains(IntToString(c.id), Query(f.search)) ==> !r
  {
    && (f.size != "all" ==> c.sizeCategory == f.size)
    && (f.risk != "all" ==> c.riskLevel == f.risk)
    && (Query(f.search) != "" ==> Contains(IntToString(c.id), Query(f.search)))
  }

  /** The chain is one filter on the conjunction: the result is the cached list's matching
      communities, in their cached order. */
  lemma ApplyFiltersIsConjunction(all: seq<Community>, f: CommunityFilters)
    ensures ApplyFilters(all, f) == Seqs.Filter(all, (c: Community) => Matches(c, f))
  {
    var q := Query(f.search);
    var ps := (c: Community) => f.size != "all" ==> c.sizeCategory == f.size;
    var pr := (c: Community) => f.risk != "all" ==> c.riskLevel == f.risk;
    var pq := (c: Community) => q != "" ==> Contains(IntToString(c.id), q);
    var psr := (c: Community) => ps(c) && pr(c);
    var bySize := if f.size != "all" then Seqs.Filter(all, (c: Community) => c.sizeCategory == f.size) else all;
    if f.size != "all" {
      Seqs.FilterAgree(all, (c: Community) => c.sizeCategory == f.size, ps);
    } else {
      Seqs.FilterAll(all, ps);
    }
    var byRisk := if f.risk != "all" then Seqs.Filter(bySize, (c: Community) => c.riskLevel == f.risk) else bySize;
    if f.risk != "all" {
      Seqs.FilterAgree(bySize, (c: Community) => c.riskLevel == f.risk, pr);
    } else {
      Seqs.FilterAll(bySize, pr);
    }
    Seqs.FilterFilter(all, ps, pr, psr);
    if q != "" {
      Seqs.FilterAgree(byRisk, (c: Community) => Contains(IntToString(c.id), q), pq);
    } else {
      Seqs.FilterAll(byRisk, pq);
    }
    Seqs.FilterFilter(all, psr, pq, (c: Community) => Matches(c, f));
  }

  /** What the filter promises: an ordered selection of the cache, holding exactly the
      communities that match. */
  lemma ApplyFiltersMeaning(all: seq<Community>, f: CommunityFilters)
    ensures Seqs.IsSubsequence(ApplyFilters(all, f), all)
    ensures forall i :: 0 <= i < |ApplyFilters(all, f)| ==> Matches(ApplyFilters(all, f)[i], f)
    ensures forall i :: 0 <= i < |all| && Matches(all[i], f) ==> all[i] in ApplyFilters(all, f)
  {
    ApplyFiltersIsConjunction(all, f);
    Seqs.FilterIsSubsequence(all, (c: Community) => Matches(c, f));
  }

  /** The reset inputs select everything, in order. */
  lemma ResetShowsAll(all: seq<Community>)
    ensures ApplyFilters(all, ResetFilters) == all
  {
    assert Trim("") == "";
  }

  /** A search of only white space is no search. */
  lemma BlankSearchIgnored(all: seq<Community>, f: CommunityFilters)
    requires forall i :: 0 <= i < |f.search| ==> IsSpace(f.search[i])
    ensures ApplyFilters(all, f) == ApplyFilters(all, f.(search := ""))
  {
    TrimAllSpace(f.search);
    TrimAllSpace("");
  }

  /** The id search is by substring of the decimal id: a query of the whole id finds it. */
  lemma SearchByWholeId(all: seq<Community>, f: CommunityFilters, k: nat)
    requires k < |all| && all[k].id >= 0
    requires f.size == "all" && f.risk == "all" && f.search == IntToString(all[k].id)
    ensures all[k] in ApplyFilters(all, f)
  {
    var id := IntToString(all[k].id);
    DigitsAreTrimmedLower(id);
    ContainsSelf(id);
    ApplyFiltersMeaning(all, f);
  }

  /** A string of decimal digits is unchanged by `trim` and `toLowerCase`. */
  lemma DigitsAreTrimmedLower(s: string)
    requires s != [] && forall i :: 0 <= i < |s| ==> '0' <= s[i] <= '9'
    ensures Query(s) == s
  {
    DigitIsPlain(s[0]);
    DigitIsPlain(s[|s| - 1]);
    assert Trim(s) == s;
    forall i | 0 <= i < |s| ensures Lower(s)[i] == s[i] {
      DigitIsPlain(s[i]);
    }
    assert Lower(s) == s;
  }

  lemma DigitIsPlain(c: char)
    requires '0' <= c <= '9'
    ensures !IsSpace(c) && LowerChar(c) == c
  {
  }

  /** What `loadCommunities` received. */
  datatype ListResponse = ListFailed(message: string) | Listed(communities: seq<Community>)

  /** The list modal: `window.allCommunities`, the rendered cards, the not-found panel and the
      filter inputs. */
  class CommunityBrowser {
    var cache: seq<Community>
    var cards: seq<Community>
    var notFound: bool
    var failure: Option<string>
    var filters: CommunityFilters

    constructor ()
      ensures cache == [] && cards == [] && !notFound && failure == None && filters == ResetFilters
    {
      cache := [];
      cards := [];
      notFound := false;
      failure := None;
      filters := ResetFilters;
    }

    /** `loadCommunities()` once the response is in. The container is emptied first, which
        removes any error shown before; an empty list shows the not-found panel and keeps the
        previous cache. */
    method Load(response: ListResponse)
      modifies this
      ensures response.ListFailed? ==>
        cards == [] && !notFound && failure == Some(response.message) && cache == old(cache)
      ensures response.Listed? && response.communities == [] ==>
        cards == [] && notFound && cache == old(cache) && failure == None
      ensures response.Listed? && response.communities != [] ==>
        cache == response.communities && cards == cache && !notFound && failure == None
      ensures filters == old(filters)
    {
      cards := [];
      failure := None;
      notFound := false;
      match response {
        case ListFailed(message) =>
          failure := Some(message);
        case Listed(communities) =>
          if communities == [] {
            notFound := true;
          } else {
            cache := communities;
            cards := communities;
          }
      }
    }

    /** `applyFilters()`: `renderCommunities` empties the container (removing any error shown)
        and renders the matching cached communities; the not-found panel is shown exactly when
        none match. */
    method Apply()
      modifies this`cards, this`notFound, this`failure
      ensures cards == ApplyFilters(cache, filters)
      ensures notFound <==> cards == []
      ensures failure == None
    {
      var shown := ApplyFilters(cache, filters);
      failure := None;
      cards := shown;
      notFound := |shown| == 0;
    }

    /** A filter input changed. */
    method ChangeFilters(f: CommunityFilters)
      modifies this`filters, this`cards, this`notFound, this`failure
      ensures filters == f && cards == ApplyFilters(cache, f) && (notFound <==> cards == [])
      ensures failure == None
    {
      filters := f;
      Apply();
    }

    /** Either reset button: the inputs go back to "all", "all" and empty, and the whole cache is
        shown again. */
    method Reset()
      modifies this`filters, this`cards, this`notFound, this`failure
      ensures filters == ResetFilters && cards == cache
      ensures notFound <==> cache == []
      ensures failure == None
    {
      filters := ResetFilters;
      Apply();
      ResetShowsAll(cache);
    }
  }

  // ---------------------------------------------------------------------------------------------
  // The account table

  /** One account of `/api/community/<id>`; fields the JSON may lack are options. */
  datatype Account = Account(
    id: string,
    score: Option<real>,
    pagerank: Option<real>,
    imbalance: Option<real>,
    inCycle: Option<int>,
    sentCount: Option<int>,
    receivedCount: Option<int>,
    imbalanceAmount: Option<real>)

  /** The "feature" column. */
  datatype Feature = InCycle | Imbalanced | Central | Ordinary

  function Abs(x: real): real {
    if x < 0.0 then -x else x
  }

  predicate IsImbalanced(a: Account) {
    a.imbalance.Some? && Abs(a.imbalance.value) > 0.5
  }

  predicate IsCentral(a: Account) {
    a.pagerank.Some? && a.pagerank.value > 1.5
  }

  /** The first that applies of: in a cycle (`in_cycle === 1`), `|imbalance| > 0.5`,
      `pagerank > 1.5`, otherwise ordinary. */
  function FeatureOf(a: Account): (f: Feature)
    ensures f == InCycle <==> a.inCycle == Some(1)
    ensures f == Imbalanced <==> a.inCycle != Some(1) && IsImbalanced(a)
    ensures f == Central <==> a.inCycle != Some(1) && !IsImbalanced(a) && IsCentral(a)
    ensures f == Ordinary <==> a.inCycle != Some(1) && !IsImbalanced(a) && !IsCentral(a)
  {
    if a.inCycle == Some(1) then InCycle
    else if IsImbalanced(a) then Imbalanced
    else if IsCentral(a) then Central
    else Ordinary
  }

  /** A missing score compares false and gets the low tier. */
  function AccountTier(a: Account): RiskTier {
    if a.score.Some? then RiskTierOf(a.score.value) else LowRisk
  }

  datatype AccountRow = AccountRow(id: string, tier: RiskTier, feature: Feature, imbalanceAlert: bool)

  /** The account table body: one placeholder row spanning six columns, or one row per account. */
  datatype AccountsTable = NoAccounts(colspan: nat) | AccountRows(rows: seq<AccountRow>)

  /** `renderAccountsList(accounts)`. */
  function AccountsTableOf(accounts: Option<seq<Account>>): (t: AccountsTable)
    ensures accounts.None? || accounts.value == [] <==> t == NoAccounts(6)
    ensures t.AccountRows? ==> |t.rows| == |accounts.value|
    ensures t.AccountRows? ==> forall i :: 0 <= i < |t.rows| ==>
      t.rows[i].id == accounts.value[i].id && t.rows[i].feature == FeatureOf(accounts.value[i])
      && t.rows[i].tier == AccountTier(accounts.value[i])
      && (t.rows[i].imbalanceAlert <==> accounts.value[i].imbalanceAmount.Some? && accounts.value[i].imbalanceAmount.value > 10000.0)
  {
    if accounts.None? || accounts.value == [] then NoAccounts(6)
    else
      var s := accounts.value;
      AccountRows(seq(|s|, i requires 0 <= i < |s| =>
        AccountRow(s[i].id, AccountTier(s[i]), FeatureOf(s[i]),
          s[i].imbalanceAmount.Some? && s[i].imbalanceAmount.value > 10000.0)))
  }

  // ---------------------------------------------------------------------------------------------
  // The internal-transaction table

  /** One internal transaction of `/api/community/<id>`. */
  datatype CommunityTx = CommunityTx(
    source: string,
    target: string,
    amount: real,
    txType: string,
    sourceScore: Option<real>,
    targetScore: Option<real>,
    highRisk: bool)

  /** `tx.source_score > 0.8 && tx.target_score > 0.8`; a missing score compares false. */
  predicate Flagged(tx: CommunityTx) {
    tx.sourceScore.Some? && tx.sourceScore.value > 0.8 && tx.targetScore.Some? && tx.targetScore.value > 0.8
  }

  /** The comparator is positive: a flagged transaction ranks first, then the larger amount. */
  predicate RankAfter(a: CommunityTx, b: CommunityTx): (r: bool)
    ensures Flagged(a) && !Flagged(b) ==> !r
    ensures Flagged(b) && !Flagged(a) ==> r
    ensures Flagged(a) == Flagged(b) ==> (r <==> a.amount < b.amount)
  {
    if Flagged(a) != Flagged(b) then Flagged(b) else b.amount > a.amount
  }

  /** The ranking is consistent on every list, so the sort always orders it. */
  lemma RankIsConsistent(s: seq<CommunityTx>)
    ensures Sorting.StrictWeakOrderOn(RankAfter, s)
  {
  }

  /** A ranked list has every flagged transaction before every unflagged one, and amounts
      non-increasing within each group. */
  lemma RankedOrder(s: seq<CommunityTx>, i: int, j: int)
    requires Sorting.SortedBy(RankAfter, s)
    requires 0 <= i < j < |s|
    ensures Flagged(s[j]) ==> Flagged(s[i])
    ensures Flagged(s[i]) == Flagged(s[j]) ==> s[i].amount >= s[j].amount
  {
    assert !RankAfter(s[i], s[j]);
  }

  /** The status badge. */
  datatype Status = Fraud | Risky | Normal

  function StatusOf(tx: CommunityTx): (st: Status)
    ensures st == Fraud <==> Flagged(tx)
    ensures st == Risky <==> !Flagged(tx) && tx.highRisk
  {
    if Flagged(tx) then Fraud else if tx.highRisk then Risky else Normal
  }

  datatype TxRow = TxRow(source: string, target: string, amount: real, txType: string, status: Status)

  function TxRowOf(tx: CommunityTx): TxRow {
    TxRow(tx.source, tx.target, tx.amount, tx.txType, StatusOf(tx))
  }

  /** The transaction table body: a placeholder row, or at most ten rows and, when some are
      left out, a footer naming how many. */
  datatype TxTable = NoTransactions(colspan: nat) | TxRows(rows: seq<TxRow>, footer: Option<nat>)

  /** The number of `<tr>` rows a table body holds. */
  function RowCount(t: TxTable): nat {
    match t
    case NoTransactions(_) => 1
    case TxRows(rows, footer) => |rows| + (if footer.Some? then 1 else 0)
  }

  /** `renderTransactionsList(transactions)`: ranks the caller's array in place and shows the
      first ten. */
  method RenderTransactionsList(txs: array?<CommunityTx>) returns (table: TxTable)
    modifies txs
    ensures txs == null || txs.Length == 0 <==> table == NoTransactions(5)
    ensures txs != null ==> multiset(txs[..]) == multiset(old(txs[..]))
    ensures txs != null ==> Sorting.SortedBy(RankAfter, txs[..])
    ensures txs != null && txs.Length > 0 ==>
      && table.TxRows?
      && |table.rows| == (if txs.Length < 10 then txs.Length else 10)
      && (forall i :: 0 <= i < |table.rows| ==> table.rows[i] == TxRowOf(txs[i]))
      && (table.footer.Some? <==> txs.Length > 10)
      && (table.footer.Some? ==> table.footer.value == txs.Length - 10)
    ensures RowCount(table) == if txs == null || txs.Length == 0 then 1
      else if txs.Length <= 10 then txs.Length else 11
  {
    if txs == null || txs.Length == 0 {
      if txs != null {
        assert txs[..] == [];
      }
      return NoTransactions(5);
    }
    RankIsConsistent(txs[..]);
    Sorting.SortInPlace(txs, RankAfter);
    var n := txs.Length;
    var shown := if n < 10 then n else 10;
    var rows := seq(shown, i requires 0 <= i < shown reads txs => TxRowOf(txs[i]));
    table := TxRows(rows, if n > 10 then Some(n - 10) else None);
  }

  /** The internal transactions the server sends carry no endpoint scores, so no row is ever
      flagged and the ranking is by amount alone. */
  lemma UnscoredRankByAmount(s: seq<CommunityTx>)
    requires forall i :: 0 <= i < |s| ==> s[i].sourceScore.None? && s[i].targetScore.None?
    requires Sorting.SortedBy(RankAfter, s)
    ensures forall i :: 0 <= i < |s| ==> StatusOf(s[i]) != Fraud
    ensures forall i, j :: 0 <= i < j < |s| ==> s[i].amount >= s[j].amount
  {
    forall i, j | 0 <= i < j < |s| ensures s[i].amount >= s[j].amount {
      RankedOrder(s, i, j);
    }
  }

  // ---------------------------------------------------------------------------------------------
  // The network projection

  /** A graph node: `pagerank || 0`, `in_cycle === 1`, counts `|| 0`. */
  datatype Node = Node(id: string, score: Option<real>, pagerank: real, inCycle: bool, sentCount: int, receivedCount: int)

  /** A graph link; `is_fraud` is the same double-threshold test as the table's badge. */
  datatype Link = Link(source: string, target: string, value: real, isFraud: bool)

  function NodeOf(a: Account): (n: Node)
    ensures n.id == a.id && n.score == a.score
    ensures a.pagerank.None? ==> n.pagerank == 0.0
    ensures a.pagerank.Some? ==> n.pagerank == a.pagerank.value
    ensures n.inCycle <==> a.inCycle == Some(1)
    ensures a.sentCount.None? ==> n.sentCount == 0
    ensures a.sentCount.Some? ==> n.sentCount == a.sentCount.value
    ensures a.receivedCount.None? ==> n.receivedCount == 0
    ensures a.receivedCount.Some? ==> n.receivedCount == a.receivedCount.value
  {
    Node(a.id, a.score, a.pagerank.GetOr(0.0), a.inCycle == Some(1), a.sentCount.GetOr(0), a.receivedCount.GetOr(0))
  }

  function LinkOf(tx: CommunityTx): (l: Link)
    ensures l.source == tx.source && l.target == tx.target && l.value == tx.amount
    ensures l.isFraud <==> StatusOf(tx) == Fraud
  {
    Link(tx.source, tx.target, tx.amount, Flagged(tx))
  }

  datatype NetworkView = NotEnoughData | Graph(nodes: seq<Node>, links: seq<Link>)

  /** The data checks and the two `.map` calls of `renderCommunityNetwork`. */
  function ProjectNetwork(accounts: Option<seq<Account>>, txs: Option<seq<CommunityTx>>): (v: NetworkView)
    ensures v == NotEnoughData <==> accounts.None? || txs.None? || accounts.value == []
    ensures v.Graph? ==> |v.nodes| == |accounts.value| && |v.links| == |txs.value|
    ensures v.Graph? ==> forall i :: 0 <= i < |v.nodes| ==> v.nodes[i] == NodeOf(accounts.value[i])
    ensures v.Graph? ==> forall i :: 0 <= i < |v.links| ==> v.links[i] == LinkOf(txs.value[i])
  {
    if accounts.None? || txs.None? || accounts.value == [] then NotEnoughData
    else
      var a, t := accounts.value, txs.value;
      Graph(seq(|a|, i requires 0 <= i < |a| => NodeOf(a[i])), seq(|t|, i requires 0 <= i < |t| => LinkOf(t[i])))
  }

  /** `d.score > 0.7 || d.pagerank > 1.5`. */
  predicate Labelled(n: Node) {
    (n.score.Some? && n.score.value > 0.7) || n.pagerank > 1.5
  }

  /** The nodes that get a text label. */
  function LabelledNodes(nodes: seq<Node>): seq<Node> {
    Seqs.Filter(nodes, Labelled)
  }

  /** The labelled nodes are the high-risk or central accounts, in the accounts' order. */
  lemma LabelledAccounts(accounts: seq<Account>, txs: seq<CommunityTx>)
    requires accounts != []
    ensures var v := ProjectNetwork(Some(accounts), Some(txs));
      && Seqs.IsSubsequence(LabelledNodes(v.nodes), v.nodes)
      && (forall i :: 0 <= i < |accounts| ==>
           (NodeOf(accounts[i]) in LabelledNodes(v.nodes) <==> AccountTier(accounts[i]) == HighRisk || IsCentral(accounts[i])))
  {
    var v := ProjectNetwork(Some(accounts), Some(txs));
    Seqs.FilterIsSubsequence(v.nodes, Labelled);
    forall i | 0 <= i < |accounts|
      ensures NodeOf(accounts[i]) in LabelledNodes(v.nodes) <==> AccountTier(accounts[i]) == HighRisk || IsCentral(accounts[i])
    {
      assert v.nodes[i] == NodeOf(accounts[i]);
      var n := NodeOf(accounts[i]);
      assert Labelled(n) <==> AccountTier(accounts[i]) == HighRisk || IsCentral(accounts[i]);
    }
  }

  // ---------------------------------------------------------------------------------------------
  // Currency

  datatype Money = NotAvailable | Vnd(amount: real)

  /** `formatCurrency(value)`: 'N/A' exactly for a missing value; zero is formatted. */
  function FormatCurrency(value: Option<real>): (m: Money)
    ensures m == NotAvailable <==> value.None?
    ensures value.Some? ==> m == Vnd(value.value)
  {
    if value.None? then NotAvailable else Vnd(value.value)
  }
}
