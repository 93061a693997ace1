/** The two pure pieces of the Flask API: the metric arithmetic and defaulting behind
    `GET /api/metrics`, and the node/link assembly behind `GET /api/network`. The Cypher
    queries themselves are not modelled; their results arrive as parameters. */
module Api {
  import opened Wrappers
  import Seqs

  // ---------------------------------------------------------------------------------------------
  // Precision, recall and F1

  /** `true_positives / detected if detected > 0 else 0`. */
  function Precision(truePositives: nat, detected: nat): (p: real)
    ensures detected == 0 ==> p == 0.0
    ensures detected > 0 ==> p * detected as real == truePositives as real
  {
    if detected > 0 then truePositives as real / detected as real else 0.0
  }

  /** `true_positives / ground_truth if ground_truth > 0 else 0`. */
  function Recall(truePositives: nat, groundTruth: nat): (r: real)
    ensures groundTruth == 0 ==> r == 0.0
    ensures groundTruth > 0 ==> r * groundTruth as real == truePositives as real
  {
    if groundTruth > 0 then truePositives as real / groundTruth as real else 0.0
  }

  /** `2 * p * r / (p + r) if p + r > 0 else 0`. */
  function F1(p: real, r: real): (f: real)
    ensures p + r <= 0.0 ==> f == 0.0
    ensures p + r > 0.0 ==> f * (p + r) == 2.0 * p * r
  {
    if p + r > 0.0 then 2.0 * (p * r) / (p + r) else 0.0
  }

  /** With no more true positives than detections or ground-truth frauds, all three rates lie
      in [0, 1]. */
  lemma RatesInUnitInterval(truePositives: nat, detected: nat, groundTruth: nat)
    requires truePositives <= detected && truePositives <= groundTruth
    ensures 0.0 <= Precision(truePositives, detected) <= 1.0
    ensures 0.0 <= Recall(truePositives, groundTruth) <= 1.0
    ensures 0.0 <= F1(Precision(truePositives, detected), Recall(truePositives, groundTruth)) <= 1.0
  {
    var p := Precision(truePositives, detected);
    var r := Recall(truePositives, groundTruth);
    RateBounds(truePositives, detected);
    RateBounds(truePositives, groundTruth);
    F1Bounds(p, r);
  }

  lemma RateBounds(part: nat, whole: nat)
    requires part <= whole
    ensures 0.0 <= Precision(part, whole) <= 1.0
  {
    if whole > 0 {
      var q := part as real / whole as real;
      assert q * whole as real == part as real;
      if q > 1.0 {
        assert q * whole as real > 1.0 * whole as real;
      }
    }
  }

  /** F1 of two rates in [0, 1] lies between their minimum and maximum, so in [0, 1]. */
  lemma F1Bounds(p: real, r: real)
    requires 0.0 <= p <= 1.0 && 0.0 <= r <= 1.0
    ensures 0.0 <= F1(p, r) <= 1.0
    ensures p + r > 0.0 ==> (if p <= r then p else r) <= F1(p, r) <= (if p <= r then r else p)
  {
    if p + r > 0.0 {
      if p <= r {
        Between(p, r, F1(p, r));
      } else {
        Between(r, p, F1(p, r));
      }
    }
  }

  /** The harmonic mean of `lo <= hi` lies in `[lo, hi]`. */
  lemma Between(lo: real, hi: real, f: real)
    requires 0.0 <= lo <= hi && lo + hi > 0.0
    requires f * (lo + hi) == 2.0 * lo * hi
    ensures lo <= f <= hi
  {
    var c := lo + hi;
    MulNonneg(lo, hi - lo);
    MulNonneg(hi, hi - lo);
    assert (f - lo) * c == lo * (hi - lo);
    assert (hi - f) * c == hi * (hi - lo);
    DivideOut(f - lo, c);
    DivideOut(hi - f, c);
  }

  lemma MulNonneg(x: real, y: real)
    requires x >= 0.0 && y >= 0.0
    ensures x * y >= 0.0
  {
  }

  /** `d * c >= 0` with `c > 0` gives `d >= 0`. */
  lemma DivideOut(d: real, c: real)
    requires c > 0.0 && d * c >= 0.0
    ensures d >= 0.0
  {
    assert d == (d * c) / c;
  }

  /** With detections and ground-truth frauds both present, F1 is `2 tp / (detected + ground truth)`. */
  lemma F1Closed(truePositives: nat, detected: nat, groundTruth: nat)
    requires detected > 0 && groundTruth > 0
    ensures F1(Precision(truePositives, detected), Recall(truePositives, groundTruth))
      == 2.0 * truePositives as real / (detected + groundTruth) as real
  {
    var t, d, g := truePositives as real, detected as real, groundTruth as real;
    var p, r := Precision(truePositives, detected), Recall(truePositives, groundTruth);
    if truePositives > 0 {
      var f := F1(p, r);
      assert p * d == t && r * g == t;
      assert p > 0.0 && r > 0.0;
      // f (p + r) = 2 p r; multiplying by d g gives f t (g + d) = 2 t t, so f (d + g) = 2 t
      assert (p + r) * (d * g) == t * (g + d) by {
        assert p * d * g == t * g;
        assert r * g * d == t * d;
      }
      assert 2.0 * p * r * (d * g) == 2.0 * t * t by {
        assert (p * d) * (r * g) == t * t;
      }
      assert f * (p + r) * (d * g) == 2.0 * p * r * (d * g);
      assert f * t * (g + d) == 2.0 * t * t;
      assert f * (d + g) == 2.0 * t by {
        assert t * (f * (d + g)) == t * (2.0 * t);
      }
    }
  }

  // ---------------------------------------------------------------------------------------------
  // The metrics payload

  /** One query record: `record.get(key, 0)` reads it. */
  type Record = map<string, int>

  function Get(r: Record, key: string): int {
    if key in r then r[key] else 0
  }

  /** `record.get(key, 0) if record else 0`. */
  function Field(r: Option<Record>, key: string): (v: int)
    ensures r.None? ==> v == 0
    ensures r.Some? && key !in r.value ==> v == 0
    ensures r.Some? && key in r.value ==> v == r.value[key]
  {
    if r.Some? then Get(r.value, key) else 0
  }

  /** How the validation query ended: it raised, it returned no record, or it returned one. */
  datatype Validation = Raised | NoRecord | Returned(record: Record)

  /** The validation fields of `metrics_data`, present once the validation block has run. */
  datatype Rates = Rates(precision: real, recall: real, f1Score: real, truePositives: int, groundTruthFrauds: int)

  /** `metrics_data`, one field per key (`accounts`, `transactions`, `fraud`,
      `detected_fraud_transactions`, the five risk levels, `communities`,
      `high_risk_communities`, `accounts_in_cycles`, and the validation fields). */
  datatype MetricsPayload = MetricsPayload(
    accounts: int, transactions: int, fraud: int, detectedFraudTransactions: int,
    veryHighRisk: int, highRisk: int, mediumRisk: int, lowRisk: int, veryLowRisk: int,
    communities: int, highRiskCommunities: int, accountsInCycles: int,
    rates: Option<Rates>)

  /** `metrics_data` as `get_metrics` builds it: the summary fields, each defaulting to 0 when its
      record is missing, then updated in place by the validation outcome. */
  method MetricsData(basic: Option<Record>, levels: Option<Record>, communities: Option<Record>,
                     cycles: Option<Record>, validation: Validation)
    returns (data: MetricsPayload)
    ensures data.accounts == Field(basic, "total_accounts")
    ensures data.transactions == Field(basic, "total_transactions")
    ensures data.fraud == Field(basic, "detected_fraud_accounts")
    ensures data.veryHighRisk == Field(levels, "very_high_risk") && data.highRisk == Field(levels, "high_risk")
    ensures data.mediumRisk == Field(levels, "medium_risk") && data.lowRisk == Field(levels, "low_risk")
    ensures data.veryLowRisk == Field(levels, "very_low_risk")
    ensures data.communities == Field(communities, "count")
    ensures data.highRiskCommunities == Field(communities, "high_risk_communities")
    ensures data.accountsInCycles == Field(cycles, "accounts_in_cycles")
    ensures data.rates.None? <==> validation.NoRecord?
    ensures validation.NoRecord? ==> data.detectedFraudTransactions == Field(basic, "detected_fraud_transactions")
    ensures validation.Raised? ==> data.rates == Some(Rates(0.0, 0.0, 0.0, 0, 0)) && data.detectedFraudTransactions == 0
    ensures validation.Returned? ==>
      var r := validation.record;
      var tp, detected, truth := Get(r, "true_positives"), Get(r, "detected_fraud_transactions"), Get(r, "ground_truth_frauds");
      && data.detectedFraudTransactions == detected
      && data.rates.Some? && data.rates.value.truePositives == tp && data.rates.value.groundTruthFrauds == truth
      && (tp >= 0 && detected >= 0 && truth >= 0 ==>
            data.rates.value.precision == Precision(tp, detected)
            && data.rates.value.recall == Recall(tp, truth)
            && data.rates.value.f1Score == F1(Precision(tp, detected), Recall(tp, truth)))
  {
    data := MetricsPayload(
      Field(basic, "total_accounts"), Field(basic, "total_transactions"),
      Field(basic, "detected_fraud_accounts"), Field(basic, "detected_fraud_transactions"),
      Field(levels, "very_high_risk"), Field(levels, "high_risk"), Field(levels, "medium_risk"),
      Field(levels, "low_risk"), Field(levels, "very_low_risk"),
      Field(communities, "count"), Field(communities, "high_risk_communities"),
      Field(cycles, "accounts_in_cycles"),
      None);
    match validation {
      case NoRecord =>
      case Raised =>
        data := data.(rates := Some(Rates(0.0, 0.0, 0.0, 0, 0)), detectedFraudTransactions := 0);
      case Returned(r) =>
        data := data.(rates := Some(RatesOf(r)), detectedFraudTransactions := Get(r, "detected_fraud_transactions"));
    }
  }

  /** The validation block's arithmetic on the returned record. */
  function RatesOf(r: Record): (rates: Rates)
    ensures rates.truePositives == Get(r, "true_positives") && rates.groundTruthFrauds == Get(r, "ground_truth_frauds")
    ensures var tp, detected, truth := Get(r, "true_positives"), Get(r, "detected_fraud_transactions"), Get(r, "ground_truth_frauds");
      tp >= 0 && detected >= 0 && truth >= 0 ==>
        rates.precision == Precision(tp, detected)
        && rates.recall == Recall(tp, truth)
        && rates.f1Score == F1(Precision(tp, detected), Recall(tp, truth))
  {
    var detected, truth, tp := Get(r, "detected_fraud_transactions"), Get(r, "ground_truth_frauds"), Get(r, "true_positives");
    var precision := if detected > 0 then tp as real / detected as real else 0.0;
    var recall := if truth > 0 then tp as real / truth as real else 0.0;
    var f1 := if precision + recall > 0.0 then 2.0 * (precision * recall) / (precision + recall) else 0.0;
    Rates(precision, recall, f1, tp, truth)
  }

  /** Whatever the outcome, the validation rates of the payload lie in [0, 1] when the counts
      are consistent. */
  lemma PayloadRatesInUnitInterval(r: Record)
    requires 0 <= Get(r, "true_positives")
    requires Get(r, "true_positives") <= Get(r, "detected_fraud_transactions")
    requires Get(r, "true_positives") <= Get(r, "ground_truth_frauds")
    ensures var tp, d, g := Get(r, "true_positives"), Get(r, "detected_fraud_transactions"), Get(r, "ground_truth_frauds");
      0.0 <= Precision(tp, d) <= 1.0 && 0.0 <= Recall(tp, g) <= 1.0
      && 0.0 <= F1(Precision(tp, d), Recall(tp, g)) <= 1.0
  {
    RatesInUnitInterval(Get(r, "true_positives"), Get(r, "detected_fraud_transactions"), Get(r, "ground_truth_frauds"));
  }

  // ---------------------------------------------------------------------------------------------
  // Community categories computed by the communities query

  /** `CASE WHEN account_count <= 3 THEN 'small' WHEN account_count <= 10 THEN 'medium' ELSE 'large'`. */
  function SizeCategory(accountCount: int): (c: string)
    ensures c == "small" <==> accountCount <= 3
    ensures c == "medium" <==> 3 < accountCount <= 10
    ensures c == "large" <==> accountCount > 10
  {
    if accountCount <= 3 then "small" else if accountCount <= 10 then "medium" else "large"
  }

  /** `CASE WHEN avg_score > 0.7 THEN 'high' WHEN avg_score > 0.5 THEN 'medium' ELSE 'low'`. */
  function RiskLevel(avgScore: real): (c: string)
    ensures c == "high" <==> avgScore > 0.7
    ensures c == "medium" <==> 0.5 < avgScore <= 0.7
    ensures c == "low" <==> avgScore <= 0.5
  {
    if avgScore > 0.7 then "high" else if avgScore > 0.5 then "medium" else "low"
  }

  // ---------------------------------------------------------------------------------------------
  // The network payload

  /** A Neo4j node as the query returns it: its `id` and `fraud_score` properties, if set. */
  datatype GraphNode = GraphNode(id: Option<string>, fraudScore: Option<real>)

  /** A SENT relationship: its `amount`, whether it has any other property (a relationship with
      no properties is falsy in Python), and its end nodes (`None` when missing). */
  datatype GraphRel = GraphRel(amount: Option<real>, otherProperties: bool,
                               start: Option<GraphNode>, end: Option<GraphNode>)

  datatype NodeKind = Central | Connected

  /** One entry of `network["nodes"]`. */
  datatype NetNode = NetNode(id: string, score: real, kind: NodeKind)

  /** One entry of `network["links"]`. */
  datatype NetLink = NetLink(source: string, target: string, value: real, isFraud: bool)

  /** `node and 'id' in node`: a node with an `id` property (it is then non-empty, so truthy). */
  predicate HasId(node: Option<GraphNode>) {
    node.Some? && node.value.id.Some?
  }

  /** `node.get("fraud_score", 0)`. */
  function ScoreOf(node: GraphNode): real {
    node.fraudScore.GetOr(0.0)
  }

  /** `rel and rel.start_node and rel.end_node and "id" in ... and "id" in ...`. */
  predicate WellFormed(rel: GraphRel) {
    (rel.amount.Some? || rel.otherProperties) && HasId(rel.start) && HasId(rel.end)
  }

  /** The link emitted for a kept relationship. */
  function LinkOf(rel: GraphRel): (l: NetLink)
    requires WellFormed(rel)
    ensures l.source == rel.start.value.id.value && l.target == rel.end.value.id.value
    ensures rel.amount.None? ==> l.value == 1.0
    ensures rel.amount.Some? ==> l.value == rel.amount.value
    ensures l.isFraud <==> ScoreOf(rel.start.value) > 0.7 || ScoreOf(rel.end.value) > 0.7
  {
    NetLink(rel.start.value.id.value, rel.end.value.id.value, rel.amount.GetOr(1.0),
      ScoreOf(rel.start.value) > 0.7 || ScoreOf(rel.end.value) > 0.7)
  }

  /** Whether the links loop keeps `rel` given the ids in `nodeMap`. */
  predicate Kept(rel: GraphRel, nodeMap: set<string>) {
    WellFormed(rel) && rel.start.value.id.value in nodeMap && rel.end.value.id.value in nodeMap
  }

  /** The links emitted for `rels` once `nodeMap` is complete, in order. */
  function LinksOf(rels: seq<Option<GraphRel>>, nodeMap: set<string>): (links: seq<NetLink>)
    ensures |links| <= |rels|
    ensures forall i :: 0 <= i < |links| ==> links[i].source in nodeMap && links[i].target in nodeMap
    decreases |rels|
  {
    if rels == [] then []
    else
      var rest := LinksOf(rels[..|rels| - 1], nodeMap);
      var last := rels[|rels| - 1];
      if last.Some? && Kept(last.value, nodeMap) then rest + [LinkOf(last.value)] else rest
  }

  /** The ids of `nodes`. */
  function Ids(nodes: seq<NetNode>): set<string> {
    set i | 0 <= i < |nodes| :: nodes[i].id
  }

  /** The `network["nodes"]` entry for a node with an id. */
  function Entry(node: Option<GraphNode>, kind: NodeKind): NetNode
    requires HasId(node)
  {
    NetNode(node.value.id.value, ScoreOf(node.value), kind)
  }

  /** The central-nodes loop read front to back: an entry for each central node with an id. */
  function CentralPart(central: seq<Option<GraphNode>>): seq<NetNode>
    decreases |central|
  {
    if central == [] then []
    else if HasId(central[0]) then [Entry(central[0], Central)] + CentralPart(central[1..])
    else CentralPart(central[1..])
  }

  /** The central entries are the entries of `[n for n in central_nodes if n and 'id' in n]`,
      in order. */
  lemma {:induction false} CentralPartIsFilter(central: seq<Option<GraphNode>>)
    ensures |CentralPart(central)| == |Seqs.Filter(central, HasId)|
    ensures forall i :: 0 <= i < |CentralPart(central)| ==>
      CentralPart(central)[i] == Entry(Seqs.Filter(central, HasId)[i], Central)
    decreases |central|
  {
    if central != [] {
      var rest := central[1..];
      CentralPartIsFilter(rest);
      var c, c1 := CentralPart(central), CentralPart(rest);
      var f, f1 := Seqs.Filter(central, HasId), Seqs.Filter(rest, HasId);
      if HasId(central[0]) {
        assert f == [central[0]] + f1;
        assert c == [Entry(central[0], Central)] + c1;
        forall i | 1 <= i < |c| ensures c[i] == Entry(f[i], Central) {
          assert c[i] == c1[i - 1] && f[i] == f1[i - 1];
        }
      } else {
        assert f == f1;
        assert c == c1;
      }
    }
  }

  /** The connected-nodes loop read front to back: an entry for each connected node with an id
      not in `seen`, where `seen` grows by each id appended. */
  function ConnectedPart(connected: seq<Option<GraphNode>>, seen: set<string>): seq<NetNode>
    decreases |connected|
  {
    if connected == [] then []
    else if HasId(connected[0]) && connected[0].value.id.value !in seen then
      [Entry(connected[0], Connected)] + ConnectedPart(connected[1..], seen + {connected[0].value.id.value})
    else ConnectedPart(connected[1..], seen)
  }

  /** The node/link assembly of `get_network`: central nodes first, then each connected node whose
      id is new, then every well-formed relationship whose two ends are both known. */
  method AssembleNetwork(central: seq<Option<GraphNode>>, connected: seq<Option<GraphNode>>,
                         rels: seq<Option<GraphRel>>)
    returns (nodes: seq<NetNode>, links: seq<NetLink>, nodeMap: set<string>)
    ensures nodes == CentralPart(central) + ConnectedPart(connected, Ids(CentralPart(central)))
    ensures nodeMap == Ids(nodes)
    ensures forall j :: 0 <= j < |connected| && HasId(connected[j]) ==> connected[j].value.id.value in nodeMap
    ensures links == LinksOf(rels, nodeMap)
  {
    var centralNodes, centralIds := CollectCentral(central);
    nodes, nodeMap := CollectConnected(centralNodes, centralIds, connected);
    ConnectedPartCovers(connected, centralIds);
    IdsConcat(centralNodes, ConnectedPart(connected, centralIds));
    links := CollectLinks(rels, nodeMap);
  }

  /** The central-nodes loop: every central node with an id, in order. */
  method CollectCentral(central: seq<Option<GraphNode>>) returns (nodes: seq<NetNode>, nodeMap: set<string>)
    ensures nodes == CentralPart(central)
    ensures nodeMap == Ids(nodes)
  {
    nodes, nodeMap := [], {};
    var i := 0;
    while i < |central|
      invariant 0 <= i <= |central|
      invariant nodes + CentralPart(central[i..]) == CentralPart(central)
      invariant nodeMap == Ids(nodes)
    {
      assert central[i..][1..] == central[i + 1..];
      var node := central[i];
      if HasId(node) {
        AppendId(nodes, Entry(node, Central));
        assert nodes + CentralPart(central[i..]) == (nodes + [Entry(node, Central)]) + CentralPart(central[i + 1..]);
        nodes := nodes + [NetNode(node.value.id.value, ScoreOf(node.value), Central)];
        nodeMap := nodeMap + {node.value.id.value};
      }
      i := i + 1;
    }
    assert nodes == nodes + CentralPart(central[i..]);
  }

  /** The connected-nodes loop: appends each connected node whose id is not yet in `nodeMap`. */
  method CollectConnected(nodes0: seq<NetNode>, nodeMap0: set<string>, connected: seq<Option<GraphNode>>)
    returns (nodes: seq<NetNode>, nodeMap: set<string>)
    requires nodeMap0 == Ids(nodes0)
    ensures nodes == nodes0 + ConnectedPart(connected, nodeMap0)
    ensures nodeMap == Ids(nodes)
  {
    nodes, nodeMap := nodes0, nodeMap0;
    var j := 0;
    while j < |connected|
      invariant 0 <= j <= |connected|
      invariant nodes + ConnectedPart(connected[j..], nodeMap) == nodes0 + ConnectedPart(connected, nodeMap0)
      invariant nodeMap == Ids(nodes)
    {
      assert connected[j..][1..] == connected[j + 1..];
      var node := connected[j];
      if HasId(node) && node.value.id.value !in nodeMap {
        var id := node.value.id.value;
        AppendId(nodes, Entry(node, Connected));
        assert nodes + ConnectedPart(connected[j..], nodeMap)
          == (nodes + [Entry(node, Connected)]) + ConnectedPart(connected[j + 1..], nodeMap + {id});
        nodes := nodes + [NetNode(id, ScoreOf(node.value), Connected)];
        nodeMap := nodeMap + {id};
      }
      j := j + 1;
    }
    assert nodes == nodes + ConnectedPart(connected[j..], nodeMap);
  }

  /** The connected entries are connected, carry ids outside `seen`, and no id twice. */
  lemma {:induction false} ConnectedPartFresh(connected: seq<Option<GraphNode>>, seen: set<string>)
    ensures forall n :: 0 <= n < |ConnectedPart(connected, seen)| ==>
      ConnectedPart(connected, seen)[n].kind == Connected && ConnectedPart(connected, seen)[n].id !in seen
    ensures forall n, m :: 0 <= n < m < |ConnectedPart(connected, seen)| ==>
      ConnectedPart(connected, seen)[n].id != ConnectedPart(connected, seen)[m].id
    decreases |connected|
  {
    if connected != [] {
      var node := connected[0];
      var r := ConnectedPart(connected, seen);
      if HasId(node) && node.value.id.value !in seen {
        var id := node.value.id.value;
        var r1 := ConnectedPart(connected[1..], seen + {id});
        ConnectedPartFresh(connected[1..], seen + {id});
        assert r == [Entry(node, Connected)] + r1;
        forall n | 1 <= n < |r| ensures r[n] == r1[n - 1] && r[n].id !in seen + {id} {
        }
      } else {
        ConnectedPartFresh(connected[1..], seen);
        assert r == ConnectedPart(connected[1..], seen);
      }
    }
  }

  /** Each connected entry is the entry of some connected node with an id. */
  lemma {:induction false} ConnectedPartSources(connected: seq<Option<GraphNode>>, seen: set<string>)
    ensures forall n :: 0 <= n < |ConnectedPart(connected, seen)| ==>
      exists k :: 0 <= k < |connected| && HasId(connected[k])
        && ConnectedPart(connected, seen)[n] == Entry(connected[k], Connected)
    decreases |connected|
  {
    if connected != [] {
      var node := connected[0];
      var rest := connected[1..];
      var added := HasId(node) && node.value.id.value !in seen;
      var seen1 := if added then seen + {node.value.id.value} else seen;
      ConnectedPartSources(rest, seen1);
      var r := ConnectedPart(connected, seen);
      var r1 := ConnectedPart(rest, seen1);
      var d := if added then 1 else 0;
      if added {
        assert r == [Entry(node, Connected)] + r1;
      } else {
        assert r == r1;
      }
      forall n | 0 <= n < |r|
        ensures exists k :: 0 <= k < |connected| && HasId(connected[k]) && r[n] == Entry(connected[k], Connected)
      {
        if n < d {
          assert r[0] == Entry(connected[0], Connected);
        } else {
          assert r[n] == r1[n - d];
          var k :| 0 <= k < |rest| && HasId(rest[k]) && r1[n - d] == Entry(rest[k], Connected);
          assert r[n] == Entry(connected[k + 1], Connected);
        }
      }
      assert forall n :: 0 <= n < |r| ==>
        exists k :: 0 <= k < |connected| && HasId(connected[k]) && r[n] == Entry(connected[k], Connected);
    } else {
      assert ConnectedPart(connected, seen) == [];
    }
  }

  /** Of two connected nodes with the same id, the first one's entry is kept. */
  lemma FirstConnectedWins(a: GraphNode, b: GraphNode)
    requires a.id.Some? && b.id == a.id
    ensures ConnectedPart([Some(a), Some(b)], {}) == [Entry(Some(a), Connected)]
  {
    var id := a.id.value;
    var none: set<string> := {};
    assert none + {id} == {id};
    assert [Some(a), Some(b)][1..] == [Some(b)];
    assert [Some(b)][1..] == [];
    assert ConnectedPart([Some(b)], {id}) == ConnectedPart([], {id}) == [];
    assert ConnectedPart([Some(a), Some(b)], none) == [Entry(Some(a), Connected)] + ConnectedPart([Some(b)], none + {id});
  }

  /** Every connected node with an id ends up known: its id was seen or it was appended. */
  lemma {:induction false} ConnectedPartCovers(connected: seq<Option<GraphNode>>, seen: set<string>)
    ensures forall k :: 0 <= k < |connected| && HasId(connected[k]) ==>
      connected[k].value.id.value in seen + Ids(ConnectedPart(connected, seen))
    decreases |connected|
  {
    if connected != [] {
      var node := connected[0];
      var rest := connected[1..];
      var r := ConnectedPart(connected, seen);
      if HasId(node) && node.value.id.value !in seen {
        var id := node.value.id.value;
        ConnectedPartCovers(rest, seen + {id});
        assert r == [Entry(node, Connected)] + ConnectedPart(rest, seen + {id});
        IdsConcat([Entry(node, Connected)], ConnectedPart(rest, seen + {id}));
        assert [Entry(node, Connected)][0].id == id;
        assert Ids([Entry(node, Connected)]) == {id};
      } else {
        ConnectedPartCovers(rest, seen);
        assert r == ConnectedPart(rest, seen);
      }
      forall k | 0 < k < |connected| && HasId(connected[k])
        ensures connected[k].value.id.value in seen + Ids(r)
      {
        assert connected[k] == rest[k - 1];
      }
    }
  }

  /** The ids of two concatenated node lists. */
  lemma IdsConcat(a: seq<NetNode>, b: seq<NetNode>)
    ensures Ids(a + b) == Ids(a) + Ids(b)
  {
    var s := a + b;
    forall x | x in Ids(a) ensures x in Ids(s) {
      var i :| 0 <= i < |a| && a[i].id == x;
      assert s[i].id == x;
    }
    forall x | x in Ids(b) ensures x in Ids(s) {
      var i :| 0 <= i < |b| && b[i].id == x;
      assert s[|a| + i].id == x;
    }
  }

  /** The links loop: every kept relationship, in order. */
  method CollectLinks(rels: seq<Option<GraphRel>>, nodeMap: set<string>) returns (links: seq<NetLink>)
    ensures links == LinksOf(rels, nodeMap)
  {
    links := [];
    var r := 0;
    while r < |rels|
      invariant 0 <= r <= |rels|
      invariant links == LinksOf(rels[..r], nodeMap)
    {
      assert rels[..r + 1][..r] == rels[..r];
      var rel := rels[r];
      if rel.Some? && WellFormed(rel.value) {
        if rel.value.start.value.id.value in nodeMap && rel.value.end.value.id.value in nodeMap {
          links := links + [LinkOf(rel.value)];
        }
      }
      r := r + 1;
    }
    assert rels[..r] == rels;
  }

  /** Appending a node adds exactly its id, and keeps every earlier prefix. */
  lemma AppendId(nodes: seq<NetNode>, n: NetNode)
    ensures Ids(nodes + [n]) == Ids(nodes) + {n.id}
    ensures forall i :: 0 <= i <= |nodes| ==> (nodes + [n])[..i] == nodes[..i]
  {
    var s := nodes + [n];
    assert s[|nodes|] == n;
    forall x | x in Ids(nodes) ensures x in Ids(s) {
      var i :| 0 <= i < |nodes| && nodes[i].id == x;
      assert s[i].id == x;
    }
  }

  /** Every link of the payload joins two nodes of the payload. */
  lemma LinksJoinKnownNodes(rels: seq<Option<GraphRel>>, nodes: seq<NetNode>, l: NetLink)
    requires l in LinksOf(rels, Ids(nodes))
    ensures exists i, j :: 0 <= i < |nodes| && 0 <= j < |nodes| && nodes[i].id == l.source && nodes[j].id == l.target
  {
    var links := LinksOf(rels, Ids(nodes));
    var k :| 0 <= k < |links| && links[k] == l;
    assert l.source in Ids(nodes) && l.target in Ids(nodes);
  }

  /** A relationship is linked exactly when it is well formed and both ends are known; the links
      appear in the order of the relationships. */
  lemma {:induction false} LinksOfKeepsExactly(rels: seq<Option<GraphRel>>, nodeMap: set<string>)
    ensures LinksOf(rels, nodeMap) == LinkList(rels, nodeMap)
    decreases |rels|
  {
    if rels != [] {
      var p := rels[..|rels| - 1];
      LinksOfKeepsExactly(p, nodeMap);
      LinkListAppend(p, rels[|rels| - 1], nodeMap);
      assert rels == p + [rels[|rels| - 1]];
    }
  }

  /** Every kept relationship gives a link, and every link comes from a kept relationship. */
  lemma {:induction false} LinksOfMembers(rels: seq<Option<GraphRel>>, nodeMap: set<string>)
    ensures forall r :: r in rels && r.Some? && Kept(r.value, nodeMap) ==> LinkOf(r.value) in LinksOf(rels, nodeMap)
    ensures forall l :: l in LinksOf(rels, nodeMap) ==>
      exists r :: r in rels && r.Some? && Kept(r.value, nodeMap) && l == LinkOf(r.value)
    decreases |rels|
  {
    if rels != [] {
      var p, last := rels[..|rels| - 1], rels[|rels| - 1];
      LinksOfMembers(p, nodeMap);
      assert rels == p + [last];
      forall r | r in rels && r.Some? && Kept(r.value, nodeMap)
        ensures LinkOf(r.value) in LinksOf(rels, nodeMap)
      {
        if r !in p {
          assert r == last;
        }
      }
      forall l | l in LinksOf(rels, nodeMap)
        ensures exists r :: r in rels && r.Some? && Kept(r.value, nodeMap) && l == LinkOf(r.value)
      {
        if l in LinksOf(p, nodeMap) {
          var r :| r in p && r.Some? && Kept(r.value, nodeMap) && l == LinkOf(r.value);
          assert r in rels;
        } else {
          assert last in rels && l == LinkOf(last.value);
        }
      }
    }
  }

  /** The same list read front to back: `[LinkOf(r) for r in rels if r kept]`. */
  function LinkList(rels: seq<Option<GraphRel>>, nodeMap: set<string>): seq<NetLink>
    decreases |rels|
  {
    if rels == [] then []
    else (if rels[0].Some? && Kept(rels[0].value, nodeMap) then [LinkOf(rels[0].value)] else [])
         + LinkList(rels[1..], nodeMap)
  }

  lemma {:induction false} LinkListAppend(rels: seq<Option<GraphRel>>, rel: Option<GraphRel>, nodeMap: set<string>)
    ensures LinkList(rels + [rel], nodeMap)
      == LinkList(rels, nodeMap) + (if rel.Some? && Kept(rel.value, nodeMap) then [LinkOf(rel.value)] else [])
    decreases |rels|
  {
    if rels != [] {
      LinkListAppend(rels[1..], rel, nodeMap);
      assert (rels + [rel])[1..] == rels[1..] + [rel];
    }
  }
}
