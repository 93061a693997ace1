/** The dashboard's metrics panel: the guarded text and progress-bar updates, and the three
    outcomes of fetching `/api/metrics` (failure, no data, data). */
module MetricsPanel {
  import opened Wrappers
  import opened Text
  import Api

  // ---------------------------------------------------------------------------------------------
  // Text slots

  /** A value handed to `safeUpdateText`: a string, or a number shown in its display form. */
  datatype Value = Str(s: string) | Num(n: real)

  /** JavaScript truthiness of such a value: the empty string and zero are falsy. */
  predicate Truthy(v: Value) {
    match v
    case Str(s) => s != ""
    case Num(n) => n != 0.0
  }

  /** What a text slot holds: plain text, or the fraud count with its three rates as
      percentages to one decimal. */
  datatype Content = Plain(v: Value) | FraudSummary(count: real, precisionPct: real, recallPct: real, f1Pct: real)

  const Dash := Str("-")
  const ErrorWord := Str("Lỗi")

  /** `value || defaultValue`. */
  function Shown(v: Value, default: Value): (r: Value)
    ensures Truthy(v) ==> r == v
    ensures !Truthy(v) ==> r == default
  {
    if Truthy(v) then v else default
  }

  /** Writing a slot: an id with no element leaves every slot as it was. */
  function SetText(texts: map<string, Content>, id: string, c: Content): (t: map<string, Content>)
    ensures t.Keys == texts.Keys
    ensures id in texts ==> t[id] == c
    ensures forall k :: k in texts && k != id ==> t[k] == texts[k]
  {
    if id in texts then texts[id := c] else texts
  }

  /** The four summary slots, in the order they are written. */
  const SummarySlots := ["totalAccounts", "totalTransactions", "fraudCount", "highRiskCommunityCount"]

  /** The same content written to each id in turn. */
  function Fill(texts: map<string, Content>, ids: seq<string>, c: Content): map<string, Content>
    decreases |ids|
  {
    if ids == [] then texts else Fill(SetText(texts, ids[0], c), ids[1..], c)
  }

  /** Filling changes exactly the listed slots that exist, and nothing else. */
  lemma {:induction false} FillMeaning(texts: map<string, Content>, ids: seq<string>, c: Content)
    ensures Fill(texts, ids, c).Keys == texts.Keys
    ensures forall k :: k in texts ==> Fill(texts, ids, c)[k] == if k in ids then c else texts[k]
    decreases |ids|
  {
    if ids != [] {
      FillMeaning(SetText(texts, ids[0], c), ids[1..], c);
    }
  }

  // ---------------------------------------------------------------------------------------------
  // Progress bars

  /** `Math.round(x)`: the nearest integer, halves rounded up. */
  function Round(x: real): (n: int)
    ensures n as real - 0.5 <= x < n as real + 0.5
  {
    (x + 0.5).Floor
  }

  /** `Math.round(v * 10) / 10`: `v` to one decimal, a whole number of tenths within half a
      tenth of `v`. */
  function RoundTenth(v: real): (r: real)
    ensures (r * 10.0).Floor as real == r * 10.0
    ensures -0.05 < r - v <= 0.05
  {
    var n := Round(v * 10.0);
    assert n as real / 10.0 * 10.0 == n as real;
    n as real / 10.0
  }

  /** Rounding an already rounded value changes nothing. */
  lemma RoundTenthIdempotent(v: real)
    ensures RoundTenth(RoundTenth(v)) == RoundTenth(v)
  {
    var n := Round(v * 10.0);
    assert RoundTenth(v) * 10.0 == n as real;
    assert (n as real + 0.5).Floor == n;
  }

  /** A percentage stays a percentage after rounding. */
  lemma RoundTenthBounds(v: real)
    requires 0.0 <= v <= 100.0
    ensures 0.0 <= RoundTenth(v) <= 100.0
  {
    var n := Round(v * 10.0);
    assert 0 <= n <= 1000;
  }

  datatype Band = Success | Info | Warning | Danger

  /** `>= 80` success, `>= 60` info, `>= 40` warning, otherwise danger. */
  function BandOf(r: real): (b: Band)
    ensures b == Success <==> r >= 80.0
    ensures b == Info <==> 60.0 <= r < 80.0
    ensures b == Warning <==> 40.0 <= r < 60.0
    ensures b == Danger <==> r < 40.0
  {
    if r >= 80.0 then Success else if r >= 60.0 then Info else if r >= 40.0 then Warning else Danger
  }

  function BandClass(b: Band): string {
    match b
    case Success => "bg-success"
    case Info => "bg-info"
    case Warning => "bg-warning"
    case Danger => "bg-danger"
  }

  /** The four colour classes the update removes. */
  const BandClasses: set<string> := {"bg-success", "bg-info", "bg-warning", "bg-danger"}

  /** A bar element: `style.width`, `aria-valuenow` and the text as the numbers they show, and
      its class list. */
  datatype Bar = Bar(width: real, valueNow: real, text: real, classes: set<string>)

  /** The bar after `safeUpdateProgressBar(id, percent)`: width, `aria-valuenow` and text all carry
      the same rounded value, the bar carries exactly the one colour class that value selects, and
      its other classes are kept. */
  function UpdatedBar(bar: Bar, percent: real): (b: Bar)
    ensures b.width == b.valueNow == b.text == RoundTenth(percent)
    ensures -0.05 < b.width - percent <= 0.05
    ensures b.classes * BandClasses == {BandClass(BandOf(b.width))}
    ensures b.classes - BandClasses == bar.classes - BandClasses
  {
    var r := RoundTenth(percent);
    Bar(r, r, r, (bar.classes - BandClasses) + {BandClass(BandOf(r))})
  }

  /** Updating a bar twice with the same value is the same as updating it once. */
  lemma UpdatedBarIdempotent(bar: Bar, percent: real)
    ensures UpdatedBar(UpdatedBar(bar, percent), percent) == UpdatedBar(bar, percent)
  {
    var b := UpdatedBar(bar, percent);
    var b2 := UpdatedBar(b, percent);
    assert b2.classes == b.classes;
  }

  function SetBar(bars: map<string, Bar>, id: string, value: Option<real>): map<string, Bar> {
    if value.Some? && id in bars then bars[id := UpdatedBar(bars[id], value.value * 100.0)] else bars
  }

  // ---------------------------------------------------------------------------------------------
  // The metrics response

  /** `data.metrics` as the page reads it; a field the object lacks is `None`. */
  datatype Metrics = Metrics(
    accounts: Option<real>,
    transactions: Option<real>,
    detectedFraudTransactions: Option<real>,
    precision: Option<real>,
    recall: Option<real>,
    f1Score: Option<real>,
    highRiskCommunities: Option<real>)

  /** How the fetch ended: a rejected fetch or unreadable body, a status that is not ok, or the
      parsed body. */
  datatype MetricsResponse =
    | FetchFailed(message: string)
    | HttpFailed(status: int)
    | Received(hasData: bool, metrics: Option<Metrics>)

  /** The message of the error the promise chain ends in, if any. */
  function FailureMessage(r: MetricsResponse): (m: Option<string>)
    ensures m.Some? <==> !r.Received?
  {
    match r
    case FetchFailed(message) => Some(message)
    case HttpFailed(status) => Some("HTTP error! Status: " + IntToString(status))
    case Received(_, _) => None
  }

  /** `data.has_data && data.metrics`. */
  predicate Usable(r: MetricsResponse) {
    r.Received? && r.hasData && r.metrics.Some?
  }

  function BannerMessage(message: string): string {
    "Không thể tải dữ liệu metrics: " + message + ". Vui lòng làm mới trang."
  }

  /** `n ? n.toLocaleString() : "0"`, and likewise `n || "0"`: a missing or zero count is "0". */
  function CountText(n: Option<real>): (v: Value)
    ensures Truthy(v)
    ensures v == Str("0") <==> n.None? || n.value == 0.0
    ensures v != Str("0") ==> v == Num(n.value)
  {
    if n.Some? && n.value != 0.0 then Num(n.value) else Str("0")
  }

  /** `x || 0` for a number. */
  function OrZero(x: Option<real>): real {
    x.GetOr(0.0)
  }

  /** The fraud-count block: the count and the three rates as percentages to one decimal. */
  function FraudSummaryOf(m: Metrics): Content {
    FraudSummary(OrZero(m.detectedFraudTransactions),
      RoundTenth(OrZero(m.precision) * 100.0), RoundTenth(OrZero(m.recall) * 100.0), RoundTenth(OrZero(m.f1Score) * 100.0))
  }

  /** The four slots after a usable response, written in the page's order. */
  function SuccessTexts(texts: map<string, Content>, m: Metrics): map<string, Content> {
    var t1 := SetText(texts, "totalAccounts", Plain(Shown(CountText(m.accounts), Dash)));
    var t2 := SetText(t1, "totalTransactions", Plain(Shown(CountText(m.transactions), Dash)));
    var t3 := SetText(t2, "fraudCount", FraudSummaryOf(m));
    SetText(t3, "highRiskCommunityCount", Plain(Shown(CountText(m.highRiskCommunities), Dash)))
  }

  /** The three bars after a usable response. */
  function SuccessBars(bars: map<string, Bar>, m: Metrics): map<string, Bar> {
    SetBar(SetBar(SetBar(bars, "precision-bar", m.precision), "recall-bar", m.recall), "f1-bar", m.f1Score)
  }

  /** The metric a bar shows. */
  function BarField(m: Metrics, id: string): Option<real> {
    if id == "precision-bar" then m.precision
    else if id == "recall-bar" then m.recall
    else if id == "f1-bar" then m.f1Score
    else None
  }

  /** The text slots after a response. No response adds a slot or touches one outside the four
      summary slots. */
  function TextsAfter(texts: map<string, Content>, r: MetricsResponse): (t: map<string, Content>)
    ensures t.Keys == texts.Keys
    ensures forall id :: id in texts && id !in SummarySlots ==> t[id] == texts[id]
  {
    FillMeaning(texts, SummarySlots, Plain(ErrorWord));
    FillMeaning(texts, SummarySlots, Plain(Dash));
    if FailureMessage(r).Some? then Fill(texts, SummarySlots, Plain(ErrorWord))
    else if Usable(r) then SuccessTexts(texts, r.metrics.value)
    else Fill(texts, SummarySlots, Plain(Dash))
  }

  /** The bars after a response: only a usable one touches them, and only the three metric
      bars. */
  function BarsAfter(bars: map<string, Bar>, r: MetricsResponse): (b: map<string, Bar>)
    ensures b.Keys == bars.Keys
    ensures forall id :: id in bars && id != "precision-bar" && id != "recall-bar" && id != "f1-bar" ==> b[id] == bars[id]
    ensures !Usable(r) ==> b == bars
  {
    if Usable(r) then SuccessBars(bars, r.metrics.value) else bars
  }

  /** A usable response writes a count or the fraud summary to each existing summary slot, never
      the dash or the error word. */
  lemma SuccessTextsMeaning(texts: map<string, Content>, m: Metrics, id: string)
    requires id in SummarySlots && id in texts
    ensures id in SuccessTexts(texts, m)
    ensures SuccessTexts(texts, m)[id] != Plain(Dash) && SuccessTexts(texts, m)[id] != Plain(ErrorWord)
  {
    var t1 := SetText(texts, "totalAccounts", Plain(Shown(CountText(m.accounts), Dash)));
    var t2 := SetText(t1, "totalTransactions", Plain(Shown(CountText(m.transactions), Dash)));
    var t3 := SetText(t2, "fraudCount", FraudSummaryOf(m));
    var t4 := SetText(t3, "highRiskCommunityCount", Plain(Shown(CountText(m.highRiskCommunities), Dash)));
    assert t4 == SuccessTexts(texts, m);
    var c := t4[id];
    if id == "highRiskCommunityCount" {
      assert c == Plain(CountText(m.highRiskCommunities));
    } else if id == "fraudCount" {
      assert c == FraudSummaryOf(m);
    } else if id == "totalTransactions" {
      assert c == Plain(CountText(m.transactions));
    } else {
      assert c == Plain(CountText(m.accounts));
    }
  }

  /** Each existing summary slot shows the error word exactly on a failure, and the dash exactly
      when the body has no usable data; a usable body never falls back to the dash. */
  lemma SummarySlotOutcome(texts: map<string, Content>, r: MetricsResponse, id: string)
    requires id in SummarySlots && id in texts
    ensures id in TextsAfter(texts, r)
    ensures TextsAfter(texts, r)[id] == Plain(ErrorWord) <==> !r.Received?
    ensures TextsAfter(texts, r)[id] == Plain(Dash) <==> r.Received? && !Usable(r)
  {
    assert ErrorWord.s[0] != Dash.s[0];
    if !r.Received? {
      FillMeaning(texts, SummarySlots, Plain(ErrorWord));
    } else if Usable(r) {
      SuccessTextsMeaning(texts, r.metrics.value, id);
    } else {
      FillMeaning(texts, SummarySlots, Plain(Dash));
    }
  }

  /** A bar changes only on a usable response whose metric for it is defined, and then it shows
      that metric as a percentage. */
  lemma BarOutcome(bars: map<string, Bar>, r: MetricsResponse, id: string)
    requires id in bars
    ensures BarsAfter(bars, r).Keys == bars.Keys
    ensures Usable(r) && BarField(r.metrics.value, id).Some? ==>
      BarsAfter(bars, r)[id] == UpdatedBar(bars[id], BarField(r.metrics.value, id).value * 100.0)
    ensures !(Usable(r) && BarField(r.metrics.value, id).Some?) ==> BarsAfter(bars, r)[id] == bars[id]
  {
  }

  /** The metrics object `get_metrics` sends, as the page reads it: every count is present, and the
      three rates are present exactly when the validation block produced them. */
  function ClientMetrics(p: Api.MetricsPayload): (m: Metrics)
    ensures m.accounts == Some(p.accounts as real) && m.transactions == Some(p.transactions as real)
    ensures m.detectedFraudTransactions == Some(p.detectedFraudTransactions as real)
    ensures m.highRiskCommunities == Some(p.highRiskCommunities as real)
    ensures m.precision.Some? <==> p.rates.Some?
    ensures m.recall.Some? <==> p.rates.Some?
    ensures m.f1Score.Some? <==> p.rates.Some?
    ensures p.rates.Some? ==>
      && m.precision.value == p.rates.value.precision
      && m.recall.value == p.rates.value.recall
      && m.f1Score.value == p.rates.value.f1Score
  {
    Metrics(Some(p.accounts as real), Some(p.transactions as real), Some(p.detectedFraudTransactions as real),
      if p.rates.Some? then Some(p.rates.value.precision) else None,
      if p.rates.Some? then Some(p.rates.value.recall) else None,
      if p.rates.Some? then Some(p.rates.value.f1Score) else None,
      Some(p.highRiskCommunities as real))
  }

  /** Fed the server's payload, a bar moves exactly when the validation rates were produced, and
      rates in [0, 1] give a bar between 0% and 100%. */
  lemma PayloadBars(bars: map<string, Bar>, p: Api.MetricsPayload, id: string)
    requires id in bars && id in {"precision-bar", "recall-bar", "f1-bar"}
    requires p.rates.Some? ==>
      0.0 <= p.rates.value.precision <= 1.0 && 0.0 <= p.rates.value.recall <= 1.0 && 0.0 <= p.rates.value.f1Score <= 1.0
    ensures var after := BarsAfter(bars, Received(true, Some(ClientMetrics(p))));
      && (p.rates.None? ==> after[id] == bars[id])
      && (p.rates.Some? ==> 0.0 <= after[id].width <= 100.0)
  {
    var m := ClientMetrics(p);
    BarOutcome(bars, Received(true, Some(m)), id);
    if p.rates.Some? {
      var v := BarField(m, id).value;
      assert 0.0 <= v <= 1.0;
      RoundTenthBounds(v * 100.0);
    }
  }

  // ---------------------------------------------------------------------------------------------
  // The page

  /** The panel's elements: the text slots and bars present in the page (an id absent from the
      map has no element), and the optional `.metrics-error` banner. */
  class Dashboard {
    var texts: map<string, Content>
    var bars: map<string, Bar>
    const hasBanner: bool
    var bannerHidden: bool
    var bannerText: string

    constructor (texts0: map<string, Content>, bars0: map<string, Bar>, hasBanner0: bool, bannerText0: string)
      ensures texts == texts0 && bars == bars0 && hasBanner == hasBanner0
      ensures bannerHidden && bannerText == bannerText0
    {
      texts := texts0;
      bars := bars0;
      hasBanner := hasBanner0;
      bannerHidden := true;
      bannerText := bannerText0;
    }

    /** `safeUpdateText(id, value, defaultValue)`. */
    method SafeUpdateText(id: string, value: Value, default: Value)
      modifies this`texts
      ensures texts == SetText(old(texts), id, Plain(Shown(value, default)))
    {
      if id in texts {
        texts := texts[id := Plain(Shown(value, default))];
      }
    }

    /** `safeUpdateProgressBar(id, percent)`. */
    method SafeUpdateProgressBar(id: string, percent: real)
      modifies this`bars
      ensures texts == old(texts)
      ensures id in old(bars) ==> bars == old(bars)[id := UpdatedBar(old(bars)[id], percent)]
      ensures id !in old(bars) ==> bars == old(bars)
    {
      if id in bars {
        var bar := bars[id];
        var rounded := RoundTenth(percent);
        var classes := bar.classes - BandClasses;
        var band := BandOf(rounded);
        bars := bars[id := Bar(rounded, rounded, rounded, classes + {BandClass(band)})];
      }
    }

    /** The settled `fetchAndUpdateMetrics()` promise chain. */
    method ApplyResponse(response: MetricsResponse)
      modifies this
      ensures texts == TextsAfter(old(texts), response)
      ensures bars == BarsAfter(old(bars), response)
      ensures !hasBanner || (response.Received? && !Usable(response)) ==>
        bannerHidden == old(bannerHidden) && bannerText == old(bannerText)
      ensures hasBanner && !response.Received? ==>
        !bannerHidden && bannerText == BannerMessage(FailureMessage(response).value)
      ensures hasBanner && Usable(response) ==> bannerHidden && bannerText == old(bannerText)
    {
      var failure := FailureMessage(response);
      if failure.Some? {
        ShowFailure(failure.value);
      } else if Usable(response) {
        ShowMetrics(response.metrics.value);
      } else {
        FillSummary(Dash);
      }
    }

    /** The four summary slots get the same word, in the page's order. */
    method FillSummary(word: Value)
      requires Truthy(word)
      modifies this`texts
      ensures texts == Fill(old(texts), SummarySlots, Plain(word))
    {
      ghost var t0 := texts;
      SafeUpdateText("totalAccounts", word, Dash);
      SafeUpdateText("totalTransactions", word, Dash);
      SafeUpdateText("fraudCount", word, Dash);
      SafeUpdateText("highRiskCommunityCount", word, Dash);
      assert SummarySlots[1..][1..][1..][1..] == [];
    }

    /** The `catch` branch. */
    method ShowFailure(message: string)
      modifies this`texts, this`bannerHidden, this`bannerText
      ensures texts == Fill(old(texts), SummarySlots, Plain(ErrorWord))
      ensures hasBanner ==> !bannerHidden && bannerText == BannerMessage(message)
      ensures !hasBanner ==> bannerHidden == old(bannerHidden) && bannerText == old(bannerText)
    {
      FillSummary(ErrorWord);
      if hasBanner {
        bannerHidden := false;
        bannerText := BannerMessage(message);
      }
    }

    /** The branch for a body with data. */
    method ShowMetrics(m: Metrics)
      modifies this`texts, this`bars, this`bannerHidden
      ensures texts == SuccessTexts(old(texts), m)
      ensures bars == SuccessBars(old(bars), m)
      ensures hasBanner ==> bannerHidden
      ensures !hasBanner ==> bannerHidden == old(bannerHidden)
    {
      WriteCounts(m);
      WriteBars(m);
      if hasBanner {
        bannerHidden := true;
      }
    }

    /** The two counts, the fraud-count block and the community count. */
    method WriteCounts(m: Metrics)
      modifies this`texts
      ensures texts == SuccessTexts(old(texts), m)
    {
      SafeUpdateText("totalAccounts", CountText(m.accounts), Dash);
      SafeUpdateText("totalTransactions", CountText(m.transactions), Dash);
      if "fraudCount" in texts {
        texts := texts["fraudCount" := FraudSummaryOf(m)];
      }
      SafeUpdateText("highRiskCommunityCount", CountText(m.highRiskCommunities), Dash);
    }

    /** Each bar whose metric is defined. */
    method WriteBars(m: Metrics)
      modifies this`bars
      ensures bars == SuccessBars(old(bars), m)
    {
      ghost var b0 := bars;
      if m.precision.Some? {
        SafeUpdateProgressBar("precision-bar", m.precision.value * 100.0);
      }
      ghost var b1 := bars;
      assert b1 == SetBar(b0, "precision-bar", m.precision);
      if m.recall.Some? {
        SafeUpdateProgressBar("recall-bar", m.recall.value * 100.0);
      }
      ghost var b2 := bars;
      assert b2 == SetBar(b1, "recall-bar", m.recall);
      if m.f1Score.Some? {
        SafeUpdateProgressBar("f1-bar", m.f1Score.value * 100.0);
      }
    }

    /** The refresh button: hide the banner, then fetch again. */
    method Refresh(response: MetricsResponse)
      modifies this
      ensures texts == TextsAfter(old(texts), response)
      ensures bars == BarsAfter(old(bars), response)
      ensures hasBanner ==> (bannerHidden <==> response.Received?)
      ensures !hasBanner ==> bannerHidden == old(bannerHidden)
    {
      if hasBanner {
        bannerHidden := true;
      }
      ApplyResponse(response);
    }
  }
}
