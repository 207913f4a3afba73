// The batch configuration generator (tools/batch-config-generator.js): the
// detector's result for each site of a fixed list, the report's confidence
// buckets, and the configuration entries it prints.

module BatchConfigGenerator {
  import opened Common
  import opened Css
  import opened Ranking
  import opened Detector

  /** An entry of `AI_SITES`. */
  datatype SiteEntry = SiteEntry(name: string, url: string, waitTime: nat)

  const AiSites: seq<SiteEntry> := [
    SiteEntry("ChatGPT", "https://chatgpt.com/", 3000),
    SiteEntry("Gemini", "https://gemini.google.com/", 3000),
    SiteEntry("Claude", "https://claude.ai/", 3000),
    SiteEntry("DeepSeek", "https://chat.deepseek.com/", 2000),
    SiteEntry("通义千问", "https://tongyi.aliyun.com/qianwen/", 3000),
    SiteEntry("文心一言", "https://yiyan.baidu.com/", 3000),
    SiteEntry("Kimi", "https://kimi.moonshot.cn/", 2000),
    SiteEntry("豆包", "https://www.doubao.com/", 2000),
    SiteEntry("Poe", "https://poe.com/", 3000),
    SiteEntry("Perplexity", "https://www.perplexity.ai/", 2000),
    SiteEntry("You.com", "https://you.com/", 2000),
    SiteEntry("HuggingChat", "https://huggingface.co/chat/", 3000)
  ]

  /** What `processOneSite` came back with: the detector's result, or the error it threw. */
  datatype Outcome = Detected(detection: Detection) | Threw(message: string)

  /** A successful site: the detector's result under the list's own name. */
  datatype SiteResult = SiteResult(siteName: string, detection: Detection)
  datatype SiteError = SiteError(site: string, error: string)

  /** How many of the outcomes are detections. */
  function DetectedCount(outcomes: seq<Outcome>): (n: nat)
    ensures n <= |outcomes|
  {
    if |outcomes| == 0 then 0
    else DetectedCount(outcomes[..|outcomes| - 1]) + (if outcomes[|outcomes| - 1].Detected? then 1 else 0)
  }

  /** How many of the outcomes are errors. */
  function ThrewCount(outcomes: seq<Outcome>): (n: nat)
    ensures n <= |outcomes|
  {
    if |outcomes| == 0 then 0
    else ThrewCount(outcomes[..|outcomes| - 1]) + (if outcomes[|outcomes| - 1].Threw? then 1 else 0)
  }

  /** Cutting a prefix of a prefix is cutting the sequence. */
  lemma PrefixOfPrefix<T>(s: seq<T>, n: nat)
    requires n <= |s|
    ensures forall k :: 0 <= k <= n ==> s[..n][..k] == s[..k]
  {
  }

  /**
   * The results, in list order, of the sites whose processing succeeded:
   * one per succeeding site, the site `k` at the position counting the
   * successes before it, and nothing else.
   */
  function Successes(sites: seq<SiteEntry>, outcomes: seq<Outcome>): (r: seq<SiteResult>)
    requires |outcomes| == |sites|
    ensures |r| == DetectedCount(outcomes)
    ensures forall k :: 0 <= k < |sites| && outcomes[k].Detected? ==>
      DetectedCount(outcomes[..k]) < |r| && r[DetectedCount(outcomes[..k])] == SiteResult(sites[k].name, outcomes[k].detection)
  {
    if |sites| == 0 then []
    else
      var n := |sites| - 1;
      var prev := Successes(sites[..n], outcomes[..n]);
      PrefixOfPrefix(outcomes, n);
      match outcomes[n]
      case Detected(d) => prev + [SiteResult(sites[n].name, d)]
      case Threw(_) => prev
  }

  /**
   * The errors, in list order, of the sites whose processing threw: one per
   * throwing site, at the position counting the errors before it, and
   * nothing else.
   */
  function Failures(sites: seq<SiteEntry>, outcomes: seq<Outcome>): (r: seq<SiteError>)
    requires |outcomes| == |sites|
    ensures |r| == ThrewCount(outcomes)
    ensures forall k :: 0 <= k < |sites| && outcomes[k].Threw? ==>
      ThrewCount(outcomes[..k]) < |r| && r[ThrewCount(outcomes[..k])] == SiteError(sites[k].name, outcomes[k].message)
  {
    if |sites| == 0 then []
    else
      var n := |sites| - 1;
      var prev := Failures(sites[..n], outcomes[..n]);
      PrefixOfPrefix(outcomes, n);
      match outcomes[n]
      case Detected(_) => prev
      case Threw(m) => prev + [SiteError(sites[n].name, m)]
  }

  /** Every result comes from a site whose processing succeeded, with that site's detection. */
  lemma {:induction false} SuccessesFromSites(sites: seq<SiteEntry>, outcomes: seq<Outcome>)
    requires |outcomes| == |sites|
    ensures forall x :: x in Successes(sites, outcomes) ==> exists k :: (0 <= k < |sites| && outcomes[k].Detected?
      && x == SiteResult(sites[k].name, outcomes[k].detection))
  {
    if |sites| > 0 {
      var n := |sites| - 1;
      SuccessesFromSites(sites[..n], outcomes[..n]);
    }
  }

  /** Every error comes from a site whose processing threw, with that site's message. */
  lemma {:induction false} FailuresFromSites(sites: seq<SiteEntry>, outcomes: seq<Outcome>)
    requires |outcomes| == |sites|
    ensures forall x :: x in Failures(sites, outcomes) ==> exists k :: (0 <= k < |sites| && outcomes[k].Threw?
      && x == SiteError(sites[k].name, outcomes[k].message))
  {
    if |sites| > 0 {
      var n := |sites| - 1;
      FailuresFromSites(sites[..n], outcomes[..n]);
    }
  }

  /** Each outcome is a detection or an error, so the two counts add up to the length. */
  lemma {:induction false} CountsSplit(outcomes: seq<Outcome>)
    ensures DetectedCount(outcomes) + ThrewCount(outcomes) == |outcomes|
  {
    if |outcomes| > 0 {
      CountsSplit(outcomes[..|outcomes| - 1]);
    }
  }

  /**
   * Every site lands in exactly one of the two lists: a site that succeeded
   * has its result among the results, a site that threw has its error among
   * the errors, and the two lists together are as long as the site list.
   */
  lemma EverySiteReported(sites: seq<SiteEntry>, outcomes: seq<Outcome>)
    requires |outcomes| == |sites|
    ensures |Successes(sites, outcomes)| + |Failures(sites, outcomes)| == |sites|
    ensures forall k :: 0 <= k < |sites| ==>
      match outcomes[k]
      case Detected(d) => SiteResult(sites[k].name, d) in Successes(sites, outcomes)
      case Threw(m) => SiteError(sites[k].name, m) in Failures(sites, outcomes)
  {
    CountsSplit(outcomes);
    var s := Successes(sites, outcomes);
    var f := Failures(sites, outcomes);
    forall k | 0 <= k < |sites|
      ensures match outcomes[k]
        case Detected(d) => SiteResult(sites[k].name, d) in s
        case Threw(m) => SiteError(sites[k].name, m) in f
    {
      if outcomes[k].Detected? {
        assert s[DetectedCount(outcomes[..k])] == SiteResult(sites[k].name, outcomes[k].detection);
      } else {
        assert f[ThrewCount(outcomes[..k])] == SiteError(sites[k].name, outcomes[k].message);
      }
    }
  }

  /** The loop of `generateAllConfigs` over a site list; `outcomes[i]` is what processing site `i` gave. */
  method CollectOutcomes(sites: seq<SiteEntry>, outcomes: seq<Outcome>)
    returns (results: seq<SiteResult>, errors: seq<SiteError>)
    requires |outcomes| == |sites|
    ensures results == Successes(sites, outcomes)
    ensures errors == Failures(sites, outcomes)
  {
    results := [];
    errors := [];
    var i := 0;
    while i < |sites|
      invariant 0 <= i <= |sites|
      invariant results == Successes(sites[..i], outcomes[..i])
      invariant errors == Failures(sites[..i], outcomes[..i])
    {
      assert sites[..i + 1][..i] == sites[..i];
      assert outcomes[..i + 1][..i] == outcomes[..i];
      if outcomes[i].Detected? {
        results := results + [SiteResult(sites[i].name, outcomes[i].detection)];
        assert results == Successes(sites[..i + 1], outcomes[..i + 1]);
      } else {
        errors := errors + [SiteError(sites[i].name, outcomes[i].message)];
        assert errors == Failures(sites[..i + 1], outcomes[..i + 1]);
      }
      i := i + 1;
    }
    assert sites[..i] == sites && outcomes[..i] == outcomes;
  }

  method GenerateAllConfigs(outcomes: seq<Outcome>) returns (results: seq<SiteResult>, errors: seq<SiteError>)
    requires |outcomes| == |AiSites|
    ensures results == Successes(AiSites, outcomes)
    ensures errors == Failures(AiSites, outcomes)
  {
    results, errors := CollectOutcomes(AiSites, outcomes);
  }

  // ---------------------------------------------------------------------
  // The report.

  predicate HighBucket(r: SiteResult) {
    r.detection.input.confidence >= 80 && r.detection.send.confidence >= 80
  }

  predicate MediumBucket(r: SiteResult) {
    (50 <= r.detection.input.confidence < 80) || (50 <= r.detection.send.confidence < 80)
  }

  function CountWhere(rs: seq<SiteResult>, p: SiteResult -> bool): (n: nat)
    ensures n <= |rs|
  {
    if |rs| == 0 then 0 else CountWhere(rs[..|rs| - 1], p) + (if p(rs[|rs| - 1]) then 1 else 0)
  }

  /** The report's three counts: high, medium, and the rest as low. */
  datatype Report = Report(total: nat, succeeded: nat, failed: nat, high: nat, medium: nat, low: int)

  function MakeReport(results: seq<SiteResult>, errors: seq<SiteError>): Report {
    var high := CountWhere(results, HighBucket);
    var medium := CountWhere(results, MediumBucket);
    Report(|results| + |errors|, |results|, |errors|, high, medium, |results| - high - medium)
  }

  /** Disjoint buckets: the high and medium counts together never exceed the results. */
  lemma {:induction false} HighMediumDisjoint(rs: seq<SiteResult>)
    ensures CountWhere(rs, HighBucket) + CountWhere(rs, MediumBucket)
         == CountWhere(rs, (r: SiteResult) => HighBucket(r) || MediumBucket(r))
  {
    if |rs| > 0 {
      HighMediumDisjoint(rs[..|rs| - 1]);
    }
  }

  /** The low count is never negative: it counts exactly the results in neither of the other buckets. */
  lemma {:induction false} LowCountsTheRest(rs: seq<SiteResult>)
    ensures MakeReport(rs, []).low == CountWhere(rs, (r: SiteResult) => !HighBucket(r) && !MediumBucket(r))
    ensures MakeReport(rs, []).low >= 0
  {
    HighMediumDisjoint(rs);
    SplitCount(rs, (r: SiteResult) => HighBucket(r) || MediumBucket(r), (r: SiteResult) => !HighBucket(r) && !MediumBucket(r));
  }

  lemma {:induction false} SplitCount(rs: seq<SiteResult>, p: SiteResult -> bool, q: SiteResult -> bool)
    requires forall r :: q(r) <==> !p(r)
    ensures CountWhere(rs, p) + CountWhere(rs, q) == |rs|
  {
    if |rs| > 0 {
      SplitCount(rs[..|rs| - 1], p, q);
    }
  }

  /** A result with one low score still counts as medium when the other score is medium. */
  lemma MediumMayHideLow()
    ensures var r := SiteResult("x", Detection("x", Choice(None, 30), Choice(None, 60)));
      MediumBucket(r) && LevelOf(r.detection.input.confidence) == Low
  {
  }

  /** `getConfidenceStatus`: each score classified on its own at 80 and 50. */
  function ConfidenceStatus(d: Detection): (r: (Level, Level))
    ensures r.0 == High <==> d.input.confidence >= 80
    ensures r.0 == Low <==> d.input.confidence < 50
    ensures r.1 == High <==> d.send.confidence >= 80
    ensures r.1 == Low <==> d.send.confidence < 50
  {
    (LevelOf(d.input.confidence), LevelOf(d.send.confidence))
  }

  /** The high bucket holds exactly the results whose two statuses are both high. */
  lemma HighBucketIsBothHigh(r: SiteResult)
    ensures HighBucket(r) <==> ConfidenceStatus(r.detection) == (High, High)
  {
  }

  // ---------------------------------------------------------------------
  // The generated `default-configs.js` entries.

  datatype Entry = Entry(siteId: string, name: string, inputSelector: string, sendButtonSelector: string,
                         inputConfidence: int, sendConfidence: int)

  /** The selector text the detector returns: the rendered selector, or `null`. */
  function SelectorText(c: Choice): Option<string> {
    match c.selector
    case None => None
    case Some(s) => Some(Render(s))
  }

  /** Both selectors were found (non-null, non-empty). */
  predicate HasBoth(d: Detection) {
    Given(SelectorText(d.input)) && Given(SelectorText(d.send))
  }

  function EntryOf(r: SiteResult): Entry
    requires HasBoth(r.detection)
  {
    Entry(r.detection.siteId, ShortName(r.siteName), SelectorText(r.detection.input).value,
          SelectorText(r.detection.send).value, r.detection.input.confidence, r.detection.send.confidence)
  }

  /** `x` is the entry emitted for result `k`. */
  predicate EntryFor(x: Entry, results: seq<SiteResult>, k: int) {
    0 <= k < |results| && HasBoth(results[k].detection) && x == EntryOf(results[k])
  }

  /** What `generateConfigCode` prints for one result: its entry when it has both selectors. */
  function Emitted(r: SiteResult): Option<Entry> {
    if HasBoth(r.detection) then Some(EntryOf(r)) else None
  }

  /** How many of the first `n` elements `f` keeps. */
  function KeptCount<T, U>(xs: seq<T>, f: T -> Option<U>, n: nat): (c: nat)
    requires n <= |xs|
    ensures c <= n
  {
    if n == 0 then 0
    else KeptCount(xs, f, n - 1) + (if f(xs[n - 1]).Some? then 1 else 0)
  }

  /** The values `f` gives for the first `n` elements, in order, skipping the `None`s. */
  function Kept<T, U>(xs: seq<T>, f: T -> Option<U>, n: nat): (r: seq<U>)
    requires n <= |xs|
    ensures |r| == KeptCount(xs, f, n)
  {
    if n == 0 then []
    else
      var prev := Kept(xs, f, n - 1);
      match f(xs[n - 1])
      case Some(v) => prev + [v]
      case None => prev
  }

  /** Each kept value sits after the values kept before it. */
  lemma {:induction false} KeptPlaced<T, U>(xs: seq<T>, f: T -> Option<U>, n: nat)
    requires n <= |xs|
    ensures forall k :: 0 <= k < n && f(xs[k]).Some? ==>
      KeptCount(xs, f, k) < |Kept(xs, f, n)| && Kept(xs, f, n)[KeptCount(xs, f, k)] == f(xs[k]).value
  {
    if n > 0 {
      KeptPlaced(xs, f, n - 1);
    }
  }

  /** Nothing but kept values is kept. */
  lemma {:induction false} KeptFrom<T, U>(xs: seq<T>, f: T -> Option<U>, n: nat)
    requires n <= |xs|
    ensures forall v :: v in Kept(xs, f, n) ==> exists k :: 0 <= k < n && f(xs[k]) == Some(v)
  {
    if n > 0 {
      KeptFrom(xs, f, n - 1);
    }
  }

  /** How many of the first `n` results have both selectors. */
  function BothCount(results: seq<SiteResult>, n: nat): (c: nat)
    requires n <= |results|
    ensures c <= n
  {
    KeptCount(results, Emitted, n)
  }

  /**
   * `generateConfigCode` over the first `n` results: one entry per result
   * with both selectors, in order (`ConfigEntriesPlaced` places each one,
   * `ConfigEntriesFromResults` shows nothing else is emitted).
   */
  function ConfigEntries(results: seq<SiteResult>, n: nat): (r: seq<Entry>)
    requires n <= |results|
    ensures |r| == BothCount(results, n)
  {
    Kept(results, Emitted, n)
  }

  /**
   * The entry of each result with both selectors is emitted, after the
   * entries of the qualifying results before it.
   */
  lemma ConfigEntriesPlaced(results: seq<SiteResult>, n: nat)
    requires n <= |results|
    ensures forall k :: 0 <= k < n && HasBoth(results[k].detection) ==>
      BothCount(results, k) < |ConfigEntries(results, n)| && ConfigEntries(results, n)[BothCount(results, k)] == EntryOf(results[k])
  {
    KeptPlaced(results, Emitted, n);
  }

  /** Every entry among the first `n` results' entries is the entry of a result with both selectors. */
  lemma ConfigEntriesFromResults(results: seq<SiteResult>, n: nat)
    requires n <= |results|
    ensures forall x :: x in ConfigEntries(results, n) ==> exists k :: 0 <= k < n && EntryFor(x, results, k)
  {
    KeptFrom(results, Emitted, n);
    forall x | x in ConfigEntries(results, n)
      ensures exists k :: 0 <= k < n && EntryFor(x, results, k)
    {
      var k :| 0 <= k < n && Emitted(results[k]) == Some(x);
      assert EntryFor(x, results, k);
    }
  }

  /** Every emitted entry has non-empty selectors and a short name free of the title separators. */
  lemma {:induction false} EntriesWellFormed(results: seq<SiteResult>)
    ensures forall x :: x in ConfigEntries(results, |results|) ==>
      x.inputSelector != "" && x.sendButtonSelector != "" && !Contains(x.name, " - ") && !Contains(x.name, " | ")
  {
    ConfigEntriesFromResults(results, |results|);
    forall x | x in ConfigEntries(results, |results|)
      ensures x.inputSelector != "" && x.sendButtonSelector != "" && !Contains(x.name, " - ") && !Contains(x.name, " | ")
    {
      var k :| 0 <= k < |results| && EntryFor(x, results, k);
    }
  }
}
