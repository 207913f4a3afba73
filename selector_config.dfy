// The configuration wizard page (selector-config/selector-config.js): the
// normalisation of legacy configuration keys, the list of sites offered for
// configuration, their status and icon, the wizard's steps, and how picked
// selectors are saved.

module SelectorConfig {
  import opened Common
  import opened SiteIds
  import opened Sites
  import opened SiteConfigs

  // ---------------------------------------------------------------------
  // Legacy keys.

  /** Old short keys and the site ids they stand for. */
  const HostMap: map<string, string> := map[
    "chatgpt" := "chatgpt_com",
    "gemini" := "gemini_google_com",
    "claude" := "claude_ai",
    "qwen" := "chat_qwen_ai",
    "deepseek" := "chat_deepseek_com",
    "kimi" := "kimi_moonshot_cn"
  ]

  /** Every target of the legacy table is already in site-id form (it contains `_`). */
  lemma HostTargetsHaveUnderscore()
    ensures forall k :: k in HostMap ==> Contains(HostMap[k], "_")
  {
    forall k | k in HostMap ensures Contains(HostMap[k], "_") {
      if k == "chatgpt" {
        UnderscoreAt(HostMap[k], 7);
      } else if k == "gemini" || k == "claude" {
        UnderscoreAt(HostMap[k], 6);
      } else {
        UnderscoreAt(HostMap[k], 4);
      }
    }
  }

  lemma UnderscoreAt(s: string, k: nat)
    requires k < |s| && s[k] == '_'
    ensures Contains(s, "_")
  {
    assert s[k..k + 1] == "_";
    OccurrenceGivesContains(s, "_", k);
  }

  /** A key with `_` is kept; any other is looked up, lower-cased, in the legacy table, and kept when absent. */
  function NormalizeKey(key: string): (r: string)
    ensures Contains(key, "_") ==> r == key
    ensures !Contains(key, "_") && Lower(key) in HostMap ==> r == HostMap[Lower(key)]
    ensures !Contains(key, "_") && Lower(key) !in HostMap ==> r == key
  {
    if Contains(key, "_") then key
    else if Lower(key) in HostMap then HostMap[Lower(key)]
    else key
  }

  /** Normalising twice is normalising once. */
  lemma NormalizeKeyIdempotent(key: string)
    ensures NormalizeKey(NormalizeKey(key)) == NormalizeKey(key)
  {
    if !Contains(key, "_") && Lower(key) in HostMap {
      HostTargetsHaveUnderscore();
    }
  }

  /** `normalizedConfigs` after the loop over `Object.entries(allConfigs)`: a later entry overwrites an earlier one with the same new key. */
  function Normalized(entries: seq<(string, SiteConfig)>): (r: map<string, SiteConfig>)
    ensures r.Keys == set e | e in entries :: NormalizeKey(e.0)
  {
    if |entries| == 0 then map[]
    else
      var init := entries[..|entries| - 1];
      var last := entries[|entries| - 1];
      assert forall e :: e in entries <==> e in init || e == last;
      Normalized(init)[NormalizeKey(last.0) := last.1]
  }

  /** Each normalised key holds the config of the last entry that normalises to it. */
  lemma {:induction false} NormalizedLastWins(entries: seq<(string, SiteConfig)>, i: nat)
    requires i < |entries|
    requires forall j :: i < j < |entries| ==> NormalizeKey(entries[j].0) != NormalizeKey(entries[i].0)
    ensures Normalized(entries)[NormalizeKey(entries[i].0)] == entries[i].1
  {
    var init := entries[..|entries| - 1];
    if i < |entries| - 1 {
      assert entries[i] in init;
      assert forall j :: i < j < |init| ==> init[j] == entries[j];
      NormalizedLastWins(init, i);
    }
  }

  /** One more entry overwrites its normalised key. */
  lemma NormalizedPrefixStep(entries: seq<(string, SiteConfig)>, i: nat)
    requires i < |entries|
    ensures Normalized(entries[..i + 1]) == Normalized(entries[..i])[NormalizeKey(entries[i].0) := entries[i].1]
  {
    assert entries[..i + 1][..i] == entries[..i];
  }

  /** The loop of `loadExistingConfigs` that builds `normalizedConfigs`. */
  method NormalizeConfigs(entries: seq<(string, SiteConfig)>) returns (normalized: map<string, SiteConfig>)
    ensures normalized == Normalized(entries)
  {
    normalized := map[];
    var i := 0;
    while i < |entries|
      invariant 0 <= i <= |entries|
      invariant normalized == Normalized(entries[..i])
    {
      normalized := NormalizeEntry(entries, i, normalized);
      i := i + 1;
    }
    assert entries[..i] == entries;
  }

  /** One turn of that loop: the entry's key is normalised and the entry stored under it. */
  method NormalizeEntry(entries: seq<(string, SiteConfig)>, i: nat, normalized: map<string, SiteConfig>)
    returns (normalized': map<string, SiteConfig>)
    requires i < |entries| && normalized == Normalized(entries[..i])
    ensures normalized' == Normalized(entries[..i + 1])
  {
    NormalizedPrefixStep(entries, i);
    var key := entries[i].0;
    var newKey;
    if Contains(key, "_") {
      newKey := key;
    } else if Lower(key) in HostMap {
      newKey := HostMap[Lower(key)];
    } else {
      newKey := key;
    }
    normalized' := normalized[newKey := entries[i].1];
  }

  /** Storage is rewritten when the (sorted) key lists differ, that is when the key sets differ. */
  predicate KeysChanged(entries: seq<(string, SiteConfig)>) {
    (set e | e in entries :: e.0) != Normalized(entries).Keys
  }

  /** A map loaded from what a previous load stored is never rewritten again. */
  lemma SecondLoadKeepsKeys(first: seq<(string, SiteConfig)>, second: seq<(string, SiteConfig)>)
    requires (set e | e in second :: e.0) == Normalized(first).Keys
    ensures !KeysChanged(second)
  {
    forall e | e in second ensures NormalizeKey(e.0) == e.0 {
      assert e.0 in Normalized(first).Keys;
      var f :| f in first && NormalizeKey(f.0) == e.0;
      NormalizeKeyIdempotent(f.0);
    }
    var before := set e | e in second :: e.0;
    var after := Normalized(second).Keys;
    assert before == after by {
      forall k | k in after ensures k in before {
        var e :| e in second && NormalizeKey(e.0) == k;
      }
      forall k | k in before ensures k in after {
        var e :| e in second && e.0 == k;
      }
    }
  }

  /** A legacy key that the table knows is always rewritten. */
  lemma LegacyKeyIsRewritten(c: SiteConfig)
    ensures KeysChanged([("ChatGPT", c)])
  {
    ChatGptEntryKeys(c);
  }

  lemma ChatGptEntryKeys(c: SiteConfig)
    ensures Normalized([("ChatGPT", c)]).Keys == {"chatgpt_com"}
    ensures (set e | e in [("ChatGPT", c)] :: e.0) == {"ChatGPT"}
  {
    ChatGptKeyNormalized();
  }

  lemma ChatGptKeyNormalized()
    ensures NormalizeKey("ChatGPT") == "chatgpt_com"
  {
    ChatGptLowered();
    ChatGptHasNoUnderscore();
  }

  lemma ChatGptLowered()
    ensures Lower("ChatGPT") == "chatgpt"
  {
  }

  lemma ChatGptHasNoUnderscore()
    ensures !Contains("ChatGPT", "_")
  {
    var key := "ChatGPT";
    ContainsIffOccurs(key, "_");
    forall k | 0 <= k && k + 1 <= |key| ensures !OccursAt(key, "_", k) {
      assert key[k..k + 1][0] == key[k] != '_';
    }
  }

  // ---------------------------------------------------------------------
  // The sites listed on step 1.

  /** Tab `i` is the first of its hostname. */
  predicate FirstOfHost(tabs: seq<Tab>, i: nat)
    requires i < |tabs|
  {
    forall j :: 0 <= j < i ==> tabs[j].hostname != tabs[i].hostname
  }

  /** The first tab of each hostname among the first `n`, in order. */
  function FirstPerHost(tabs: seq<Tab>, n: nat): (r: seq<Tab>)
    requires n <= |tabs|
    ensures |r| <= n
    ensures forall t :: t in r <==> exists i :: 0 <= i < n && FirstOfHost(tabs, i) && t == tabs[i]
  {
    if n == 0 then []
    else if FirstOfHost(tabs, n - 1) then FirstPerHost(tabs, n - 1) + [tabs[n - 1]]
    else FirstPerHost(tabs, n - 1)
  }

  /** The hostname of tab `i` is represented in the result: by the first tab with that hostname. */
  lemma {:induction false} FirstPerHostCovers(tabs: seq<Tab>, n: nat, i: nat)
    requires i < n <= |tabs|
    ensures exists k :: 0 <= k < |FirstPerHost(tabs, n)| && FirstPerHost(tabs, n)[k].hostname == tabs[i].hostname
  {
    var prev := FirstPerHost(tabs, n - 1);
    if i < n - 1 {
      FirstPerHostCovers(tabs, n - 1, i);
      var k :| 0 <= k < |prev| && prev[k].hostname == tabs[i].hostname;
      assert FirstPerHost(tabs, n)[k] == prev[k];
    } else if FirstOfHost(tabs, n - 1) {
      assert FirstPerHost(tabs, n)[|prev|] == tabs[i];
    } else {
      var j :| 0 <= j < n - 1 && tabs[j].hostname == tabs[n - 1].hostname;
      FirstPerHostCovers(tabs, n - 1, j);
      var k :| 0 <= k < |prev| && prev[k].hostname == tabs[j].hostname;
      assert FirstPerHost(tabs, n)[k] == prev[k];
    }
  }

  /** No hostname appears twice in the result. */
  lemma {:induction false} FirstPerHostDistinct(tabs: seq<Tab>, n: nat)
    requires n <= |tabs|
    ensures forall a, b :: 0 <= a < b < |FirstPerHost(tabs, n)| ==> FirstPerHost(tabs, n)[a].hostname != FirstPerHost(tabs, n)[b].hostname
  {
    if n > 0 {
      FirstPerHostDistinct(tabs, n - 1);
      var prev := FirstPerHost(tabs, n - 1);
      if FirstOfHost(tabs, n - 1) {
        forall a | 0 <= a < |prev| ensures prev[a].hostname != tabs[n - 1].hostname {
          assert prev[a] in prev;
        }
      }
    }
  }

  /** The tab fallback of `renderAIList`: eligible tabs, then a `seenHosts` set. */
  method UniqueTabs(tabs: seq<Tab>) returns (unique: seq<Tab>)
    ensures unique == FirstPerHost(EligibleTabs(tabs), |EligibleTabs(tabs)|)
  {
    var valid := EligibleTabs(tabs);
    var seen: set<string> := {};
    unique := [];
    var i := 0;
    while i < |valid|
      invariant 0 <= i <= |valid|
      invariant seen == set j | 0 <= j < i :: valid[j].hostname
      invariant unique == FirstPerHost(valid, i)
    {
      seen, unique := UniqueStep(valid, i, seen, unique);
      i := i + 1;
    }
  }

  /** One turn of the `seenHosts` loop: a tab joins the result when its hostname is new. */
  method UniqueStep(tabs: seq<Tab>, i: nat, seen: set<string>, unique: seq<Tab>) returns (seen': set<string>, unique': seq<Tab>)
    requires i < |tabs|
    requires seen == set j | 0 <= j < i :: tabs[j].hostname
    requires unique == FirstPerHost(tabs, i)
    ensures seen' == set j | 0 <= j < i + 1 :: tabs[j].hostname
    ensures unique' == FirstPerHost(tabs, i + 1)
  {
    SeenStep(tabs, i);
    unique' := unique;
    if tabs[i].hostname !in seen {
      unique' := unique + [tabs[i]];
    }
    seen' := seen + {tabs[i].hostname};
  }

  /** The hostnames seen before tab `i`: its own is among them exactly when it is not the first of its hostname. */
  lemma SeenStep(tabs: seq<Tab>, i: nat)
    requires i < |tabs|
    ensures (set j | 0 <= j < i + 1 :: tabs[j].hostname) == (set j | 0 <= j < i :: tabs[j].hostname) + {tabs[i].hostname}
    ensures tabs[i].hostname in (set j | 0 <= j < i :: tabs[j].hostname) <==> !FirstOfHost(tabs, i)
  {
    if tabs[i].hostname in (set j | 0 <= j < i :: tabs[j].hostname) {
      var j :| 0 <= j < i && tabs[j].hostname == tabs[i].hostname;
    }
  }

  /** What a card is made from: a URL, a title and the URL's hostname. */
  datatype Listed = Listed(url: string, title: string, hostname: string)

  /**
   * The sites listed: those of the current split view when there are any,
   * otherwise the unique eligible tabs of the window. `hostOf` stands for
   * `new URL(url).hostname`.
   */
  function ListedSites(splitSites: seq<Site>, unique: seq<Tab>, hostOf: string -> string): (r: seq<Listed>)
    ensures |splitSites| > 0 ==> |r| == |splitSites|
    ensures |splitSites| > 0 ==> forall k :: 0 <= k < |r| ==> r[k] == Listed(splitSites[k].url, splitSites[k].name, hostOf(splitSites[k].url))
    ensures |splitSites| == 0 ==> |r| == |unique|
    ensures |splitSites| == 0 ==> forall k :: 0 <= k < |r| ==> r[k] == Listed(unique[k].url, unique[k].title, unique[k].hostname)
  {
    if |splitSites| > 0 then seq(|splitSites|, k requires 0 <= k < |splitSites| =>
      Listed(splitSites[k].url, splitSites[k].name, hostOf(splitSites[k].url)))
    else seq(|unique|, k requires 0 <= k < |unique| => Listed(unique[k].url, unique[k].title, unique[k].hostname))
  }

  // ---------------------------------------------------------------------
  // Status, icon and display name.

  datatype Status = UserConfigured | PresetConfigured | NotConfigured

  /** The user's own configuration wins over a preset, and a preset over none. */
  function StatusOf(siteId: string, allConfigs: map<string, SiteConfig>): (r: Status)
    ensures r == UserConfigured <==> siteId in allConfigs
    ensures r == PresetConfigured <==> siteId !in allConfigs && siteId in DefaultConfigs
    ensures r == NotConfigured <==> siteId !in allConfigs && siteId !in DefaultConfigs
  {
    if siteId in allConfigs then UserConfigured
    else if siteId in DefaultConfigs then PresetConfigured
    else NotConfigured
  }

  /** A card on step 1. */
  datatype Card = Card(siteId: string, name: string, icon: string, status: Status, configured: bool)

  function CardOf(l: Listed, allConfigs: map<string, SiteConfig>): (r: Card)
    ensures r.siteId == SiteId(l.hostname) && IsSiteIdShape(r.siteId)
    ensures r.name == (if l.title != "" then l.title else l.hostname)
    ensures r.status == StatusOf(r.siteId, allConfigs) && r.icon == IconForSite(l.hostname)
    ensures r.configured <==> r.status != NotConfigured
    ensures r.configured <==> r.siteId in allConfigs || r.siteId in DefaultConfigs
  {
    SiteIdShape(l.hostname);
    var id := SiteId(l.hostname);
    var status := StatusOf(id, allConfigs);
    Card(id, if l.title != "" then l.title else l.hostname, IconForSite(l.hostname), status, status != NotConfigured)
  }

  /** The icon table, in its declared order. */
  const IconMap: seq<(string, string)> := [
    ("chatgpt.com", "💬"), ("openai.com", "💬"),
    ("gemini.google.com", "🌟"), ("bard.google.com", "🌟"),
    ("claude.ai", "🧠"), ("anthropic.com", "🧠"),
    ("chat.deepseek.com", "🔍"), ("deepseek.com", "🔍"),
    ("kimi.moonshot.cn", "🌙"),
    ("chat.qwen.ai", "🎯"), ("qwen.ai", "🎯"),
    ("poe.com", "🤖"), ("perplexity.ai", "🔮"), ("you.com", "🔎")
  ]

  predicate Related(hostname: string, domain: string) {
    Contains(hostname, domain) || Contains(domain, hostname)
  }

  /** The first entry of `table` from `k` on whose domain is related to the hostname. */
  function FirstRelated(table: seq<(string, string)>, hostname: string, k: nat): (r: Option<nat>)
    ensures r.Some? ==> k <= r.value < |table| && Related(hostname, table[r.value].0)
    ensures r.Some? ==> forall j :: k <= j < r.value ==> !Related(hostname, table[j].0)
    ensures r.None? ==> forall j :: k <= j < |table| ==> !Related(hostname, table[j].0)
    decreases |table| - k
  {
    if k >= |table| then None
    else if Related(hostname, table[k].0) then Some(k)
    else FirstRelated(table, hostname, k + 1)
  }

  function ExactIcon(table: seq<(string, string)>, hostname: string, k: nat): (r: Option<nat>)
    ensures r.Some? ==> k <= r.value < |table| && table[r.value].0 == hostname
    ensures r.None? ==> forall j :: k <= j < |table| ==> table[j].0 != hostname
    decreases |table| - k
  {
    if k >= |table| then None
    else if table[k].0 == hostname then Some(k)
    else ExactIcon(table, hostname, k + 1)
  }

  /** `getIconForSite` over a table: an exact match, else the first related domain, else the globe. */
  function IconFrom(table: seq<(string, string)>, hostname: string): (r: string)
    ensures (exists j :: 0 <= j < |table| && table[j].0 == hostname) ==>
      exists j :: 0 <= j < |table| && table[j].0 == hostname && r == table[j].1
    ensures (forall j :: 0 <= j < |table| ==> !Related(hostname, table[j].0)) ==> r == "🌐"
    ensures (forall j :: 0 <= j < |table| ==> table[j].0 != hostname) && (exists j :: 0 <= j < |table| && Related(hostname, table[j].0)) ==>
      exists j :: 0 <= j < |table| && Related(hostname, table[j].0) && r == table[j].1
        && forall i :: 0 <= i < j ==> !Related(hostname, table[i].0)
  {
    match ExactIcon(table, hostname, 0)
    case Some(k) => table[k].1
    case None =>
      match FirstRelated(table, hostname, 0)
      case Some(k) => table[k].1
      case None => "🌐"
  }

  function IconForSite(hostname: string): string {
    IconFrom(IconMap, hostname)
  }

  /** The names of the known site ids. */
  const AiNames: map<string, string> := map[
    "chatgpt_com" := "ChatGPT", "gemini_google_com" := "Gemini", "claude_ai" := "Claude",
    "chat_qwen_ai" := "Qwen", "chat_deepseek_com" := "DeepSeek", "kimi_moonshot_cn" := "Kimi"
  ]

  /** Every `_` becomes `.`. */
  function Dotted(id: string): (r: string)
    ensures |r| == |id| && forall i :: 0 <= i < |id| ==> r[i] == (if id[i] == '_' then '.' else id[i])
  {
    if |id| == 0 then "" else [if id[0] == '_' then '.' else id[0]] + Dotted(id[1..])
  }

  /** The display name of a configured site id: its known name, or the id with dots back. */
  function DisplayName(id: string): (r: string)
    ensures id in AiNames ==> r == AiNames[id]
    ensures id !in AiNames ==> r == Dotted(id)
  {
    if id in AiNames then AiNames[id] else Dotted(id)
  }

  /** The display name inverts the site id of an unknown hostname made of letters, digits and dots. */
  lemma DisplayNameRoundTrip(hostname: string)
    requires forall i :: 0 <= i < |hostname| ==> IsAlnum(hostname[i]) || hostname[i] == '.'
    requires SiteId(hostname) !in AiNames
    ensures DisplayName(SiteId(hostname)) == hostname
  {
    DottedSiteId(hostname);
  }

  lemma DottedSiteId(hostname: string)
    requires forall i :: 0 <= i < |hostname| ==> IsAlnum(hostname[i]) || hostname[i] == '.'
    ensures Dotted(SiteId(hostname)) == hostname
  {
    var id := SiteId(hostname);
    var d := Dotted(id);
    forall i | 0 <= i < |hostname| ensures d[i] == hostname[i] {
      SiteIdAt(hostname, i);
      assert id[i] == IdChar(hostname[i]);
    }
    assert d == hostname;
  }

  /** The reset button shows for a configured site with a preset (no code writes a `source` other than the user's). */
  predicate ShowsReset(id: string) {
    id in DefaultConfigs
  }

  // ---------------------------------------------------------------------
  // The wizard.

  datatype StepMark = Plain | Active | Completed

  /** The indicator of step `i + 1` when `step` is current. */
  function MarkFor(i: nat, step: int): StepMark {
    if i + 1 < step then Completed else if i + 1 == step then Active else Plain
  }

  datatype SelectedSite = SelectedSite(id: string, name: string, url: string, hostname: string, tabId: int)

  const EmptyConfig: SiteConfig := SiteConfig(None, Some(""), Some(""), None, None)

  class Wizard {
    var currentStep: int
    var marks: seq<StepMark>     // the `.step` indicators
    var hidden: seq<bool>        // whether each `.step-content` is hidden
    var selectedSite: Option<SelectedSite>
    var currentConfig: SiteConfig
    var allConfigs: map<string, SiteConfig>
    var stored: map<string, SiteConfig>   // `aiSelectorConfigs` in storage
    var nextEnabled: bool                 // the "next" button of step 2

    /** The page as loaded, with `steps` indicators and contents. */
    constructor (steps: nat)
      ensures currentStep == 1 && |marks| == steps && |hidden| == steps
      ensures selectedSite == None && currentConfig == EmptyConfig
      ensures allConfigs == map[] && stored == map[] && !nextEnabled
    {
      currentStep := 1;
      marks := seq(steps, i => Plain);
      hidden := seq(steps, i => false);
      selectedSite := None;
      currentConfig := EmptyConfig;
      allConfigs := map[];
      stored := map[];
      nextEnabled := false;
    }

    /** `loadExistingConfigs`: normalise the stored keys and write them back only when the key set changed. */
    method LoadExistingConfigs(entries: seq<(string, SiteConfig)>)
      modifies this
      ensures allConfigs == Normalized(entries)
      ensures KeysChanged(entries) ==> stored == Normalized(entries)
      ensures !KeysChanged(entries) ==> stored == old(stored)
      ensures currentStep == old(currentStep) && marks == old(marks) && hidden == old(hidden)
      ensures selectedSite == old(selectedSite) && currentConfig == old(currentConfig) && nextEnabled == old(nextEnabled)
    {
      var normalized := NormalizeConfigs(entries);
      var before := set e | e in entries :: e.0;
      allConfigs := normalized;
      if before != normalized.Keys {
        stored := allConfigs;
      }
    }

    /** `goToStep`: steps before `step` are completed, `step` is active, and only its content shows. */
    method GoToStep(step: int)
      requires |hidden| == |marks|
      modifies this
      ensures currentStep == step && |marks| == |old(marks)| && |hidden| == |marks|
      ensures forall i :: 0 <= i < |marks| ==> marks[i] == MarkFor(i, step)
      ensures forall i :: 0 <= i < |hidden| ==> (hidden[i] <==> i + 1 != step)
      ensures selectedSite == old(selectedSite) && currentConfig == old(currentConfig)
      ensures allConfigs == old(allConfigs) && stored == old(stored) && nextEnabled == old(nextEnabled)
    {
      var i := 0;
      while i < |marks|
        invariant 0 <= i <= |marks| && |marks| == |old(marks)|
        invariant forall k :: 0 <= k < i ==> marks[k] == MarkFor(k, step)
        invariant selectedSite == old(selectedSite) && currentConfig == old(currentConfig)
        invariant allConfigs == old(allConfigs) && stored == old(stored) && nextEnabled == old(nextEnabled)
        invariant |hidden| == |old(hidden)|
      {
        marks := marks[i := MarkFor(i, step)];
        i := i + 1;
      }
      i := 0;
      while i < |hidden|
        invariant 0 <= i <= |hidden| && |hidden| == |old(hidden)|
        invariant forall k :: 0 <= k < i ==> (hidden[k] <==> k + 1 != step)
        invariant forall k :: 0 <= k < |marks| ==> marks[k] == MarkFor(k, step)
        invariant |marks| == |old(marks)|
        invariant selectedSite == old(selectedSite) && currentConfig == old(currentConfig)
        invariant allConfigs == old(allConfigs) && stored == old(stored) && nextEnabled == old(nextEnabled)
      {
        hidden := hidden[i := i + 1 != step];
        i := i + 1;
      }
      currentStep := step;
    }

    /** A card click selects its site. */
    method SelectSite(site: SelectedSite)
      modifies this
      ensures selectedSite == Some(site)
      ensures currentStep == old(currentStep) && marks == old(marks) && hidden == old(hidden)
      ensures currentConfig == old(currentConfig) && allConfigs == old(allConfigs) && stored == old(stored)
      ensures nextEnabled == old(nextEnabled)
    {
      selectedSite := Some(site);
    }

    /**
     * `updatePreview`: with both selectors given, "next" is enabled and the
     * configuration saved under the selected site; otherwise "next" is
     * disabled. Without a selected site the save throws before anything is
     * stored.
     */
    method UpdatePreview()
      modifies this
      ensures nextEnabled <==> Given(currentConfig.inputSelector) && Given(currentConfig.sendButtonSelector)
      ensures nextEnabled && selectedSite.Some? ==>
        allConfigs == old(allConfigs)[selectedSite.value.id := currentConfig] && stored == allConfigs
      ensures !(nextEnabled && selectedSite.Some?) ==> allConfigs == old(allConfigs) && stored == old(stored)
      ensures currentStep == old(currentStep) && marks == old(marks) && hidden == old(hidden)
      ensures selectedSite == old(selectedSite) && currentConfig == old(currentConfig)
    {
      if Given(currentConfig.inputSelector) && Given(currentConfig.sendButtonSelector) {
        nextEnabled := true;
        if selectedSite.Some? {
          allConfigs := allConfigs[selectedSite.value.id := currentConfig];
          stored := allConfigs;
        }
      } else {
        nextEnabled := false;
      }
    }

    /** `handleSelectorSelected`: only the field named by `kind` changes, then the preview is updated. */
    method HandleSelectorSelected(kind: string, selector: string)
      modifies this
      ensures kind == "input" ==> currentConfig == old(currentConfig).(inputSelector := Some(selector))
      ensures kind == "send" ==> currentConfig == old(currentConfig).(sendButtonSelector := Some(selector))
      ensures kind != "input" && kind != "send" ==> currentConfig == old(currentConfig)
      ensures nextEnabled <==> Given(currentConfig.inputSelector) && Given(currentConfig.sendButtonSelector)
      ensures nextEnabled && selectedSite.Some? ==>
        allConfigs == old(allConfigs)[selectedSite.value.id := currentConfig] && stored == allConfigs
      ensures !(nextEnabled && selectedSite.Some?) ==> allConfigs == old(allConfigs) && stored == old(stored)
      ensures currentStep == old(currentStep) && marks == old(marks) && hidden == old(hidden)
      ensures selectedSite == old(selectedSite)
    {
      if kind == "input" {
        currentConfig := currentConfig.(inputSelector := Some(selector));
      } else if kind == "send" {
        currentConfig := currentConfig.(sendButtonSelector := Some(selector));
      }
      UpdatePreview();
    }

    /** `updateCurrentSiteInfo`: the saved configuration of the selected site, or an empty one. */
    method UpdateCurrentSiteInfo()
      requires selectedSite.Some?
      modifies this
      ensures selectedSite == old(selectedSite)
      ensures old(selectedSite).value.id in old(allConfigs) ==> currentConfig == old(allConfigs)[old(selectedSite).value.id]
      ensures old(selectedSite).value.id in old(allConfigs) ==>
        (nextEnabled <==> Given(currentConfig.inputSelector) && Given(currentConfig.sendButtonSelector))
      ensures old(selectedSite).value.id in old(allConfigs) && nextEnabled ==> allConfigs == old(allConfigs) && stored == allConfigs
      ensures old(selectedSite).value.id !in old(allConfigs) ==> currentConfig == EmptyConfig && nextEnabled == old(nextEnabled)
      ensures !nextEnabled || old(selectedSite).value.id !in old(allConfigs) ==> allConfigs == old(allConfigs) && stored == old(stored)
      ensures currentStep == old(currentStep) && marks == old(marks) && hidden == old(hidden)
    {
      var id := selectedSite.value.id;
      if id in allConfigs {
        currentConfig := allConfigs[id];
        UpdatePreview();
      } else {
        currentConfig := EmptyConfig;
      }
    }

    /** "Next" on step 1: nothing without a selected site; otherwise step 2 with its saved configuration. */
    method NextToStep2()
      requires |hidden| == |marks|
      modifies this
      ensures old(selectedSite).None? ==> currentStep == old(currentStep) && marks == old(marks) && hidden == old(hidden)
      ensures old(selectedSite).None? ==> currentConfig == old(currentConfig) && allConfigs == old(allConfigs)
      ensures old(selectedSite).None? ==> stored == old(stored) && nextEnabled == old(nextEnabled)
      ensures old(selectedSite).Some? ==> currentStep == 2 && |marks| == |old(marks)| && |hidden| == |marks|
      ensures old(selectedSite).Some? ==> forall i :: 0 <= i < |marks| ==> marks[i] == MarkFor(i, 2)
      ensures old(selectedSite).Some? ==> forall i :: 0 <= i < |hidden| ==> (hidden[i] <==> i + 1 != 2)
      ensures old(selectedSite).Some? ==> allConfigs == old(allConfigs)
      ensures old(selectedSite).Some? && old(selectedSite).value.id in old(allConfigs) ==>
        currentConfig == old(allConfigs)[old(selectedSite).value.id]
        && (nextEnabled <==> Given(currentConfig.inputSelector) && Given(currentConfig.sendButtonSelector))
        && (if nextEnabled then stored == allConfigs else stored == old(stored))
      ensures old(selectedSite).Some? && old(selectedSite).value.id !in old(allConfigs) ==>
        currentConfig == EmptyConfig && stored == old(stored) && nextEnabled == old(nextEnabled)
      ensures selectedSite == old(selectedSite)
    {
      if selectedSite.None? {
        return;
      }
      GoToStep(2);
      UpdateCurrentSiteInfo();
    }

    /** "Configure another": clear the selection and the picked selectors, back to step 1. */
    method ConfigureAnother()
      requires |hidden| == |marks|
      modifies this
      ensures selectedSite == None && currentConfig == EmptyConfig && currentStep == 1
      ensures |marks| == |old(marks)| && |hidden| == |marks|
      ensures forall i :: 0 <= i < |marks| ==> marks[i] == MarkFor(i, 1)
      ensures forall i :: 0 <= i < |hidden| ==> (hidden[i] <==> i + 1 != 1)
      ensures allConfigs == old(allConfigs) && stored == old(stored) && nextEnabled == old(nextEnabled)
    {
      selectedSite := None;
      currentConfig := EmptyConfig;
      GoToStep(1);
    }

    /** `resetToPreset`: refused without a preset; when confirmed, the user's configuration is deleted. */
    method ResetToPreset(siteId: string, confirmed: bool) returns (refused: bool)
      modifies this
      ensures refused <==> !ShowsReset(siteId)
      ensures !refused && confirmed ==> allConfigs == old(allConfigs) - {siteId} && stored == allConfigs
      ensures refused || !confirmed ==> allConfigs == old(allConfigs) && stored == old(stored)
      ensures currentStep == old(currentStep) && marks == old(marks) && selectedSite == old(selectedSite)
      ensures currentConfig == old(currentConfig) && hidden == old(hidden) && nextEnabled == old(nextEnabled)
    {
      if !ShowsReset(siteId) {
        return true;
      }
      refused := false;
      if confirmed {
        allConfigs := allConfigs - {siteId};
        stored := allConfigs;
      }
    }

    /** The delete button of the configured list, once confirmed. */
    method DeleteConfig(id: string, confirmed: bool)
      modifies this
      ensures confirmed ==> allConfigs == old(allConfigs) - {id} && stored == allConfigs
      ensures !confirmed ==> allConfigs == old(allConfigs) && stored == old(stored)
      ensures currentStep == old(currentStep) && marks == old(marks) && selectedSite == old(selectedSite)
      ensures currentConfig == old(currentConfig) && hidden == old(hidden) && nextEnabled == old(nextEnabled)
    {
      if confirmed {
        allConfigs := allConfigs - {id};
        stored := allConfigs;
      }
    }
  }

  /** After a reset the site falls back to its preset status. */
  lemma ResetFallsBackToPreset(allConfigs: map<string, SiteConfig>, siteId: string)
    requires siteId in DefaultConfigs
    ensures StatusOf(siteId, allConfigs - {siteId}) == PresetConfigured
    ensures siteId in allConfigs ==> StatusOf(siteId, allConfigs) == UserConfigured
  {
  }
}
