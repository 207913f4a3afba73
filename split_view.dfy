// The split-view page (split-view/split-view.js): where its site list comes
// from, the grid it lays the sites out in, the unified input that sends one
// question to every panel, and the list edits of its add and remove buttons.

module SplitView {
  import opened Common
  import opened SiteIds
  import opened Sites
  import opened IframeInjector

  /** A storage value read as a site list: an array, or anything else (absent or not an array). */
  datatype StoredSites = NoList | List(sites: seq<Site>)

  /** `Array.isArray(v) ? v : []` */
  function SitesOr(v: StoredSites): seq<Site> {
    match v
    case NoList => []
    case List(s) => s
  }

  // ---------------------------------------------------------------------
  // Layout.

  /** The least `r` from `from` on with `r * r >= n`. */
  function CeilSqrtFrom(n: nat, from: nat): (r: nat)
    requires from == 0 || (from - 1) * (from - 1) < n
    ensures r * r >= n && (r == 0 || (r - 1) * (r - 1) < n) && r >= from
    decreases n - from
  {
    if from * from >= n then from
    else
      assert from < n by {
        if from > 0 { assert from <= from * from; }
      }
      CeilSqrtFrom(n, from + 1)
  }

  /** `Math.ceil(Math.sqrt(n))` */
  function CeilSqrt(n: nat): (r: nat)
    ensures r * r >= n && (r == 0 || (r - 1) * (r - 1) < n)
  {
    CeilSqrtFrom(n, 0)
  }

  datatype Grid = Grid(cols: nat, rows: nat)

  /** The layout's name and, for the automatic grid, its explicit columns and rows. */
  datatype Layout = Layout(name: string, grid: Option<Grid>)

  /** `adjustLayoutForSiteCount`: a preset for up to 4 sites, otherwise a grid of at most 4 columns. */
  function LayoutFor(count: nat): (r: Layout)
    ensures count <= 2 ==> r == Layout("2-horizontal", None)
    ensures count == 3 ==> r == Layout("3-horizontal", None)
    ensures count == 4 ==> r == Layout("4-grid", None)
    ensures count > 4 ==> r.name == "auto-grid" && r.grid.Some?
  {
    if count <= 2 then Layout("2-horizontal", None)
    else if count == 3 then Layout("3-horizontal", None)
    else if count == 4 then Layout("4-grid", None)
    else
      var s := CeilSqrt(count);
      var cols := if s < 4 then s else 4;
      Layout("auto-grid", Some(Grid(cols, (count + cols - 1) / cols)))
  }

  /**
   * The automatic grid has 3 columns for up to 9 sites and 4 beyond, and
   * just enough rows: every site gets a cell and the last row is not empty.
   */
  lemma {:induction false} AutoGridFits(count: nat)
    requires count > 4
    ensures var g := LayoutFor(count).grid.value;
      g.cols == (if count <= 9 then 3 else 4)
      && g.cols * g.rows >= count && g.cols * (g.rows - 1) < count
  {
    var s := CeilSqrt(count);
    SquareMonotone(s, 2);
    SquareMonotone(3, s - 1);
    SquareMonotone(s, 3);
    var g := LayoutFor(count).grid.value;
    var cols := g.cols;
    assert cols == 3 || cols == 4;
    var q := (count + cols - 1) / cols;
    var m := (count + cols - 1) % cols;
    assert count + cols - 1 == q * cols + m && 0 <= m < cols;
    assert g.rows == q;
    assert cols * q >= count;
    assert cols * (q - 1) == cols * q - cols;
  }

  lemma SquareMonotone(a: nat, b: nat)
    ensures a <= b ==> a * a <= b * b
  {
    if a <= b {
      assert a * a <= a * b;
      assert a * b <= b * b;
    }
  }

  /** `getLayoutName`: the mapped name, or the layout itself. */
  const LayoutNames: map<string, string> := map[
    "2-horizontal" := "2列横向", "2-vertical" := "2列纵向", "3-horizontal" := "3列横向",
    "3-grid" := "3宫格", "4-grid" := "4宫格", "auto-grid" := "自动布局"
  ]

  function LayoutName(layout: string): (r: string)
    ensures layout in LayoutNames ==> r == LayoutNames[layout]
    ensures layout !in LayoutNames ==> r == layout
  {
    if layout in LayoutNames then LayoutNames[layout] else layout
  }

  /** Every layout the page chooses by itself has a name of its own. */
  lemma ChosenLayoutsAreNamed(count: nat)
    ensures LayoutFor(count).name in LayoutNames
    ensures LayoutName(LayoutFor(count).name) != LayoutFor(count).name
  {
  }

  // ---------------------------------------------------------------------
  // The unified input.

  datatype KeyDown = KeyDown(key: string, keyCode: int, isComposing: bool, ctrlKey: bool, shiftKey: bool)

  /** Composition in progress by any of the three signals. */
  predicate Composing(e: KeyDown, imeComposing: bool) {
    e.isComposing || imeComposing || e.keyCode == 229
  }

  /** The keydown handler sends on a plain Enter outside composition. */
  predicate SendsOnKey(e: KeyDown, imeComposing: bool) {
    !Composing(e, imeComposing) && e.key == "Enter" && !e.ctrlKey && !e.shiftKey
  }

  /** Enter never sends during composition, and Ctrl+Enter or Shift+Enter never sends. */
  lemma EnterRules(e: KeyDown, imeComposing: bool)
    ensures Composing(e, imeComposing) ==> !SendsOnKey(e, imeComposing)
    ensures e.ctrlKey || e.shiftKey ==> !SendsOnKey(e, imeComposing)
    ensures SendsOnKey(e, imeComposing) <==> SendsOnKey(e, false) && !imeComposing
  {
  }

  /** The message every panel receives. */
  function Payload(text: string): (r: MessageData)
    ensures IsFillRequest(Some(r)) && r.text == text
  {
    MessageData(Some("ai-aggregator"), Some("fillAndSend"), text)
  }

  /** The messages posted to the first `n` frames: one to each frame whose window is reachable. */
  function Posts(reachable: seq<bool>, n: nat, text: string): (r: seq<(nat, MessageData)>)
    requires n <= |reachable|
    ensures |r| == CountTrue(reachable[..n]) && |r| <= n
    ensures forall p :: p in r ==> p.0 < n && reachable[p.0] && p.1 == Payload(text)
    ensures forall k :: 0 <= k < n && reachable[k] ==> (k, Payload(text)) in r
    ensures forall a, b :: 0 <= a < b < |r| ==> r[a].0 < r[b].0
  {
    assert n > 0 ==> reachable[..n][..n - 1] == reachable[..n - 1];
    if n == 0 then []
    else if reachable[n - 1] then Posts(reachable, n - 1, text) + [(n - 1, Payload(text))]
    else Posts(reachable, n - 1, text)
  }

  /** The count the notification reports: the larger of the posted count and the background's successes. */
  function ReportedCount(posted: nat, response: Option<seq<bool>>): (r: nat)
    ensures r >= posted
    ensures response.Some? ==> r >= CountTrue(response.value)
    ensures r == posted || (response.Some? && r == CountTrue(response.value))
  {
    match response
    case None => posted
    case Some(results) => if CountTrue(results) > posted then CountTrue(results) else posted
  }

  function CountTrue(bs: seq<bool>): (n: nat)
    ensures n <= |bs|
  {
    if |bs| == 0 then 0 else CountTrue(bs[..|bs| - 1]) + (if bs[|bs| - 1] then 1 else 0)
  }

  /** The `iframes.forEach` loop of `sendToAllAI`. */
  method PostToFrames(reachable: seq<bool>, text: string) returns (sent: seq<(nat, MessageData)>)
    ensures sent == Posts(reachable, |reachable|, text)
  {
    sent := [];
    var k := 0;
    while k < |reachable|
      invariant 0 <= k <= |reachable|
      invariant sent == Posts(reachable, k, text)
    {
      assert Posts(reachable, k + 1, text)
        == if reachable[k] then Posts(reachable, k, text) + [(k, Payload(text))] else Posts(reachable, k, text);
      if reachable[k] {
        sent := sent + [(k, Payload(text))];
      }
      k := k + 1;
    }
  }

  // ---------------------------------------------------------------------
  // Site list edits.

  predicate HasId(sites: seq<Site>, id: string) {
    exists s :: s in sites && s.id == id
  }

  /** `sites.filter(s => s.id !== id)` */
  function WithoutId(sites: seq<Site>, id: string): (r: seq<Site>)
    ensures forall s :: s in r <==> s in sites && s.id != id
    ensures |r| <= |sites|
    ensures HasId(sites, id) ==> |r| < |sites|
  {
    if |sites| == 0 then []
    else
      var rest := WithoutId(sites[1..], id);
      assert forall s :: s in sites <==> s == sites[0] || s in sites[1..];
      if sites[0].id != id then [sites[0]] + rest else rest
  }

  /** Removing an id that is not there leaves the list as it was. */
  lemma {:induction false} WithoutAbsentId(sites: seq<Site>, id: string)
    requires !HasId(sites, id)
    ensures WithoutId(sites, id) == sites
  {
    if |sites| > 0 {
      assert sites[0] in sites;
      assert forall s :: s in sites[1..] ==> s in sites;
      WithoutAbsentId(sites[1..], id);
    }
  }

  /** The index of the first site with the id. */
  function FindId(sites: seq<Site>, id: string, from: nat): (r: Option<nat>)
    ensures r.Some? ==> from <= r.value < |sites| && sites[r.value].id == id
    ensures r.Some? ==> forall j :: from <= j < r.value ==> sites[j].id != id
    ensures r.None? ==> forall j :: from <= j < |sites| ==> sites[j].id != id
    decreases |sites| - from
  {
    if from >= |sites| then None
    else if sites[from].id == id then Some(from)
    else FindId(sites, id, from + 1)
  }

  /** The first index holding the id is what `FindId` returns. */
  lemma FindIdIsFirst(sites: seq<Site>, id: string, k: nat)
    requires k < |sites| && sites[k].id == id && forall j :: 0 <= j < k ==> sites[j].id != id
    ensures FindId(sites, id, 0) == Some(k)
  {
  }

  /** `addTabToSplit`'s list: the site with the same id replaced in place, or the site appended. */
  function Upsert(sites: seq<Site>, site: Site): (r: seq<Site>)
    ensures FindId(sites, site.id, 0).Some? ==> |r| == |sites| && r[FindId(sites, site.id, 0).value] == site
    ensures FindId(sites, site.id, 0).Some? ==>
      forall j :: 0 <= j < |sites| && j != FindId(sites, site.id, 0).value ==> r[j] == sites[j]
    ensures FindId(sites, site.id, 0).None? ==> r == sites + [site]
  {
    match FindId(sites, site.id, 0)
    case Some(k) => sites[k := site]
    case None => sites + [site]
  }

  /** Adding the same tab twice gives the list of adding it once. */
  lemma UpsertIdempotent(sites: seq<Site>, site: Site)
    ensures Upsert(Upsert(sites, site), site) == Upsert(sites, site)
  {
    var once := Upsert(sites, site);
    var first := FindId(sites, site.id, 0);
    var k := if first.Some? then first.value else |sites|;
    assert once[k] == site;
    forall j | 0 <= j < k ensures once[j].id != site.id {
      assert once[j] == sites[j];
    }
    FindIdIsFirst(once, site.id, k);
  }

  /** The add button is disabled when the tab's site id or URL is already in the list. */
  predicate AlreadyAdded(sites: seq<Site>, tab: Tab) {
    exists s :: s in sites && (s.id == SiteId(tab.hostname) || s.url == tab.url)
  }

  /** After a tab is added, its add button is disabled. */
  lemma AddedTabIsAlreadyAdded(sites: seq<Site>, tab: Tab)
    ensures AlreadyAdded(Upsert(sites, SiteFromTab(tab)), tab)
  {
    var site := SiteFromTab(tab);
    var r := Upsert(sites, site);
    match FindId(sites, site.id, 0)
    case Some(k) => assert r[k] in r;
    case None => assert r[|sites|] in r;
  }

  // ---------------------------------------------------------------------
  // The page.

  /** The storage areas the page reads and writes. */
  datatype Storage = Storage(
    syncSites: StoredSites,          // `chrome.storage.sync` `currentSplitSites`
    syncLayout: Option<string>,      // `chrome.storage.sync` `currentSplitLayout`, when a string
    localSelected: StoredSites,      // `chrome.storage.local` `selectedSitesForSplit`
    localSplitSites: seq<Site>)      // `chrome.storage.local` `currentSplitSites`

  /** `loadConfig`: the site list and layout the page starts with, and the storage it leaves. */
  function Loaded(st: Storage, layout: string): (r: (seq<Site>, string, Storage))
    ensures st.localSelected.List? && |st.localSelected.sites| > 0 ==>
      r.0 == st.localSelected.sites && r.2.syncSites == List(r.0) && r.2.localSelected == NoList
    ensures !(st.localSelected.List? && |st.localSelected.sites| > 0) ==>
      r.0 == SitesOr(st.syncSites) && r.2.syncSites == st.syncSites && r.2.localSelected == st.localSelected
    ensures r.1 == (if st.syncLayout.Some? then st.syncLayout.value else layout)
    ensures r.2.localSplitSites == r.0 && r.2.syncLayout == st.syncLayout
  {
    var layout' := if st.syncLayout.Some? then st.syncLayout.value else layout;
    if st.localSelected.List? && |st.localSelected.sites| > 0 then
      var sites := st.localSelected.sites;
      (sites, layout', Storage(List(sites), st.syncLayout, NoList, sites))
    else
      var sites := SitesOr(st.syncSites);
      (sites, layout', st.(localSplitSites := sites))
  }

  class Page {
    var aiSites: seq<Site>
    var layout: Layout
    var panels: seq<Site>               // one iframe panel per site, in order
    var availableTabsCache: seq<Tab>
    var isFetchingTabs: bool
    var imeComposing: bool
    var input: string                   // the unified input's value
    var posted: seq<(nat, MessageData)> // `postMessage` calls, with the frame's index
    var requests: seq<string>           // `sendToAllAI` requests to the background script
    var storage: Storage

    constructor (st: Storage)
      ensures aiSites == [] && layout == Layout("4-grid", None) && panels == []
      ensures availableTabsCache == [] && !isFetchingTabs && !imeComposing
      ensures input == "" && posted == [] && requests == [] && storage == st
    {
      aiSites := [];
      layout := Layout("4-grid", None);
      panels := [];
      availableTabsCache := [];
      isFetchingTabs := false;
      imeComposing := false;
      input := "";
      posted := [];
      requests := [];
      storage := st;
    }

    method LoadConfig()
      modifies this
      ensures imeComposing == old(imeComposing)
      ensures (aiSites, layout.name, storage) == Loaded(old(storage), old(layout.name))
      ensures layout.grid == old(layout.grid) && panels == old(panels)
      ensures availableTabsCache == old(availableTabsCache) && isFetchingTabs == old(isFetchingTabs)
      ensures input == old(input) && posted == old(posted) && requests == old(requests)
    {
      var loaded := Loaded(storage, layout.name);
      aiSites := loaded.0;
      layout := layout.(name := loaded.1);
      storage := loaded.2;
    }

    /** `initializeSplitView` followed by `adjustLayoutForSiteCount`. */
    method Initialize()
      modifies this
      ensures imeComposing == old(imeComposing)
      ensures panels == aiSites
      ensures |aiSites| > 0 ==> layout == LayoutFor(|aiSites|)
      ensures |aiSites| == 0 ==> layout == old(layout)
      ensures aiSites == old(aiSites) && storage == old(storage) && posted == old(posted)
      ensures availableTabsCache == old(availableTabsCache) && isFetchingTabs == old(isFetchingTabs)
      ensures input == old(input) && requests == old(requests)
    {
      panels := aiSites;
      if |aiSites| > 0 {
        layout := LayoutFor(|aiSites|);
      }
    }

    /** `changeLayout`: the automatic grid is recomputed from the site count; any other layout is applied as is. */
    method ChangeLayout(name: string)
      modifies this
      ensures imeComposing == old(imeComposing)
      ensures name == "auto-grid" ==> layout == LayoutFor(|aiSites|)
      ensures name != "auto-grid" ==> layout == Layout(name, None)
      ensures storage == old(storage).(syncLayout := Some(layout.name))
      ensures aiSites == old(aiSites) && panels == old(panels) && posted == old(posted)
      ensures availableTabsCache == old(availableTabsCache) && isFetchingTabs == old(isFetchingTabs)
      ensures input == old(input) && requests == old(requests)
    {
      if name == "auto-grid" {
        layout := LayoutFor(|aiSites|);
      } else {
        layout := Layout(name, None);
      }
      storage := storage.(syncLayout := Some(layout.name));
    }

    method CompositionStart()
      modifies this
      ensures imeComposing
      ensures aiSites == old(aiSites) && layout == old(layout) && panels == old(panels) && storage == old(storage)
      ensures input == old(input) && posted == old(posted) && requests == old(requests)
      ensures availableTabsCache == old(availableTabsCache) && isFetchingTabs == old(isFetchingTabs)
    {
      imeComposing := true;
    }

    method CompositionEnd()
      modifies this
      ensures !imeComposing
      ensures aiSites == old(aiSites) && layout == old(layout) && panels == old(panels) && storage == old(storage)
      ensures input == old(input) && posted == old(posted) && requests == old(requests)
      ensures availableTabsCache == old(availableTabsCache) && isFetchingTabs == old(isFetchingTabs)
    {
      imeComposing := false;
    }

    /**
     * `sendToAllAI`: nothing for a blank input; otherwise the trimmed text is
     * posted to every reachable frame and sent to the background script,
     * and the input is cleared (500 ms later in the page).
     */
    method SendToAllAI(reachable: seq<bool>) returns (successCount: nat)
      modifies this
      ensures Trim(old(input)) == "" ==> successCount == 0 && posted == old(posted)
      ensures Trim(old(input)) == "" ==> requests == old(requests) && input == old(input)
      ensures Trim(old(input)) != "" ==> posted == old(posted) + Posts(reachable, |reachable|, Trim(old(input)))
      ensures Trim(old(input)) != "" ==> successCount == |Posts(reachable, |reachable|, Trim(old(input)))|
      ensures Trim(old(input)) != "" ==> requests == old(requests) + [Trim(old(input))] && input == ""
      ensures aiSites == old(aiSites) && layout == old(layout) && panels == old(panels) && storage == old(storage)
      ensures availableTabsCache == old(availableTabsCache) && isFetchingTabs == old(isFetchingTabs)
      ensures imeComposing == old(imeComposing)
    {
      var text := Trim(input);
      if text == "" {
        return 0;
      }
      var sent := PostToFrames(reachable, text);
      posted := posted + sent;
      successCount := |sent|;
      requests := requests + [text];
      input := "";
    }

    /** The keydown handler. */
    method KeyDownEvent(e: KeyDown, reachable: seq<bool>)
      modifies this
      ensures !SendsOnKey(e, old(imeComposing)) ==> posted == old(posted) && requests == old(requests) && input == old(input)
      ensures SendsOnKey(e, old(imeComposing)) && Trim(old(input)) == "" ==>
        posted == old(posted) && requests == old(requests) && input == old(input)
      ensures SendsOnKey(e, old(imeComposing)) && Trim(old(input)) != "" ==>
        posted == old(posted) + Posts(reachable, |reachable|, Trim(old(input))) && requests == old(requests) + [Trim(old(input))]
      ensures SendsOnKey(e, old(imeComposing)) && Trim(old(input)) != "" ==> input == ""
      ensures aiSites == old(aiSites) && layout == old(layout) && panels == old(panels) && storage == old(storage)
      ensures availableTabsCache == old(availableTabsCache) && isFetchingTabs == old(isFetchingTabs)
      ensures imeComposing == old(imeComposing)
    {
      if Composing(e, imeComposing) {
        return;
      }
      if e.key == "Enter" && !e.ctrlKey && !e.shiftKey {
        var _ := SendToAllAI(reachable);
      }
    }

    /** `removeSite`: nothing for an unknown id; otherwise every site with the id leaves the list and the layout follows. */
    method RemoveSite(id: string)
      modifies this
      ensures imeComposing == old(imeComposing)
      ensures !HasId(SitesOr(old(storage).syncSites), id) ==> aiSites == old(aiSites) && storage == old(storage)
      ensures !HasId(SitesOr(old(storage).syncSites), id) ==> layout == old(layout) && panels == old(panels)
      ensures HasId(SitesOr(old(storage).syncSites), id) ==>
        aiSites == WithoutId(SitesOr(old(storage).syncSites), id)
        && storage == old(storage).(syncSites := List(aiSites), localSplitSites := aiSites)
        && panels == aiSites && layout == LayoutFor(|aiSites|)
      ensures posted == old(posted) && requests == old(requests) && input == old(input)
      ensures availableTabsCache == old(availableTabsCache) && isFetchingTabs == old(isFetchingTabs)
    {
      var sites := SitesOr(storage.syncSites);
      if FindId(sites, id, 0).None? {
        return;
      }
      var updated := WithoutId(sites, id);
      aiSites := updated;
      storage := storage.(syncSites := List(updated), localSplitSites := updated);
      panels := aiSites;
      layout := LayoutFor(|aiSites|);
    }

    /** `addTabToSplit`: the tab's site replaces the entry with its id, or is appended. */
    method AddTabToSplit(tab: Tab)
      modifies this
      ensures imeComposing == old(imeComposing)
      ensures aiSites == Upsert(SitesOr(old(storage).syncSites), SiteFromTab(tab))
      ensures storage == old(storage).(syncSites := List(aiSites), localSplitSites := aiSites)
      ensures panels == aiSites && layout == LayoutFor(|aiSites|)
      ensures AlreadyAdded(aiSites, tab)
      ensures posted == old(posted) && requests == old(requests) && input == old(input)
      ensures availableTabsCache == old(availableTabsCache) && isFetchingTabs == old(isFetchingTabs)
    {
      var updated := Upsert(SitesOr(storage.syncSites), SiteFromTab(tab));
      AddedTabIsAlreadyAdded(SitesOr(storage.syncSites), tab);
      aiSites := updated;
      storage := storage.(syncSites := List(updated), localSplitSites := updated);
      panels := aiSites;
      layout := LayoutFor(|aiSites|);
    }

    /** The start of `refreshAvailableTabs`: refused while a fetch is running. */
    method BeginRefresh() returns (started: bool)
      modifies this
      ensures imeComposing == old(imeComposing)
      ensures started <==> !old(isFetchingTabs)
      ensures isFetchingTabs
      ensures availableTabsCache == old(availableTabsCache)
      ensures aiSites == old(aiSites) && layout == old(layout) && panels == old(panels) && storage == old(storage)
      ensures posted == old(posted) && requests == old(requests) && input == old(input)
    {
      if isFetchingTabs {
        return false;
      }
      isFetchingTabs := true;
      started := true;
    }

    /** The end of a started refresh: the eligible tabs when the query answered, and the flag cleared either way. */
    method FinishRefresh(tabs: Option<seq<Tab>>)
      modifies this
      ensures imeComposing == old(imeComposing)
      ensures !isFetchingTabs
      ensures tabs.Some? ==> availableTabsCache == EligibleTabs(tabs.value)
      ensures tabs.None? ==> availableTabsCache == old(availableTabsCache)
      ensures aiSites == old(aiSites) && layout == old(layout) && panels == old(panels) && storage == old(storage)
      ensures posted == old(posted) && requests == old(requests) && input == old(input)
    {
      if tabs.Some? {
        availableTabsCache := EligibleTabs(tabs.value);
      }
      isFetchingTabs := false;
    }
  }
}
