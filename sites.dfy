// The records the extension's pages pass around: browser tabs (as the
// tabs API reports them) and configured sites, plus the two filters that
// several pages share: which tabs may join a split view, and which sites
// are enabled.

module Sites {
  import opened Common
  import opened SiteIds

  /** A browser tab. `hostname` is what `new URL(url).hostname` yields; URL parsing is not modelled. */
  datatype Tab = Tab(id: int, windowId: int, url: string, title: string, hostname: string)

  /** A site entry as stored under `aiSites` or `selectedSitesForSplit`. */
  datatype Site = Site(
    id: string,
    name: string,
    url: string,
    hostname: Option<string>,
    enabled: bool,
    isCustom: bool,
    inputSelector: Option<string>,
    sendButtonSelector: Option<string>)

  /** A tab may be offered for the split view: an http(s) page that is not a browser page. */
  predicate EligibleUrl(url: string) {
    url != ""
    && (StartsWith(url, "http://") || StartsWith(url, "https://"))
    && !Contains(url, "chrome://")
    && !Contains(url, "chrome-extension://")
  }

  /** `tabs.filter(...)` with the eligibility test, keeping the browser's order. */
  function EligibleTabs(tabs: seq<Tab>): (r: seq<Tab>)
    ensures |r| <= |tabs|
    ensures forall t :: t in r <==> t in tabs && EligibleUrl(t.url)
  {
    if |tabs| == 0 then []
    else if EligibleUrl(tabs[0].url) then [tabs[0]] + EligibleTabs(tabs[1..])
    else EligibleTabs(tabs[1..])
  }

  /** A tab added at the end is kept at the end exactly when it is eligible: the filter keeps order and multiplicity. */
  lemma {:induction false} EligibleTabsAppend(tabs: seq<Tab>, t: Tab)
    ensures EligibleTabs(tabs + [t]) == EligibleTabs(tabs) + (if EligibleUrl(t.url) then [t] else [])
  {
    if |tabs| > 0 {
      assert (tabs + [t])[1..] == tabs[1..] + [t];
      EligibleTabsAppend(tabs[1..], t);
    } else {
      assert (tabs + [t])[1..] == [];
    }
  }

  /** The site entry a tab becomes when it joins a split view. */
  function SiteFromTab(tab: Tab): (r: Site)
    ensures r.id == SiteId(tab.hostname) && IsSiteIdShape(r.id)
    ensures r.name == (if tab.title != "" then tab.title else tab.hostname)
    ensures r.url == tab.url && r.hostname == Some(tab.hostname)
    ensures r.enabled && !r.isCustom
  {
    SiteIdShape(tab.hostname);
    Site(SiteId(tab.hostname), if tab.title != "" then tab.title else tab.hostname,
         tab.url, Some(tab.hostname), true, false, None, None)
  }

  /** `sites.filter(s => s.enabled)`, keeping order. */
  function EnabledSites(sites: seq<Site>): (r: seq<Site>)
    ensures |r| <= |sites|
    ensures forall s :: s in r <==> s in sites && s.enabled
  {
    if |sites| == 0 then []
    else if sites[0].enabled then [sites[0]] + EnabledSites(sites[1..])
    else EnabledSites(sites[1..])
  }

  /** Filtering twice changes nothing: every kept site is enabled. */
  lemma {:induction false} EnabledSitesIdempotent(sites: seq<Site>)
    ensures EnabledSites(EnabledSites(sites)) == EnabledSites(sites)
  {
    if |sites| > 0 {
      EnabledSitesIdempotent(sites[1..]);
      if sites[0].enabled {
        assert ([sites[0]] + EnabledSites(sites[1..]))[1..] == EnabledSites(sites[1..]);
      }
    }
  }
}
