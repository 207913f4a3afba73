// The background service (background.js): it opens the enabled sites in
// tabs, remembers which tab shows which site, relays a question to every
// remembered tab, forgets a tab when it closes, and seeds the site list on
// first install. The browser's answers (tab ids of created tabs, which
// tabs still exist, what a content script replies) are parameters.

module Background {
  import opened Common
  import opened Sites
  import opened AiTabs

  /** The site list written on first install. */
  const DefaultSites: seq<Site> := [
    Site("chatgpt", "ChatGPT", "https://chatgpt.com/", None, true, false,
         Some("#prompt-textarea"), Some("button[data-testid=\"send-button\"]")),
    Site("gemini", "Gemini", "https://gemini.google.com/", None, true, false,
         Some(".ql-editor"), Some("button[aria-label*=\"Send\"]")),
    Site("claude", "Claude", "https://claude.ai/", None, true, false,
         Some("div[contenteditable=\"true\"]"), Some("button[aria-label=\"Send Message\"]"))
  ]

  /** One tab `openAITabs` opened. */
  datatype OpenedTab = OpenedTab(siteId: string, tabId: int, siteName: string)

  /**
   * The tabs opened for the first `n` enabled sites: `created[k]` is the
   * id of the tab created for `enabled[k]`, or `None` when creating it threw.
   */
  function Opened(enabled: seq<Site>, created: seq<Option<int>>, n: nat): (r: seq<OpenedTab>)
    requires n <= |enabled| == |created|
    ensures |r| <= n
  {
    if n == 0 then []
    else
      var prev := Opened(enabled, created, n - 1);
      match created[n - 1]
      case None => prev
      case Some(id) => prev + [OpenedTab(enabled[n - 1].id, id, enabled[n - 1].name)]
  }

  /** Every opened tab was created for one of the sites, and carries its id and name; when no creation fails, every site has a tab. */
  lemma {:induction false} OpenedTabsOrigin(enabled: seq<Site>, created: seq<Option<int>>, n: nat)
    requires n <= |enabled| == |created|
    ensures forall t :: t in Opened(enabled, created, n) ==>
      (exists k :: 0 <= k < n && created[k] == Some(t.tabId) && t.siteId == enabled[k].id && t.siteName == enabled[k].name)
    ensures (forall k :: 0 <= k < n ==> created[k].Some?) ==> |Opened(enabled, created, n)| == n
  {
    if n > 0 {
      OpenedTabsOrigin(enabled, created, n - 1);
    }
  }

  /** The `aiTabs` assignments the opened tabs make. */
  function EntriesOf(ts: seq<OpenedTab>): (r: seq<Entry>)
    ensures |r| == |ts| && forall k :: 0 <= k < |ts| ==> r[k] == Entry(ts[k].siteId, ts[k].tabId)
  {
    if |ts| == 0 then [] else EntriesOf(ts[..|ts| - 1]) + [Entry(ts[|ts| - 1].siteId, ts[|ts| - 1].tabId)]
  }

  /** The URLs `chrome.tabs.create` is called with: one per site, in order, whether or not the creation succeeds. */
  function UrlsOf(sites: seq<Site>): (r: seq<string>)
    ensures |r| == |sites| && forall k :: 0 <= k < |sites| ==> r[k] == sites[k].url
  {
    if |sites| == 0 then [] else UrlsOf(sites[..|sites| - 1]) + [sites[|sites| - 1].url]
  }

  lemma UrlsOfStep(sites: seq<Site>, i: nat)
    requires i < |sites|
    ensures UrlsOf(sites[..i + 1]) == UrlsOf(sites[..i]) + [sites[i].url]
  {
    assert sites[..i + 1][..i] == sites[..i];
  }

  /** One step of the open loop, on the opened tabs and on the assignments they make. */
  lemma OpenStep(es: seq<Entry>, enabled: seq<Site>, created: seq<Option<int>>, i: nat)
    requires DistinctKeys(es) && i < |enabled| == |created|
    ensures var prev := Opened(enabled, created, i);
      created[i].None? ==> Opened(enabled, created, i + 1) == prev
    ensures var prev := Opened(enabled, created, i);
      created[i].Some? ==>
        var t := OpenedTab(enabled[i].id, created[i].value, enabled[i].name);
        Opened(enabled, created, i + 1) == prev + [t]
        && PutAll(es, EntriesOf(prev + [t])) == Put(PutAll(es, EntriesOf(prev)), t.siteId, t.tabId)
    ensures CustomTabs(enabled, created, i + 1)
      == CustomTabs(enabled, created, i) + (if created[i].Some? && enabled[i].isCustom then [created[i].value] else [])
  {
    var prev := Opened(enabled, created, i);
    if created[i].Some? {
      var t := OpenedTab(enabled[i].id, created[i].value, enabled[i].name);
      assert EntriesOf(prev + [t])[..|prev|] == EntriesOf(prev);
    }
  }

  /** One enabled site of the open loop: its tab is created and, when that succeeds, recorded under the site's id. */
  method OpenOne(enabled: seq<Site>, created: seq<Option<int>>, i: nat, tabs: seq<OpenedTab>, aiTabs: seq<Entry>, injected: seq<int>,
                 ghost start: seq<Entry>, ghost injected0: seq<int>)
    returns (tabs': seq<OpenedTab>, aiTabs': seq<Entry>, injected': seq<int>)
    requires i < |enabled| == |created| && DistinctKeys(start) && DistinctKeys(aiTabs)
    requires tabs == Opened(enabled, created, i) && aiTabs == PutAll(start, EntriesOf(tabs))
    requires injected == injected0 + CustomTabs(enabled, created, i)
    ensures DistinctKeys(aiTabs')
    ensures tabs' == Opened(enabled, created, i + 1) && aiTabs' == PutAll(start, EntriesOf(tabs'))
    ensures injected' == injected0 + CustomTabs(enabled, created, i + 1)
  {
    var site := enabled[i];
    OpenStep(start, enabled, created, i);
    match created[i]
    case None =>
      tabs', aiTabs', injected' := tabs, aiTabs, injected;
    case Some(id) =>
      tabs' := tabs + [OpenedTab(site.id, id, site.name)];
      aiTabs' := Put(aiTabs, site.id, id);
      var extra := if site.isCustom then [id] else [];
      ShiftFront(injected0, CustomTabs(enabled, created, i), extra);
      injected' := injected + extra;
  }

  /** The ids of the custom sites' tabs among the first `n` enabled sites: those get `injector.js` injected. */
  function CustomTabs(enabled: seq<Site>, created: seq<Option<int>>, n: nat): (r: seq<int>)
    requires n <= |enabled| == |created|
    ensures |r| <= n
  {
    if n == 0 then []
    else
      var prev := CustomTabs(enabled, created, n - 1);
      if created[n - 1].Some? && enabled[n - 1].isCustom then prev + [created[n - 1].value] else prev
  }

  /** Only enabled sites get a tab, named and keyed as the site is. */
  lemma OpenedOnlyEnabled(sites: seq<Site>, created: seq<Option<int>>)
    requires |created| == |EnabledSites(sites)|
    ensures forall t :: t in Opened(EnabledSites(sites), created, |created|) ==>
      exists s :: s in sites && s.enabled && s.id == t.siteId && s.name == t.siteName
  {
    var enabled := EnabledSites(sites);
    OpenedTabsOrigin(enabled, created, |created|);
    forall t | t in Opened(enabled, created, |created|)
      ensures exists s :: s in sites && s.enabled && s.id == t.siteId && s.name == t.siteName
    {
      var k :| 0 <= k < |created| && created[k] == Some(t.tabId) && t.siteId == enabled[k].id && t.siteName == enabled[k].name;
      assert enabled[k] in enabled;
    }
  }

  /** After the open loop, a site maps to the last tab opened for it. */
  lemma OpenedTabRecorded(es: seq<Entry>, tabs: seq<OpenedTab>, j: nat)
    requires DistinctKeys(es) && j < |tabs|
    requires forall l :: j < l < |tabs| ==> tabs[l].siteId != tabs[j].siteId
    ensures Lookup(PutAll(es, EntriesOf(tabs)), tabs[j].siteId) == Some(tabs[j].tabId)
  {
    PutAllLastWins(es, EntriesOf(tabs), j);
  }

  /** What a content script answered `fillAndSend` with. */
  datatype Reply =
    | Responded(success: bool)   // a response whose `success` is truthy or not
    | NoResponse                 // `response` is `undefined`
    | Threw(message: string)     // `sendMessage` rejected

  datatype SendResult = SendResult(siteId: string, tabId: int, success: bool, error: Option<string>)

  function ResultOf(e: Entry, reply: Reply): (r: SendResult)
    ensures r.siteId == e.siteId && r.tabId == e.tabId
    ensures r.success <==> reply == Responded(true)
    ensures r.error.Some? <==> reply.Threw?
  {
    match reply
    case Responded(ok) => SendResult(e.siteId, e.tabId, ok, None)
    case NoResponse => SendResult(e.siteId, e.tabId, false, None)
    case Threw(m) => SendResult(e.siteId, e.tabId, false, Some(m))
  }

  /** The entries among the first `n` whose tab still exists. */
  function Kept(es: seq<Entry>, alive: set<int>, n: nat): (r: seq<Entry>)
    requires n <= |es|
    ensures |r| <= n
  {
    if n == 0 then []
    else Kept(es, alive, n - 1) + (if es[n - 1].tabId in alive then [es[n - 1]] else [])
  }

  /** The kept entries are exactly the first `n` entries whose tab still exists. */
  lemma {:induction false} KeptMembers(es: seq<Entry>, alive: set<int>, n: nat)
    requires n <= |es|
    ensures forall e :: e in Kept(es, alive, n) <==> e in es[..n] && e.tabId in alive
  {
    if n > 0 {
      KeptMembers(es, alive, n - 1);
      assert es[..n] == es[..n - 1] + [es[n - 1]];
    }
  }

  /** The results of `sendToAllAITabs` for the first `n` entries: one per entry whose tab exists, in order. */
  function Results(es: seq<Entry>, alive: set<int>, replies: int -> Reply, n: nat): (r: seq<SendResult>)
    requires n <= |es|
    ensures |r| == |Kept(es, alive, n)|
  {
    if n == 0 then []
    else
      var prev := Results(es, alive, replies, n - 1);
      if es[n - 1].tabId in alive then prev + [ResultOf(es[n - 1], replies(es[n - 1].tabId))] else prev
  }

  /** The `k`-th result reports on the `k`-th kept entry: its site, its tab, and success exactly when that tab answered with success. */
  lemma {:induction false} ResultsMatchKept(es: seq<Entry>, alive: set<int>, replies: int -> Reply, n: nat)
    requires n <= |es|
    ensures forall k :: 0 <= k < |Results(es, alive, replies, n)| ==>
      var e := Kept(es, alive, n)[k];
      var r := Results(es, alive, replies, n)[k];
      r.siteId == e.siteId && r.tabId == e.tabId && (r.success <==> replies(e.tabId) == Responded(true))
  {
    if n > 0 {
      ResultsMatchKept(es, alive, replies, n - 1);
    }
  }

  /** The send loop's effect on the entries: a dead tab's entry is deleted, a live one stays. */
  lemma SendStep(es: seq<Entry>, alive: set<int>, i: nat)
    requires i < |es| && DistinctKeys(Kept(es, alive, i) + es[i..])
    ensures es[i].tabId !in alive ==> Delete(Kept(es, alive, i) + es[i..], es[i].siteId) == Kept(es, alive, i + 1) + es[i + 1..]
    ensures es[i].tabId in alive ==> Kept(es, alive, i) + es[i..] == Kept(es, alive, i + 1) + es[i + 1..]
  {
    var kept := Kept(es, alive, i);
    assert es[i..] == [es[i]] + es[i + 1..];
    assert kept + es[i..] == kept + [es[i]] + es[i + 1..];
    if es[i].tabId !in alive {
      DeleteEntry(kept, es[i], es[i + 1..]);
    }
  }

  /** Messages the background service handles. */
  datatype Request =
    | OpenAITabs(sites: seq<Site>)
    | SendToAllAI(text: string)
    | GetAITabs
    | RegisterAITab(siteId: string)
    | Other(action: string)

  datatype Response =
    | OpenResponse(success: bool, tabs: seq<OpenedTab>)
    | SendResponse(success: bool, results: seq<SendResult>)
    | TabsResponse(entries: seq<Entry>)
    | RegisterResponse(success: bool)
    | NoAnswer

  class Service {
    var aiTabs: seq<Entry>
    var syncSites: Option<seq<Site>>      // `aiSites` in sync storage
    var createdUrls: seq<string>          // `tabs.create` calls, by URL
    var injected: seq<int>                // tabs given `injector.js`
    var activated: seq<int>               // tabs made active
    var messages: seq<(int, string)>      // `fillAndSend` messages sent

    ghost predicate Valid()
      reads this
    {
      DistinctKeys(aiTabs)
    }

    constructor (stored: Option<seq<Site>>)
      ensures Valid() && aiTabs == [] && syncSites == stored
      ensures createdUrls == [] && injected == [] && activated == [] && messages == []
    {
      aiTabs := [];
      syncSites := stored;
      createdUrls := [];
      injected := [];
      activated := [];
      messages := [];
    }

    /** `registerAITab`: the sender's tab now shows the site. */
    method Register(siteId: string, tabId: int)
      requires Valid()
      modifies this`aiTabs
      ensures Valid()
      ensures Lookup(aiTabs, siteId) == Some(tabId)
      ensures forall k :: k != siteId ==> Lookup(aiTabs, k) == Lookup(old(aiTabs), k)
    {
      PutOthers(aiTabs, siteId, tabId);
      aiTabs := Put(aiTabs, siteId, tabId);
    }

    /** `tabs.onRemoved`: the first site shown by the closed tab is forgotten. */
    method OnRemoved(tabId: int)
      requires Valid()
      modifies this`aiTabs
      ensures Valid()
      ensures aiTabs == RemoveTab(old(aiTabs), tabId)
    {
      RemoveTabKeepsOthers(aiTabs, tabId);
      aiTabs := RemoveTab(aiTabs, tabId);
    }

    /** `runtime.onInstalled`: on first install, the default sites are stored unless a site list exists. */
    method OnInstalled(reason: string)
      modifies this`syncSites
      ensures reason == "install" && old(syncSites).None? ==> syncSites == Some(DefaultSites)
      ensures !(reason == "install" && old(syncSites).None?) ==> syncSites == old(syncSites)
    {
      if reason == "install" && syncSites.None? {
        syncSites := Some(DefaultSites);
      }
    }

    /** The open loop over the enabled sites, in order. */
    method OpenAll(enabled: seq<Site>, created: seq<Option<int>>) returns (tabs: seq<OpenedTab>)
      requires DistinctKeys(aiTabs) && |created| == |enabled|
      modifies this`aiTabs, this`createdUrls, this`injected
      ensures DistinctKeys(aiTabs)
      ensures tabs == Opened(enabled, created, |created|)
      ensures aiTabs == PutAll(old(aiTabs), EntriesOf(tabs))
      ensures injected == old(injected) + CustomTabs(enabled, created, |created|)
      ensures createdUrls == old(createdUrls) + UrlsOf(enabled)
    {
      tabs := [];
      ghost var ai0, inj0, urls0 := aiTabs, injected, createdUrls;
      var ai, inj, urls := aiTabs, injected, createdUrls;
      var i := 0;
      while i < |enabled|
        invariant 0 <= i <= |enabled|
        invariant DistinctKeys(ai)
        invariant tabs == Opened(enabled, created, i)
        invariant DistinctKeys(ai0) && ai == PutAll(ai0, EntriesOf(tabs))
        invariant inj == inj0 + CustomTabs(enabled, created, i)
        invariant urls == urls0 + UrlsOf(enabled[..i])
      {
        UrlsOfStep(enabled, i);
        ShiftFront(urls0, UrlsOf(enabled[..i]), [enabled[i].url]);
        tabs, ai, inj := OpenOne(enabled, created, i, tabs, ai, inj, ai0, inj0);
        urls := urls + [enabled[i].url];
        i := i + 1;
      }
      assert enabled[..i] == enabled;
      aiTabs, injected, createdUrls := ai, inj, urls;
    }

    /**
     * `openAITabs`: a background tab for every enabled site, in order; each
     * created tab is recorded under its site's id, a custom site's tab is
     * given the generic content script, and the first opened tab is
     * activated.
     */
    method OpenTabs(sites: seq<Site>, created: seq<Option<int>>) returns (tabs: seq<OpenedTab>)
      requires Valid() && |created| == |EnabledSites(sites)|
      modifies this`aiTabs, this`createdUrls, this`injected, this`activated
      ensures Valid()
      ensures tabs == Opened(EnabledSites(sites), created, |created|)
      ensures aiTabs == PutAll(old(aiTabs), EntriesOf(tabs))
      ensures injected == old(injected) + CustomTabs(EnabledSites(sites), created, |created|)
      ensures activated == old(activated) + (if |tabs| > 0 then [tabs[0].tabId] else [])
      ensures createdUrls == old(createdUrls) + UrlsOf(EnabledSites(sites))
    {
      tabs := OpenAll(EnabledSites(sites), created);
      if |tabs| > 0 {
        activated := activated + [tabs[0].tabId];
      }
    }

    /** One entry of the send loop: a dead tab's entry is deleted and adds no result; a live tab is sent the text and adds its result. */
    method SendOne(snapshot: seq<Entry>, i: nat, text: string, alive: set<int>, replies: int -> Reply, results: seq<SendResult>)
      returns (results': seq<SendResult>)
      requires i < |snapshot| && DistinctKeys(aiTabs) && aiTabs == Kept(snapshot, alive, i) + snapshot[i..]
      requires results == Results(snapshot, alive, replies, i)
      modifies this`aiTabs, this`messages
      ensures DistinctKeys(aiTabs) && aiTabs == Kept(snapshot, alive, i + 1) + snapshot[i + 1..]
      ensures results' == results + if snapshot[i].tabId in alive then [ResultOf(snapshot[i], replies(snapshot[i].tabId))] else []
      ensures results' == Results(snapshot, alive, replies, i + 1)
      ensures |messages| - |old(messages)| == |results'| - |results|
    {
      var e := snapshot[i];
      SendStep(snapshot, alive, i);
      if e.tabId !in alive {
        aiTabs := Delete(aiTabs, e.siteId);
        results' := results;
      } else {
        messages := messages + [(e.tabId, text)];
        results' := results + [ResultOf(e, replies(e.tabId))];
      }
    }

    /**
     * `sendToAllAITabs`: over the entries as they stood at the start, an
     * entry whose tab no longer exists (`alive`) is deleted and gives no
     * result; every other entry is sent the text and gives one result.
     */
    method SendToAll(text: string, alive: set<int>, replies: int -> Reply) returns (results: seq<SendResult>)
      requires Valid()
      modifies this`aiTabs, this`messages
      ensures Valid()
      ensures aiTabs == Kept(old(aiTabs), alive, |old(aiTabs)|)
      ensures results == Results(old(aiTabs), alive, replies, |old(aiTabs)|)
      ensures |messages| == |old(messages)| + |results|
    {
      results := SendLoop(aiTabs, text, alive, replies);
    }

    /** The loop of `sendToAllAITabs` over a snapshot of the entries. */
    method SendLoop(snapshot: seq<Entry>, text: string, alive: set<int>, replies: int -> Reply) returns (results: seq<SendResult>)
      requires DistinctKeys(aiTabs) && aiTabs == snapshot
      modifies this`aiTabs, this`messages
      ensures DistinctKeys(aiTabs) && aiTabs == Kept(snapshot, alive, |snapshot|)
      ensures results == Results(snapshot, alive, replies, |snapshot|)
      ensures |messages| == |old(messages)| + |results|
    {
      results := [];
      var i := 0;
      while i < |snapshot|
        invariant 0 <= i <= |snapshot|
        invariant DistinctKeys(aiTabs)
        invariant |results| <= i
        invariant aiTabs == Kept(snapshot, alive, i) + snapshot[i..]
        invariant results == Results(snapshot, alive, replies, i)
        invariant |messages| == |old(messages)| + |results|
      {
        results := SendOne(snapshot, i, text, alive, replies, results);
        i := i + 1;
      }
      assert snapshot[i..] == [];
    }

    /** The message listener: each action to its handler; other messages get no answer. */
    method HandleMessage(req: Request, senderTab: int, created: seq<Option<int>>, alive: set<int>, replies: int -> Reply)
      returns (resp: Response)
      requires Valid()
      requires req.OpenAITabs? ==> |created| == |EnabledSites(req.sites)|
      modifies this`aiTabs, this`createdUrls, this`injected, this`activated, this`messages
      ensures Valid()
      ensures req.OpenAITabs? ==> resp == OpenResponse(true, Opened(EnabledSites(req.sites), created, |created|))
      ensures req.SendToAllAI? ==> resp == SendResponse(true, Results(old(aiTabs), alive, replies, |old(aiTabs)|))
      ensures req.GetAITabs? ==> resp == TabsResponse(aiTabs) && aiTabs == old(aiTabs)
      ensures req.RegisterAITab? ==> resp == RegisterResponse(true) && Lookup(aiTabs, req.siteId) == Some(senderTab)
      ensures req.Other? ==> resp == NoAnswer && aiTabs == old(aiTabs)
    {
      match req
      case OpenAITabs(sites) =>
        var tabs := OpenTabs(sites, created);
        resp := OpenResponse(true, tabs);
      case SendToAllAI(text) =>
        var results := SendToAll(text, alive, replies);
        resp := SendResponse(true, results);
      case GetAITabs =>
        resp := TabsResponse(aiTabs);
      case RegisterAITab(siteId) =>
        Register(siteId, senderTab);
        resp := RegisterResponse(true);
      case Other(_) =>
        resp := NoAnswer;
    }
  }

  /** Every result comes from a remembered tab that still exists. */
  lemma ResultsOnlyLiveTabs(es: seq<Entry>, alive: set<int>, replies: int -> Reply)
    ensures forall r :: r in Results(es, alive, replies, |es|) ==> r.tabId in alive
  {
    var kept := Kept(es, alive, |es|);
    var rs := Results(es, alive, replies, |es|);
    KeptMembers(es, alive, |es|);
    ResultsMatchKept(es, alive, replies, |es|);
    forall r | r in rs ensures r.tabId in alive {
      var k :| 0 <= k < |rs| && rs[k] == r;
      assert kept[k] in kept;
    }
  }

  /** A remembered tab that still exists gets the question and reports on it. */
  lemma LiveTabGetsResult(es: seq<Entry>, alive: set<int>, replies: int -> Reply, e: Entry)
    requires e in es && e.tabId in alive
    ensures exists r :: r in Results(es, alive, replies, |es|) && r.siteId == e.siteId && r.tabId == e.tabId
  {
    var kept := Kept(es, alive, |es|);
    var rs := Results(es, alive, replies, |es|);
    KeptMembers(es, alive, |es|);
    ResultsMatchKept(es, alive, replies, |es|);
    assert es[..|es|] == es;
    assert e in kept;
    var k :| 0 <= k < |kept| && kept[k] == e;
    assert rs[k] in rs;
  }
}
