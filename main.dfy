// The main control panel (main/main.js): the site list kept in sync
// storage, the panel's copy of the background service's site-to-tab map,
// the buttons that open, close and question the AI tabs, the form that adds
// a custom site, and the message log capped at 100 entries. The user's
// confirmations, the clock and the background service's answers are
// parameters.

module MainPanel {
  import opened Common
  import opened Sites
  import opened AiTabs
  import opened Background

  /** The most entries the log keeps. */
  const LogLimit := 100

  /** The log entry's class. */
  datatype Kind = Info | Success | Error

  /** What a log entry reports. */
  datatype Event =
    | Loaded
    | ConfigSaved
    | OpeningAll
    | OpenedAll(count: nat)
    | OpenFailed
    | OpeningSite(name: string)
    | SiteOpened(name: string)
    | NoTabsToClose
    | Closing
    | AllClosed
    | EmptyQuestion
    | NoTabsToSend
    | Sending(preview: string)
    | SendSummary(successes: nat, total: nat)
    | SiteResult(name: string, success: bool)
    | SendFailed
    | FieldsMissing
    | CustomAdded(name: string)
    | SiteDeleted(name: string)
    | ConfigCleared

  datatype LogLine = LogLine(event: Event, kind: Kind)

  /** `addLog`: the entry goes last; past 100 entries the oldest is dropped. */
  function Appended(log: seq<LogLine>, line: LogLine): (r: seq<LogLine>)
    ensures |log| <= LogLimit ==> |r| <= LogLimit
    ensures |r| > 0 && r[|r| - 1] == line
    ensures |log| < LogLimit ==> r == log + [line]
    ensures |log| == LogLimit ==> r == log[1..] + [line]
  {
    var grown := log + [line];
    if |grown| > LogLimit then grown[1..] else grown
  }

  /** Successive `addLog` calls, in order. */
  function Logged(log: seq<LogLine>, lines: seq<LogLine>): (r: seq<LogLine>)
    ensures |log| <= LogLimit ==> |r| <= LogLimit
    decreases |lines|
  {
    if |lines| == 0 then log else Logged(Appended(log, lines[0]), lines[1..])
  }

  /** The newest entries, at most 100 of them. */
  function Newest(lines: seq<LogLine>): (r: seq<LogLine>)
    ensures |r| == if |lines| <= LogLimit then |lines| else LogLimit
    ensures r == lines[|lines| - |r|..]
  {
    if |lines| <= LogLimit then lines else lines[|lines| - LogLimit..]
  }

  /** Whatever is logged, the log holds exactly the newest 100 entries of everything logged. */
  lemma {:induction false} LogKeepsNewest(log: seq<LogLine>, lines: seq<LogLine>)
    requires |log| <= LogLimit
    ensures Logged(log, lines) == Newest(log + lines)
    decreases |lines|
  {
    if |lines| > 0 {
      var next := Appended(log, lines[0]);
      LogKeepsNewest(next, lines[1..]);
      assert log + lines == (log + [lines[0]]) + lines[1..];
      if |log| == LogLimit {
        assert next + lines[1..] == (log + lines)[1..];
      }
    } else {
      assert log + lines == log;
    }
  }

  /** `text.substring(0, 50)`: the question as the log quotes it. */
  function Preview(text: string): (r: string)
    ensures r <= text && |r| == if |text| <= 50 then |text| else 50
  {
    if |text| <= 50 then text else text[..50]
  }

  /** `response.results.filter(r => r.success).length` */
  function SuccessCount(results: seq<SendResult>): (r: nat)
    ensures r <= |results|
  {
    if |results| == 0 then 0 else SuccessCount(results[1..]) + (if results[0].success then 1 else 0)
  }

  /** All sends succeeded exactly when every result reports success. */
  lemma {:induction false} AllSucceededIff(results: seq<SendResult>)
    ensures SuccessCount(results) == |results| <==> forall k :: 0 <= k < |results| ==> results[k].success
  {
    if |results| > 0 {
      AllSucceededIff(results[1..]);
      assert forall k :: 1 <= k < |results| ==> results[1..][k - 1] == results[k];
    }
  }

  /** `aiSites.find(s => s.id === id)` */
  function FindSite(sites: seq<Site>, id: string): (r: Option<Site>)
    ensures r.Some? ==> r.value in sites && r.value.id == id
    ensures r.Some? ==> exists k :: 0 <= k < |sites| && sites[k] == r.value && forall j :: 0 <= j < k ==> sites[j].id != id
    ensures r.None? <==> forall s :: s in sites ==> s.id != id
  {
    if |sites| == 0 then None
    else if sites[0].id == id then Some(sites[0])
    else
      var r := FindSite(sites[1..], id);
      assert forall s :: s in sites <==> s == sites[0] || s in sites[1..];
      r
  }

  /** The per-site lines of a send report: one for each result whose site is still listed. */
  function ResultLines(sites: seq<Site>, results: seq<SendResult>): (r: seq<LogLine>)
    ensures |r| <= |results|
    ensures forall l :: l in r ==> l.event.SiteResult? && (l.kind == Success <==> l.event.success)
  {
    if |results| == 0 then []
    else
      var rest := ResultLines(sites, results[1..]);
      var res := results[0];
      match FindSite(sites, res.siteId)
      case None => rest
      case Some(s) => [LogLine(SiteResult(s.name, res.success), if res.success then Success else Error)] + rest
  }

  /** Every result whose site is listed gets a line with that site's name. */
  lemma {:induction false} ResultLinesCover(sites: seq<Site>, results: seq<SendResult>, k: nat)
    requires k < |results| && FindSite(sites, results[k].siteId).Some?
    ensures LogLine(SiteResult(FindSite(sites, results[k].siteId).value.name, results[k].success),
                    if results[k].success then Success else Error) in ResultLines(sites, results)
  {
    var rest := ResultLines(sites, results[1..]);
    if k > 0 {
      assert results[1..][k - 1] == results[k];
      ResultLinesCover(sites, results[1..], k - 1);
      assert rest <= ResultLines(sites, results) || rest == ResultLines(sites, results)[1..];
    }
  }

  /** The log lines a send response produces. */
  function SendReport(sites: seq<Site>, reply: Option<Response>): (r: seq<LogLine>)
    ensures |r| > 0
    ensures (reply.Some? && reply.value.SendResponse? && reply.value.success) <==> r[0].event.SendSummary?
  {
    if reply.Some? && reply.value.SendResponse? && reply.value.success then
      var results := reply.value.results;
      var ok := SuccessCount(results);
      [LogLine(SendSummary(ok, |results|), if ok == |results| then Success else Error)] + ResultLines(sites, results)
    else
      [LogLine(SendFailed, Error)]
  }

  /** The summary line is a success exactly when every tab reported success. */
  lemma SummaryIsSuccessIff(sites: seq<Site>, results: seq<SendResult>)
    ensures SendReport(sites, Some(SendResponse(true, results)))[0]
      == LogLine(SendSummary(SuccessCount(results), |results|),
                 if forall k :: 0 <= k < |results| ==> results[k].success then Success else Error)
  {
    AllSucceededIff(results);
  }

  /** `aiSites.splice(index, 1)` */
  function RemovedAt(sites: seq<Site>, index: nat): (r: seq<Site>)
    requires index < |sites|
    ensures |r| == |sites| - 1
    ensures forall j :: 0 <= j < index ==> r[j] == sites[j]
    ensures forall j :: index <= j < |r| ==> r[j] == sites[j + 1]
  {
    sites[..index] + sites[index + 1..]
  }

  /** Putting the removed site back at its index restores the list. */
  lemma RemovedAtRestores(sites: seq<Site>, index: nat)
    requires index < |sites|
    ensures RemovedAt(sites, index)[..index] + [sites[index]] + RemovedAt(sites, index)[index..] == sites
  {
    var r := RemovedAt(sites, index);
    assert r[..index] == sites[..index];
    assert r[index..] == sites[index + 1..];
  }

  /** The site `addCustomAI` builds from its four trimmed fields and the clock. */
  function CustomSite(name: string, url: string, inputSelector: string, sendSelector: string, now: nat): (r: Site)
    ensures r.enabled && r.isCustom && r.hostname.None?
    ensures StartsWith(r.id, "custom_")
  {
    Site("custom_" + NatToString(now), name, url, None, true, true, Some(inputSelector), Some(sendSelector))
  }

  /** Filtering a list with one more site at the end. */
  lemma {:induction false} EnabledSitesAppend(sites: seq<Site>, s: Site)
    ensures EnabledSites(sites + [s]) == EnabledSites(sites) + (if s.enabled then [s] else [])
  {
    if |sites| > 0 {
      assert (sites + [s])[1..] == sites[1..] + [s];
      EnabledSitesAppend(sites[1..], s);
    } else {
      assert (sites + [s])[1..] == [];
    }
  }

  /** One preview card: a site, and whether the panel believes its tab is open. */
  datatype Card = Card(siteId: string, name: string, url: string, tabOpen: bool)

  /** `aiTabs[site.id]` tested for truthiness: a present, non-zero tab id. */
  predicate TabKnown(tabs: seq<Entry>, id: string) {
    var v := Lookup(tabs, id);
    v.Some? && v.value != 0
  }

  /** `renderAIPreviewCards`: one card per enabled site, in order (no card means the hint is shown). */
  function PreviewCards(sites: seq<Site>, tabs: seq<Entry>): (r: seq<Card>)
    ensures |r| == |EnabledSites(sites)|
    ensures forall k :: 0 <= k < |r| ==>
      var s := EnabledSites(sites)[k];
      r[k] == Card(s.id, s.name, s.url, TabKnown(tabs, s.id))
  {
    var enabled := EnabledSites(sites);
    seq(|enabled|, k requires 0 <= k < |enabled| => Card(enabled[k].id, enabled[k].name, enabled[k].url, TabKnown(tabs, enabled[k].id)))
  }

  /** A card's button: switch to the known tab, or open the site. */
  datatype CardAction = Activate(tabId: int) | OpenSite(siteId: string)

  function ActionOf(card: Card, tabs: seq<Entry>): (r: CardAction)
    requires card.tabOpen == TabKnown(tabs, card.siteId)
    ensures r.Activate? <==> card.tabOpen
    ensures r.Activate? ==> Lookup(tabs, card.siteId) == Some(r.tabId) && r.tabId != 0
    ensures r.OpenSite? ==> r.siteId == card.siteId
  {
    if card.tabOpen then Activate(Lookup(tabs, card.siteId).value) else OpenSite(card.siteId)
  }

  /** Every enabled site has a card, and only those. */
  lemma CardsAreEnabledSites(sites: seq<Site>, tabs: seq<Entry>)
    ensures forall c :: c in PreviewCards(sites, tabs) ==>
      exists s :: s in sites && s.enabled && s.id == c.siteId && s.name == c.name && s.url == c.url
    ensures forall s :: s in sites && s.enabled ==> Card(s.id, s.name, s.url, TabKnown(tabs, s.id)) in PreviewCards(sites, tabs)
  {
    var enabled := EnabledSites(sites);
    var cards := PreviewCards(sites, tabs);
    forall c | c in cards
      ensures exists s :: s in sites && s.enabled && s.id == c.siteId && s.name == c.name && s.url == c.url
    {
      var k :| 0 <= k < |cards| && cards[k] == c;
      assert enabled[k] in enabled;
    }
    forall s | s in sites && s.enabled ensures Card(s.id, s.name, s.url, TabKnown(tabs, s.id)) in cards {
      var k :| 0 <= k < |enabled| && enabled[k] == s;
      assert cards[k] == Card(s.id, s.name, s.url, TabKnown(tabs, s.id));
    }
  }

  /** The badge: how many AI tabs run, or "not started". */
  datatype Badge = Running(count: nat) | NotStarted

  class Panel {
    var aiSites: seq<Site>
    var aiTabs: seq<Entry>
    var stored: Option<seq<Site>>   // `aiSites` in sync storage
    var log: seq<LogLine>
    var closedTabs: seq<int>          // `tabs.remove` calls

    ghost predicate Valid()
      reads this
    {
      DistinctKeys(aiTabs) && |log| <= LogLimit
    }

    /** The page before `DOMContentLoaded`: no sites, no tabs, an empty log. */
    constructor (storage: Option<seq<Site>>)
      ensures Valid() && aiSites == [] && aiTabs == [] && stored == storage && log == [] && closedTabs == []
    {
      aiSites := [];
      aiTabs := [];
      stored := storage;
      log := [];
      closedTabs := [];
    }

    /** `addLog` */
    method AddLog(event: Event, kind: Kind)
      requires |log| <= LogLimit
      modifies this`log
      ensures log == Appended(old(log), LogLine(event, kind))
    {
      log := log + [LogLine(event, kind)];
      if |log| > LogLimit {
        log := log[1..];
      }
    }

    /** `clearLog` */
    method ClearLog()
      modifies this`log
      ensures log == []
    {
      log := [];
    }

    /** `saveConfig`: the list is written to sync storage, and its callback logs the save. */
    method SaveConfig()
      requires |log| <= LogLimit
      modifies this`stored, this`log
      ensures stored == Some(aiSites)
      ensures log == Appended(old(log), LogLine(ConfigSaved, Success))
    {
      stored := Some(aiSites);
      AddLog(ConfigSaved, Success);
    }

    /** `loadConfig`, then the load message: the stored list, or none. */
    method LoadConfig()
      requires Valid()
      modifies this`aiSites, this`log
      ensures Valid()
      ensures aiSites == if stored.Some? then stored.value else []
      ensures log == Appended(old(log), LogLine(Loaded, Success))
    {
      aiSites := if stored.Some? then stored.value else [];
      AddLog(Loaded, Success);
    }

    /** A site's checkbox: its `enabled` flag follows the box, and the list is saved. */
    method SetEnabled(index: nat, checked: bool)
      requires Valid() && index < |aiSites|
      modifies this`aiSites, this`stored, this`log
      ensures Valid()
      ensures aiSites == old(aiSites)[index := old(aiSites)[index].(enabled := checked)]
      ensures stored == Some(aiSites)
      ensures log == Appended(old(log), LogLine(ConfigSaved, Success))
    {
      aiSites := aiSites[index := aiSites[index].(enabled := checked)];
      SaveConfig();
    }

    /**
     * `addCustomAI`: with every trimmed field given, an enabled custom site
     * named by the clock is appended and saved; otherwise nothing but an
     * error line.
     */
    method AddCustomAI(name: string, url: string, inputSelector: string, sendSelector: string, now: nat)
      returns (added: bool)
      requires Valid()
      modifies this`aiSites, this`stored, this`log
      ensures Valid()
      ensures added <==> Trim(name) != "" && Trim(url) != "" && Trim(inputSelector) != "" && Trim(sendSelector) != ""
      ensures added ==>
        aiSites == old(aiSites) + [CustomSite(Trim(name), Trim(url), Trim(inputSelector), Trim(sendSelector), now)]
        && stored == Some(aiSites)
        && log == Appended(Appended(old(log), LogLine(CustomAdded(Trim(name)), Success)), LogLine(ConfigSaved, Success))
      ensures !added ==>
        aiSites == old(aiSites) && stored == old(stored)
        && log == Appended(old(log), LogLine(FieldsMissing, Error))
    {
      added := AddTrimmed(Trim(name), Trim(url), Trim(inputSelector), Trim(sendSelector), now);
    }

    /** The rest of `addCustomAI`, once the four fields are trimmed. */
    method AddTrimmed(name: string, url: string, inputSelector: string, sendSelector: string, now: nat)
      returns (added: bool)
      requires Valid()
      modifies this`aiSites, this`stored, this`log
      ensures Valid()
      ensures added <==> name != "" && url != "" && inputSelector != "" && sendSelector != ""
      ensures added ==>
        aiSites == old(aiSites) + [CustomSite(name, url, inputSelector, sendSelector, now)]
        && stored == Some(aiSites)
        && log == Appended(Appended(old(log), LogLine(CustomAdded(name), Success)), LogLine(ConfigSaved, Success))
      ensures !added ==>
        aiSites == old(aiSites) && stored == old(stored)
        && log == Appended(old(log), LogLine(FieldsMissing, Error))
    {
      if name == "" || url == "" || inputSelector == "" || sendSelector == "" {
        AddLog(FieldsMissing, Error);
        return false;
      }
      aiSites := aiSites + [CustomSite(name, url, inputSelector, sendSelector, now)];
      AddLog(CustomAdded(name), Success);
      SaveConfig();
      added := true;
    }

    /** `deleteAISite`: after confirmation, exactly the site at `index` is removed and the list saved. */
    method DeleteAISite(index: nat, confirmed: bool)
      requires Valid() && index < |aiSites|
      modifies this`aiSites, this`stored, this`log
      ensures Valid()
      ensures confirmed ==>
        aiSites == RemovedAt(old(aiSites), index) && stored == Some(aiSites)
        && log == Appended(Appended(old(log), LogLine(SiteDeleted(old(aiSites)[index].name), Success)), LogLine(ConfigSaved, Success))
      ensures !confirmed ==> aiSites == old(aiSites) && stored == old(stored) && log == old(log)
    {
      var site := aiSites[index];
      if confirmed {
        aiSites := RemovedAt(aiSites, index);
        AddLog(SiteDeleted(site.name), Success);
        SaveConfig();
      }
    }

    /** `resetConfig`: after confirmation, the site list is emptied and saved. */
    method ResetConfig(confirmed: bool)
      requires Valid()
      modifies this`aiSites, this`stored, this`log
      ensures Valid()
      ensures confirmed ==>
        aiSites == [] && stored == Some([])
        && log == Appended(Appended(old(log), LogLine(ConfigCleared, Success)), LogLine(ConfigSaved, Success))
      ensures !confirmed ==> aiSites == old(aiSites) && stored == old(stored) && log == old(log)
    {
      if confirmed {
        aiSites := [];
        AddLog(ConfigCleared, Success);
        SaveConfig();
      }
    }

    /**
     * `openAllAI`: the whole list goes to the background service; on a
     * successful answer each opened tab is recorded under its site, in order.
     */
    method OpenAllAI(reply: Option<Response>) returns (request: seq<Site>)
      requires Valid()
      modifies this`aiTabs, this`log
      ensures Valid()
      ensures request == aiSites
      ensures (reply.Some? && reply.value.OpenResponse? && reply.value.success) ==>
        aiTabs == PutAll(old(aiTabs), EntriesOf(reply.value.tabs))
        && log == Appended(Appended(old(log), LogLine(OpeningAll, Info)), LogLine(OpenedAll(|reply.value.tabs|), Success))
      ensures !(reply.Some? && reply.value.OpenResponse? && reply.value.success) ==>
        aiTabs == old(aiTabs)
        && log == Appended(Appended(old(log), LogLine(OpeningAll, Info)), LogLine(OpenFailed, Error))
    {
      request := aiSites;
      AddLog(OpeningAll, Info);
      if reply.Some? && reply.value.OpenResponse? && reply.value.success {
        var tabs := reply.value.tabs;
        AddLog(OpenedAll(|tabs|), Success);
        RecordTabs(tabs);
      } else {
        AddLog(OpenFailed, Error);
      }
    }

    /** `response.tabs.forEach(tab => { aiTabs[tab.siteId] = tab.tabId })` */
    method RecordTabs(tabs: seq<OpenedTab>)
      requires DistinctKeys(aiTabs)
      modifies this`aiTabs
      ensures DistinctKeys(aiTabs)
      ensures aiTabs == PutAll(old(aiTabs), EntriesOf(tabs))
    {
      var i := 0;
      while i < |tabs|
        invariant 0 <= i <= |tabs|
        invariant DistinctKeys(old(aiTabs)) && DistinctKeys(aiTabs)
        invariant aiTabs == PutAll(old(aiTabs), EntriesOf(tabs[..i]))
      {
        assert EntriesOf(tabs[..i + 1])[..i] == EntriesOf(tabs[..i]);
        aiTabs := Put(aiTabs, tabs[i].siteId, tabs[i].tabId);
        i := i + 1;
      }
      assert tabs[..i] == tabs;
    }

    /** `openSingleAI`: the created tab is recorded under the site's id. */
    method OpenSingleAI(site: Site, tabId: int)
      requires Valid()
      modifies this`aiTabs, this`log
      ensures Valid()
      ensures Lookup(aiTabs, site.id) == Some(tabId)
      ensures forall k :: k != site.id ==> Lookup(aiTabs, k) == Lookup(old(aiTabs), k)
      ensures log == Appended(Appended(old(log), LogLine(OpeningSite(site.name), Info)), LogLine(SiteOpened(site.name), Success))
    {
      AddLog(OpeningSite(site.name), Info);
      PutOthers(aiTabs, site.id, tabId);
      aiTabs := Put(aiTabs, site.id, tabId);
      AddLog(SiteOpened(site.name), Success);
    }

    /** `closeAllAI`: with no known tab, an error line; otherwise every known tab is closed, in order, and the map emptied. */
    method CloseAllAI()
      requires Valid()
      modifies this`aiTabs, this`closedTabs, this`log
      ensures Valid()
      ensures |old(aiTabs)| == 0 ==>
        aiTabs == old(aiTabs) && closedTabs == old(closedTabs)
        && log == Appended(old(log), LogLine(NoTabsToClose, Error))
      ensures |old(aiTabs)| > 0 ==>
        aiTabs == [] && closedTabs == old(closedTabs) + Values(old(aiTabs))
        && log == Appended(Appended(old(log), LogLine(Closing, Info)), LogLine(AllClosed, Success))
    {
      if |aiTabs| == 0 {
        AddLog(NoTabsToClose, Error);
        return;
      }
      AddLog(Closing, Info);
      var ids := Values(aiTabs);
      var i := 0;
      while i < |ids|
        invariant 0 <= i <= |ids|
        invariant closedTabs == old(closedTabs) + ids[..i]
        invariant aiTabs == old(aiTabs) && log == Appended(old(log), LogLine(Closing, Info))
      {
        closedTabs := closedTabs + [ids[i]];
        i := i + 1;
        assert ids[..i] == ids[..i - 1] + [ids[i - 1]];
      }
      assert ids[..i] == ids;
      aiTabs := [];
      AddLog(AllClosed, Success);
    }

    /**
     * `sendToAllAI`: a blank question or an empty map sends nothing; else
     * the trimmed question goes to the background service and its answer
     * is reported, a summary line and then one line per listed site.
     */
    method SendToAllAI(input: string, reply: Option<Response>) returns (sent: Option<string>)
      requires Valid()
      modifies this`log
      ensures Valid()
      ensures sent.Some? <==> Trim(input) != "" && |aiTabs| > 0
      ensures sent.Some? ==>
        (sent.value == Trim(input)
         && log == Logged(old(log), [LogLine(Sending(Preview(Trim(input))), Info)] + SendReport(aiSites, reply)))
      ensures Trim(input) == "" ==> log == Appended(old(log), LogLine(EmptyQuestion, Error))
      ensures Trim(input) != "" && |aiTabs| == 0 ==> log == Appended(old(log), LogLine(NoTabsToSend, Error))
    {
      var text := Trim(input);
      if text == "" {
        AddLog(EmptyQuestion, Error);
        return None;
      }
      if |aiTabs| == 0 {
        AddLog(NoTabsToSend, Error);
        return None;
      }
      AddLog(Sending(Preview(text)), Info);
      var lines := SendReport(aiSites, reply);
      var i := 0;
      while i < |lines|
        invariant 0 <= i <= |lines| && |log| <= LogLimit
        invariant Logged(old(log), [LogLine(Sending(Preview(text)), Info)] + lines)
               == Logged(log, lines[i..])
      {
        AddLog(lines[i].event, lines[i].kind);
        assert lines[i..][1..] == lines[i + 1..];
        i := i + 1;
      }
      sent := Some(text);
    }

    /** `updateStatus`: a tabs answer replaces the map and sets the badge; no answer changes nothing. */
    method UpdateStatus(reply: Option<Response>) returns (badge: Option<Badge>)
      requires Valid()
      requires reply.Some? && reply.value.TabsResponse? ==> DistinctKeys(reply.value.entries)
      modifies this`aiTabs
      ensures Valid()
      ensures reply.Some? && reply.value.TabsResponse? ==>
        aiTabs == reply.value.entries
        && badge == Some(if |aiTabs| > 0 then Running(|aiTabs|) else NotStarted)
      ensures !(reply.Some? && reply.value.TabsResponse?) ==> aiTabs == old(aiTabs) && badge.None?
    {
      if reply.Some? && reply.value.TabsResponse? {
        aiTabs := reply.value.entries;
        badge := Some(if |aiTabs| > 0 then Running(|aiTabs|) else NotStarted);
      } else {
        badge := None;
      }
    }
  }

  /** A site added through the form gets a preview card at the end. */
  lemma AddedSiteGetsCard(sites: seq<Site>, tabs: seq<Entry>, name: string, url: string, inputSelector: string, sendSelector: string, now: nat)
    ensures var s := CustomSite(name, url, inputSelector, sendSelector, now);
      PreviewCards(sites + [s], tabs) == PreviewCards(sites, tabs) + [Card(s.id, s.name, s.url, TabKnown(tabs, s.id))]
  {
    var s := CustomSite(name, url, inputSelector, sendSelector, now);
    EnabledSitesAppend(sites, s);
  }

  /** Every tab the map knows is among those `closeAllAI` closes. */
  lemma ClosesEveryKnownTab(tabs: seq<Entry>, id: string)
    requires Lookup(tabs, id).Some?
    ensures Lookup(tabs, id).value in Values(tabs)
  {
    var i :| 0 <= i < |tabs| && tabs[i] == Entry(id, Lookup(tabs, id).value);
    assert Values(tabs)[i] == tabs[i].tabId;
  }
}
