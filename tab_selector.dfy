// The tab selector page (tab-selector/tab-selector.js): up to four open
// tabs are chosen and handed to the split view as its site list.

module TabSelector {
  import opened Common
  import opened Sites
  import SplitView

  const MaxSelection: nat := 4

  predicate HasTabId(tabs: seq<Tab>, id: int) {
    exists t :: t in tabs && t.id == id
  }

  predicate DistinctIds(tabs: seq<Tab>) {
    forall a, b :: 0 <= a < b < |tabs| ==> tabs[a].id != tabs[b].id
  }

  /** The index of the first tab with the id. */
  function IndexOfId(tabs: seq<Tab>, id: int, from: nat): (r: Option<nat>)
    ensures r.Some? ==> from <= r.value < |tabs| && tabs[r.value].id == id
    ensures r.None? ==> forall j :: from <= j < |tabs| ==> tabs[j].id != id
    decreases |tabs| - from
  {
    if from >= |tabs| then None
    else if tabs[from].id == id then Some(from)
    else IndexOfId(tabs, id, from + 1)
  }

  /** `selectedTabs.splice(index, 1)` */
  function RemoveAt(tabs: seq<Tab>, k: nat): (r: seq<Tab>)
    requires k < |tabs|
    ensures |r| == |tabs| - 1
    ensures forall j :: 0 <= j < k ==> r[j] == tabs[j]
    ensures forall j :: k <= j < |r| ==> r[j] == tabs[j + 1]
  {
    tabs[..k] + tabs[k + 1..]
  }

  /** A distinct list loses exactly the removed id. */
  lemma RemoveAtIds(tabs: seq<Tab>, k: nat)
    requires k < |tabs| && DistinctIds(tabs)
    ensures DistinctIds(RemoveAt(tabs, k))
    ensures forall id :: HasTabId(RemoveAt(tabs, k), id) <==> HasTabId(tabs, id) && id != tabs[k].id
  {
    var r := RemoveAt(tabs, k);
    forall id | HasTabId(tabs, id) && id != tabs[k].id ensures HasTabId(r, id) {
      var t :| t in tabs && t.id == id;
      var j :| 0 <= j < |tabs| && tabs[j] == t;
      if j < k { assert r[j] == t; } else { assert r[j - 1] == t; }
    }
    forall id | HasTabId(r, id) ensures HasTabId(tabs, id) && id != tabs[k].id {
      var t :| t in r && t.id == id;
      var j :| 0 <= j < |r| && r[j] == t;
      if j < k { assert tabs[j] == t; } else { assert tabs[j + 1] == t; }
    }
  }

  /** `allTabs.slice(0, MAX_SELECTION)` */
  function FirstTabs(tabs: seq<Tab>): (r: seq<Tab>)
    ensures |r| <= MaxSelection && r <= tabs
    ensures |r| == if |tabs| < MaxSelection then |tabs| else MaxSelection
  {
    if |tabs| < MaxSelection then tabs else tabs[..MaxSelection]
  }

  /** `selectedTabs.map(tab => ({ id, name, url, hostname, enabled: true }))` */
  function SitesOf(tabs: seq<Tab>): (r: seq<Site>)
    ensures |r| == |tabs|
    ensures forall k :: 0 <= k < |tabs| ==> r[k] == SiteFromTab(tabs[k])
  {
    if |tabs| == 0 then [] else [SiteFromTab(tabs[0])] + SitesOf(tabs[1..])
  }

  /** Every card of `allTabs` shows `selected` exactly when its tab is selected. */
  predicate CardsShow(allTabs: seq<Tab>, selected: seq<Tab>, marked: set<int>) {
    forall t :: t in allTabs ==> (t.id in marked <==> HasTabId(selected, t.id))
  }

  class Selector {
    var allTabs: seq<Tab>
    var selected: seq<Tab>
    var marked: set<int>          // ids of the cards showing the `selected` class
    var storage: SplitView.Storage  // the extension's storage, shared with the split view
    var shownCount: nat             // the `selectedCount` and `actionCount` texts
    var startDisabled: bool         // the `startSplitView` button's `disabled`

    /** The counter shows the number selected, and "start" is disabled exactly when none is. */
    ghost predicate CounterShows()
      reads this
    {
      shownCount == |selected| && (startDisabled <==> |selected| == 0)
    }

    /** The selection is bounded and free of repeats, and the counter shows it. */
    ghost predicate Valid()
      reads this
    {
      |selected| <= MaxSelection && DistinctIds(selected) && CounterShows()
    }

    /** Every card shows `selected` exactly when its tab is selected. */
    ghost predicate CardsMatch()
      reads this
    {
      CardsShow(allTabs, selected, marked)
    }

    /** The page as loaded: counter at 0 and "start" disabled. */
    constructor (st: SplitView.Storage)
      ensures Valid() && CardsMatch()
      ensures allTabs == [] && selected == [] && marked == {} && storage == st
      ensures shownCount == 0 && startDisabled
    {
      allTabs := [];
      selected := [];
      marked := {};
      storage := st;
      shownCount := 0;
      startDisabled := true;
    }

    /** `updateCounter`: both counters show the selection's size; "start" is disabled iff it is empty. */
    method UpdateCounter()
      modifies this
      ensures CounterShows()
      ensures shownCount == |selected| && (startDisabled <==> |selected| == 0)
      ensures allTabs == old(allTabs) && selected == old(selected) && marked == old(marked) && storage == old(storage)
    {
      shownCount := |selected|;
      startDisabled := |selected| == 0;
    }

    /**
     * `loadTabs` and `renderTabs`: the eligible tabs, with cards marked from
     * the selection; with no eligible tab the grid is emptied and the
     * counter is not updated.
     */
    method LoadTabs(tabs: seq<Tab>)
      requires Valid()
      modifies this
      ensures Valid() && CardsMatch()
      ensures allTabs == EligibleTabs(tabs) && selected == old(selected) && storage == old(storage)
      ensures |allTabs| == 0 ==> shownCount == old(shownCount) && startDisabled == old(startDisabled)
    {
      allTabs := EligibleTabs(tabs);
      marked := set t | t in allTabs && HasTabId(selected, t.id) :: t.id;
      if |allTabs| == 0 {
        return;
      }
      UpdateCounter();
    }

    /**
     * `toggleTab`: a selected tab is removed; an unselected one is appended
     * when fewer than four are selected; otherwise nothing changes.
     */
    method ToggleTab(tab: Tab)
      requires Valid()
      modifies this
      ensures Valid()
      ensures old(CardsMatch()) ==> CardsMatch()
      ensures HasTabId(old(selected), tab.id) ==>
        selected == RemoveAt(old(selected), IndexOfId(old(selected), tab.id, 0).value) && !HasTabId(selected, tab.id)
        && marked == old(marked) - {tab.id}
      ensures !HasTabId(old(selected), tab.id) && |old(selected)| < MaxSelection ==>
        selected == old(selected) + [tab] && marked == old(marked) + {tab.id}
      ensures !HasTabId(old(selected), tab.id) && |old(selected)| >= MaxSelection ==>
        selected == old(selected) && marked == old(marked) && shownCount == old(shownCount) && startDisabled == old(startDisabled)
      ensures allTabs == old(allTabs) && storage == old(storage)
    {
      var index := IndexOfId(selected, tab.id, 0);
      if index.Some? {
        RemoveAtIds(selected, index.value);
        selected := RemoveAt(selected, index.value);
        marked := marked - {tab.id};
      } else {
        if |selected| >= MaxSelection {
          return;
        }
        selected := selected + [tab];
        marked := marked + {tab.id};
        assert forall t :: t in selected <==> t in old(selected) || t == tab;
      }
      UpdateCounter();
    }

    /** The select-all button as written: the first four tabs are selected, and their cards marked. */
    method SelectAllAsWritten()
      requires Valid() && DistinctIds(allTabs)
      modifies this
      ensures Valid()
      ensures selected == FirstTabs(allTabs)
      ensures marked == old(marked) + set t | t in selected :: t.id
      ensures allTabs == old(allTabs) && storage == old(storage)
    {
      selected := FirstTabs(allTabs);
      marked := marked + set t | t in selected :: t.id;
      UpdateCounter();
    }

    /** Select-all with the cards of the tabs left out unmarked. */
    method SelectAll()
      requires Valid() && DistinctIds(allTabs)
      modifies this
      ensures Valid() && CardsMatch()
      ensures selected == FirstTabs(allTabs)
      ensures allTabs == old(allTabs) && storage == old(storage)
    {
      selected := FirstTabs(allTabs);
      marked := set t | t in selected :: t.id;
      UpdateCounter();
    }

    /** The clear button. */
    method ClearAll()
      modifies this
      ensures Valid() && CardsMatch()
      ensures selected == [] && marked == {}
      ensures allTabs == old(allTabs) && storage == old(storage)
    {
      selected := [];
      marked := {};
      UpdateCounter();
    }

    /**
     * `startSplitView`: refused with nothing selected; otherwise the selected
     * tabs' sites are written to local storage as both
     * `selectedSitesForSplit` and `currentSplitSites`.
     */
    method StartSplitView() returns (started: bool)
      modifies this
      ensures started <==> |selected| > 0
      ensures started ==> storage == old(storage).(localSelected := SplitView.List(SitesOf(selected)), localSplitSites := SitesOf(selected))
      ensures !started ==> storage == old(storage)
      ensures selected == old(selected) && allTabs == old(allTabs) && marked == old(marked)
      ensures shownCount == old(shownCount) && startDisabled == old(startDisabled)
    {
      if |selected| == 0 {
        return false;
      }
      var sites := SitesOf(selected);
      storage := storage.(localSelected := SplitView.List(sites), localSplitSites := sites);
      started := true;
    }
  }

  /**
   * The select-all button as written leaves a card marked after its tab
   * left the selection: whatever the tabs and the marks, a listed tab that
   * is marked but not among the first four is still marked after
   * `SelectAllAsWritten` (whose new marks are `marked + set t | t in
   * FirstTabs(allTabs) :: t.id`), so the cards no longer show the selection.
   */
  lemma SelectAllLeavesStaleMark(allTabs: seq<Tab>, marked: set<int>, t: Tab)
    requires t in allTabs && t.id in marked && !HasTabId(FirstTabs(allTabs), t.id)
    ensures var after := marked + set u | u in FirstTabs(allTabs) :: u.id;
      t.id in after && !CardsShow(allTabs, FirstTabs(allTabs), after)
  {
  }

  /**
   * Such a state is reached: five tabs with the fifth selected (so its card
   * is marked) satisfy the conditions above.
   */
  lemma StaleMarkWithFiveTabs()
    ensures var tabs := seq(5, i => Tab(i, 1, "https://a/", "", "a"));
      tabs[4] in tabs && !HasTabId(FirstTabs(tabs), 4)
      && !CardsShow(tabs, FirstTabs(tabs), {4} + set u | u in FirstTabs(tabs) :: u.id)
  {
    var tabs := seq(5, i => Tab(i, 1, "https://a/", "", "a"));
    assert FirstTabs(tabs) == tabs[..4];
    assert forall u :: u in tabs[..4] ==> u.id < 4;
    SelectAllLeavesStaleMark(tabs, {4}, tabs[4]);
  }

  /**
   * What the tab selector hands over is what the split view shows: a split
   * view loading with a non-empty hand-off takes exactly those sites, each
   * enabled and keyed by its hostname's site id.
   */
  lemma HandOffIsLoaded(selected: seq<Tab>, st: SplitView.Storage, layout: string)
    requires |selected| > 0
    ensures var sites := SitesOf(selected);
      var loaded := SplitView.Loaded(st.(localSelected := SplitView.List(sites), localSplitSites := sites), layout);
      loaded.0 == sites && |loaded.0| == |selected|
      && forall k :: 0 <= k < |selected| ==> loaded.0[k].enabled && loaded.0[k].url == selected[k].url
  {
  }
}
