// The window manager page (window-manager/window-manager.js): tabs of
// every window are listed, up to a layout's maximum are checked, and
// "apply" moves each checked tab into a window of its own, tiled over the
// primary display's work area. Window geometry is exact real arithmetic;
// the rounding to whole pixels when the windows are updated is not part of
// this model.

module WindowManager {
  import opened Common
  import opened Sites

  /** `getMaxTabsForLayout`: the known layouts, and 2 for anything else. */
  function MaxTabs(layout: string): (r: nat)
    ensures layout == "2-vertical" || layout == "2-horizontal" ==> r == 2
    ensures layout == "3-horizontal" ==> r == 3
    ensures layout == "4-grid" ==> r == 4
    ensures !KnownLayout(layout) ==> r == 2
  {
    if layout == "2-vertical" || layout == "2-horizontal" then 2
    else if layout == "3-horizontal" then 3
    else if layout == "4-grid" then 4
    else 2
  }

  predicate KnownLayout(layout: string) {
    layout == "2-vertical" || layout == "2-horizontal" || layout == "3-horizontal" || layout == "4-grid"
  }

  // ---------------------------------------------------------------------
  // Tiling
  // ---------------------------------------------------------------------

  /** A rectangle on the screen: the work area, or one window's placement. */
  datatype Area = Area(left: real, top: real, width: real, height: real)

  /** The gap between neighbouring windows. */
  const Gap: real := 4.0

  /** Every panel `calculateWindowPositions` lays out for a layout, before the count cuts it. */
  function Panels(layout: string, s: Area): seq<Area> {
    if layout == "2-vertical" then
      [Area(s.left, s.top, s.width, (s.height - Gap) / 2.0),
       Area(s.left, s.top + (s.height + Gap) / 2.0, s.width, (s.height - Gap) / 2.0)]
    else if layout == "2-horizontal" then
      [Area(s.left, s.top, (s.width - Gap) / 2.0, s.height),
       Area(s.left + (s.width + Gap) / 2.0, s.top, (s.width - Gap) / 2.0, s.height)]
    else if layout == "3-horizontal" then
      var w3 := (s.width - Gap * 2.0) / 3.0;
      [Area(s.left, s.top, w3, s.height),
       Area(s.left + (w3 + Gap), s.top, w3, s.height),
       Area(s.left + 2.0 * (w3 + Gap), s.top, w3, s.height)]
    else if layout == "4-grid" then
      var w2 := (s.width - Gap) / 2.0;
      var h2 := (s.height - Gap) / 2.0;
      [Area(s.left, s.top, w2, h2),
       Area(s.left + w2 + Gap, s.top, w2, h2),
       Area(s.left, s.top + h2 + Gap, w2, h2),
       Area(s.left + w2 + Gap, s.top + h2 + Gap, w2, h2)]
    else []
  }

  /** `calculateWindowPositions(layout, count, screen)`: the first `count` panels. */
  function WindowPositions(layout: string, count: nat, s: Area): (r: seq<Area>)
    ensures |r| == (if count < |Panels(layout, s)| then count else |Panels(layout, s)|)
    ensures r <= Panels(layout, s)
    ensures !KnownLayout(layout) ==> r == []
    ensures KnownLayout(layout) && count <= MaxTabs(layout) ==> |r| == count
  {
    var ps := Panels(layout, s);
    if count < |ps| then ps[..count] else ps
  }

  /** Two windows lie apart by at least the gap, side by side or one above the other. */
  predicate Apart(a: Area, b: Area) {
    a.left + a.width + Gap <= b.left || b.left + b.width + Gap <= a.left
    || a.top + a.height + Gap <= b.top || b.top + b.height + Gap <= a.top
  }

  predicate Within(p: Area, s: Area) {
    s.left <= p.left && p.left + p.width <= s.left + s.width
    && s.top <= p.top && p.top + p.height <= s.top + s.height
  }

  /**
   * The panels of a known layout tile the work area: they are all the same
   * size, no two overlap, all lie inside the area, the first starts at its
   * top-left corner and the last ends at its bottom-right corner.
   */
  lemma PanelsTile(layout: string, s: Area)
    requires KnownLayout(layout)
    requires s.width >= 2.0 * Gap && s.height >= Gap
    ensures var ps := Panels(layout, s);
      |ps| == MaxTabs(layout)
      && (forall i :: 0 <= i < |ps| ==> ps[i].width == ps[0].width && ps[i].height == ps[0].height)
      && (forall i, j :: 0 <= i < j < |ps| ==> Apart(ps[i], ps[j]))
      && (forall i :: 0 <= i < |ps| ==> Within(ps[i], s) && ps[i].width >= 0.0 && ps[i].height >= 0.0)
      && ps[0].left == s.left && ps[0].top == s.top
      && ps[|ps| - 1].left + ps[|ps| - 1].width == s.left + s.width
      && ps[|ps| - 1].top + ps[|ps| - 1].height == s.top + s.height
  {
  }

  /** Neighbours are exactly the gap apart: a column's right edge plus the gap is the next column's left edge, likewise for rows. */
  lemma NeighboursOneGapApart(layout: string, s: Area)
    requires KnownLayout(layout)
    ensures var ps := Panels(layout, s);
      (layout == "2-vertical" ==> ps[0].top + ps[0].height + Gap == ps[1].top)
      && (layout == "2-horizontal" || layout == "3-horizontal" || layout == "4-grid" ==>
            ps[0].left + ps[0].width + Gap == ps[1].left)
      && (layout == "3-horizontal" ==> ps[1].left + ps[1].width + Gap == ps[2].left)
      && (layout == "4-grid" ==> ps[0].top + ps[0].height + Gap == ps[2].top && ps[2].left + ps[2].width + Gap == ps[3].left)
  {
  }

  /** Within a layout's maximum, every checked tab gets a position. */
  lemma PositionForEveryTab(layout: string, count: nat, s: Area)
    requires KnownLayout(layout) && count <= MaxTabs(layout)
    ensures |WindowPositions(layout, count, s)| == count
  {
  }

  // ---------------------------------------------------------------------
  // Listing tabs
  // ---------------------------------------------------------------------

  /** The page lists every tab except the extension's own pages. */
  predicate Listable(t: Tab) {
    !StartsWith(t.url, "chrome-extension://")
  }

  /** The listable tabs among the first `n` of one window's, in order. */
  function ListedOf(tabs: seq<Tab>, n: nat): (r: seq<Tab>)
    requires n <= |tabs|
    ensures forall t :: t in r <==> t in tabs[..n] && Listable(t)
  {
    if n == 0 then []
    else
      assert tabs[..n] == tabs[..n - 1] + [tabs[n - 1]];
      ListedOf(tabs, n - 1) + (if Listable(tabs[n - 1]) then [tabs[n - 1]] else [])
  }

  /** The listable tabs of the first `n` windows, window by window. */
  function Listed(windows: seq<seq<Tab>>, n: nat): (r: seq<Tab>)
    requires n <= |windows|
    ensures forall t :: t in r <==> Listable(t) && exists w :: 0 <= w < n && t in windows[w]
  {
    if n == 0 then []
    else
      assert windows[n - 1][..|windows[n - 1]|] == windows[n - 1];
      Listed(windows, n - 1) + ListedOf(windows[n - 1], |windows[n - 1]|)
  }

  /** The inner loop of `loadTabs`: one window's listable tabs appended in order. */
  method ListWindow(listed: seq<Tab>, tabs: seq<Tab>) returns (r: seq<Tab>)
    ensures r == listed + ListedOf(tabs, |tabs|)
  {
    var window: seq<Tab> := [];
    var t := 0;
    while t < |tabs|
      invariant 0 <= t <= |tabs|
      invariant window == ListedOf(tabs, t)
    {
      if Listable(tabs[t]) {
        window := window + [tabs[t]];
      }
      t := t + 1;
    }
    r := listed + window;
  }

  // ---------------------------------------------------------------------
  // Selection
  // ---------------------------------------------------------------------

  /** `selectedTabIds.filter(id => id !== tabId)` */
  function WithoutTabId(ids: seq<int>, id: int): (r: seq<int>)
    ensures |r| <= |ids|
    ensures forall x :: x in r <==> x in ids && x != id
    ensures id !in ids ==> r == ids
  {
    if |ids| == 0 then []
    else
      assert forall x :: x in ids <==> x == ids[0] || x in ids[1..];
      (if ids[0] == id then [] else [ids[0]]) + WithoutTabId(ids[1..], id)
  }

  // ---------------------------------------------------------------------
  // Original window states
  // ---------------------------------------------------------------------

  datatype WindowState = WindowState(left: int, top: int, width: int, height: int, state: string)

  /** A window's state is recorded only the first time the window is seen. */
  function Record(states: map<int, WindowState>, w: (int, WindowState)): map<int, WindowState> {
    if w.0 in states then states else states[w.0 := w.1]
  }

  /**
   * The capture loop of `applySplitScreen`: the window of each checked tab
   * in turn, stopping at the first tab that no longer exists (`tabs.get`
   * throws). `windows` maps a tab id to its window's id and current state.
   */
  function Captured(states: map<int, WindowState>, ids: seq<int>, windows: map<int, (int, WindowState)>): (r: map<int, WindowState>)
    ensures states.Keys <= r.Keys
    ensures forall w :: w in states ==> r[w] == states[w]
    ensures forall w :: w in r && w !in states ==> exists k :: 0 <= k < |ids| && ids[k] in windows && windows[ids[k]].0 == w
    decreases |ids|
  {
    if |ids| == 0 || ids[0] !in windows then states
    else
      var r := Captured(Record(states, windows[ids[0]]), ids[1..], windows);
      assert forall k :: 0 <= k < |ids| - 1 ==> ids[1..][k] == ids[k + 1];
      r
  }

  predicate AllKnown(ids: seq<int>, windows: map<int, (int, WindowState)>) {
    forall k :: 0 <= k < |ids| ==> ids[k] in windows
  }

  /** When every checked tab exists, the window of each one has a recorded state. */
  lemma {:induction false} CapturesEveryWindow(states: map<int, WindowState>, ids: seq<int>, windows: map<int, (int, WindowState)>)
    requires AllKnown(ids, windows)
    ensures forall k :: 0 <= k < |ids| ==> windows[ids[k]].0 in Captured(states, ids, windows)
    decreases |ids|
  {
    if |ids| > 0 {
      var next := Record(states, windows[ids[0]]);
      CapturesEveryWindow(next, ids[1..], windows);
      forall k | 0 <= k < |ids| ensures windows[ids[k]].0 in Captured(states, ids, windows) {
        if k > 0 {
          assert ids[1..][k - 1] == ids[k];
        }
      }
    }
  }

  // ---------------------------------------------------------------------
  // History
  // ---------------------------------------------------------------------

  const HistoryLimit: nat := 20

  datatype HistoryEntry = HistoryEntry(timestamp: string, layout: string, tabCount: nat)

  /** `saveToHistory`: `unshift` the entry, then `pop` once when over 20. */
  function Pushed(history: seq<HistoryEntry>, e: HistoryEntry): (r: seq<HistoryEntry>)
    ensures |r| > 0 && r[0] == e && r[1..] <= history
    ensures |r| == if |history| >= HistoryLimit then |history| else |history| + 1
    ensures |history| <= HistoryLimit ==> |r| <= HistoryLimit
  {
    var h := [e] + history;
    if |h| > HistoryLimit then h[..|h| - 1] else h
  }

  /** Saving several entries in turn. */
  function PushedAll(history: seq<HistoryEntry>, es: seq<HistoryEntry>): seq<HistoryEntry>
    decreases |es|
  {
    if |es| == 0 then history else PushedAll(Pushed(history, es[0]), es[1..])
  }

  function Reversed<T>(s: seq<T>): (r: seq<T>)
    ensures |r| == |s| && forall k :: 0 <= k < |s| ==> r[k] == s[|s| - 1 - k]
  {
    if |s| == 0 then [] else Reversed(s[1..]) + [s[0]]
  }

  /** The history holds the newest entries first, at most 20 of them. */
  lemma {:induction false} HistoryKeepsNewest(history: seq<HistoryEntry>, es: seq<HistoryEntry>)
    requires |history| <= HistoryLimit
    ensures var n := if |es| + |history| < HistoryLimit then |es| + |history| else HistoryLimit;
      PushedAll(history, es) == (Reversed(es) + history)[..n]
    decreases |es|
  {
    if |es| > 0 {
      var b := [es[0]] + history;
      var m := if |b| < HistoryLimit then |b| else HistoryLimit;
      assert PushedAll(history, es) == PushedAll(b[..m], es[1..]) by {
        assert Pushed(history, es[0]) == b[..m];
      }
      HistoryKeepsNewest(b[..m], es[1..]);
      HistoryStep(history, es, m);
    }
  }

  /** One saved entry: the newest-first window over the rest extends to the whole. */
  lemma HistoryStep(history: seq<HistoryEntry>, es: seq<HistoryEntry>, m: nat)
    requires |es| > 0 && m == if |history| + 1 < HistoryLimit then |history| + 1 else HistoryLimit
    ensures var n := if |es| + |history| < HistoryLimit then |es| + |history| else HistoryLimit;
      (Reversed(es[1..]) + ([es[0]] + history)[..m])[..n] == (Reversed(es) + history)[..n]
  {
    var n := if |es| + |history| < HistoryLimit then |es| + |history| else HistoryLimit;
    assert Reversed(es) == Reversed(es[1..]) + [es[0]];
    TakeAfterSnoc(Reversed(es[1..]), es[0], history, m, n);
  }

  /** Cutting the tail before taking a prefix that fits changes nothing. */
  lemma TakeAfterSnoc<T>(a: seq<T>, x: T, h: seq<T>, m: nat, n: nat)
    requires m <= |h| + 1 && n <= |a| + m
    ensures (a + ([x] + h)[..m])[..n] == ((a + [x]) + h)[..n]
  {
    assert (a + [x]) + h == a + ([x] + h);
  }

  // ---------------------------------------------------------------------
  // Saved layouts
  // ---------------------------------------------------------------------

  datatype TabRef = TabRef(url: string, title: string)

  datatype SavedLayout = SavedLayout(id: int, name: string, layout: string, tabUrls: seq<TabRef>, createdAt: string)

  /** The URLs of saved tab references, in order. */
  function RefUrls(refs: seq<TabRef>): (r: seq<string>)
    ensures |r| == |refs| && forall k :: 0 <= k < |refs| ==> r[k] == refs[k].url
  {
    if |refs| == 0 then [] else RefUrls(refs[..|refs| - 1]) + [refs[|refs| - 1].url]
  }

  /** Asking for one more reference asks for its URL last. */
  lemma RefUrlsAppend(refs: seq<TabRef>, t: TabRef)
    ensures RefUrls(refs + [t]) == RefUrls(refs) + [t.url]
  {
    assert (refs + [t])[..|refs|] == refs;
  }

  /** The URL and title of each checked tab that still exists, in order. */
  function TabRefs(ids: seq<int>, tabs: map<int, Tab>, n: nat): (r: seq<TabRef>)
    requires n <= |ids|
    ensures |r| <= n
    ensures forall k :: 0 <= k < n && ids[k] in tabs ==> TabRef(tabs[ids[k]].url, tabs[ids[k]].title) in r
    ensures forall x :: x in r ==> exists k :: 0 <= k < n && ids[k] in tabs && x == TabRef(tabs[ids[k]].url, tabs[ids[k]].title)
  {
    if n == 0 then []
    else
      var prev := TabRefs(ids, tabs, n - 1);
      if ids[n - 1] in tabs then prev + [TabRef(tabs[ids[n - 1]].url, tabs[ids[n - 1]].title)] else prev
  }

  /** `savedLayouts.filter(l => l.id !== layout.id)` */
  function WithoutLayout(layouts: seq<SavedLayout>, id: int): (r: seq<SavedLayout>)
    ensures |r| <= |layouts|
    ensures forall l :: l in r <==> l in layouts && l.id != id
  {
    if |layouts| == 0 then []
    else
      assert forall l :: l in layouts <==> l == layouts[0] || l in layouts[1..];
      (if layouts[0].id == id then [] else [layouts[0]]) + WithoutLayout(layouts[1..], id)
  }

  // ---------------------------------------------------------------------
  // The page
  // ---------------------------------------------------------------------

  /** A tab moved into a window of its own; `placement` is missing when no position was computed for it. */
  datatype NewWindow = NewWindow(tabId: int, focused: bool, placement: Option<Area>)

  /** The windows the move loop creates for the first `n` checked tabs. */
  function Placements(ids: seq<int>, ps: seq<Area>, n: nat): (r: seq<NewWindow>)
    requires n <= |ids| && n <= |ps|
    ensures |r| == n
    ensures forall k :: 0 <= k < n ==> r[k] == NewWindow(ids[k], k == 0, Some(ps[k]))
  {
    if n == 0 then [] else Placements(ids, ps, n - 1) + [NewWindow(ids[n - 1], n - 1 == 0, Some(ps[n - 1]))]
  }

  /** The `fillAndSend` messages for the first `n` checked tabs. */
  function Sends(ids: seq<int>, text: string, n: nat): (r: seq<(int, string)>)
    requires n <= |ids|
    ensures |r| == n && forall k :: 0 <= k < n ==> r[k] == (ids[k], text)
  {
    if n == 0 then [] else Sends(ids, text, n - 1) + [(ids[n - 1], text)]
  }

  datatype ApplyOutcome = NothingSelected | TooMany | Failed | Applied

  class Manager {
    var allTabs: seq<Tab>
    var selectedIds: seq<int>
    var currentLayout: string
    var savedLayouts: seq<SavedLayout>
    var originalStates: map<int, WindowState>
    var history: seq<HistoryEntry>          // `layoutHistory` in local storage
    var created: seq<NewWindow>             // windows created by "apply"
    var sent: seq<(int, string)>            // `fillAndSend` messages to tabs
    var requestedUrls: seq<string>          // `tabs.create` requests made by "apply layout"

    /** No more tabs are checked than the layout holds. */
    ghost predicate Valid()
      reads this
    {
      |selectedIds| <= MaxTabs(currentLayout)
    }

    constructor (storedLayouts: Option<seq<SavedLayout>>, storedHistory: seq<HistoryEntry>)
      ensures Valid()
      ensures allTabs == [] && selectedIds == [] && currentLayout == "2-horizontal"
      ensures savedLayouts == (if storedLayouts.Some? then storedLayouts.value else [])
      ensures originalStates == map[] && history == storedHistory && created == [] && sent == []
      ensures requestedUrls == []
    {
      allTabs := [];
      selectedIds := [];
      currentLayout := "2-horizontal";
      savedLayouts := if storedLayouts.Some? then storedLayouts.value else [];
      originalStates := map[];
      history := storedHistory;
      created := [];
      sent := [];
      requestedUrls := [];
    }

    /** `loadTabs`: the tabs of every window, window by window, leaving out the extension's pages. */
    method LoadTabs(windows: seq<seq<Tab>>)
      modifies this`allTabs
      ensures allTabs == Listed(windows, |windows|)
      ensures selectedIds == old(selectedIds) && currentLayout == old(currentLayout)
      ensures savedLayouts == old(savedLayouts) && originalStates == old(originalStates)
      ensures history == old(history) && created == old(created) && sent == old(sent)
      ensures requestedUrls == old(requestedUrls)
    {
      var listed: seq<Tab> := [];
      var w := 0;
      while w < |windows|
        invariant 0 <= w <= |windows|
        invariant listed == Listed(windows, w)
      {
        listed := ListWindow(listed, windows[w]);
        w := w + 1;
      }
      allTabs := listed;
    }

    /** Checking a tab's box: refused at the layout's maximum, otherwise the id is appended. */
    method CheckTab(id: int) returns (accepted: bool)
      requires Valid()
      modifies this
      ensures Valid()
      ensures accepted <==> |old(selectedIds)| < MaxTabs(currentLayout)
      ensures selectedIds == if accepted then old(selectedIds) + [id] else old(selectedIds)
      ensures allTabs == old(allTabs) && currentLayout == old(currentLayout) && savedLayouts == old(savedLayouts)
      ensures originalStates == old(originalStates) && history == old(history) && created == old(created) && sent == old(sent)
      ensures requestedUrls == old(requestedUrls)
    {
      if |selectedIds| >= MaxTabs(currentLayout) {
        return false;
      }
      selectedIds := selectedIds + [id];
      accepted := true;
    }

    /** Unchecking a tab's box removes every occurrence of its id. */
    method UncheckTab(id: int)
      requires Valid()
      modifies this
      ensures Valid()
      ensures selectedIds == WithoutTabId(old(selectedIds), id) && id !in selectedIds
      ensures allTabs == old(allTabs) && currentLayout == old(currentLayout) && savedLayouts == old(savedLayouts)
      ensures originalStates == old(originalStates) && history == old(history) && created == old(created) && sent == old(sent)
      ensures requestedUrls == old(requestedUrls)
    {
      selectedIds := WithoutTabId(selectedIds, id);
    }

    /** Choosing a layout: `updateSelectedTabsLimit` keeps the first `max` checked tabs when there are more. */
    method ChangeLayout(layout: string)
      modifies this
      ensures Valid() && currentLayout == layout
      ensures |old(selectedIds)| > MaxTabs(layout) ==> selectedIds == old(selectedIds)[..MaxTabs(layout)]
      ensures |old(selectedIds)| <= MaxTabs(layout) ==> selectedIds == old(selectedIds)
      ensures allTabs == old(allTabs) && savedLayouts == old(savedLayouts)
      ensures originalStates == old(originalStates) && history == old(history) && created == old(created) && sent == old(sent)
      ensures requestedUrls == old(requestedUrls)
    {
      currentLayout := layout;
      var maxTabs := MaxTabs(layout);
      if |selectedIds| > maxTabs {
        selectedIds := selectedIds[..maxTabs];
      }
    }

    /** The capture loop: the original state of each checked tab's window, first sighting only. */
    method CaptureStates(ids: seq<int>, windows: map<int, (int, WindowState)>) returns (known: bool)
      modifies this`originalStates
      ensures known <==> AllKnown(ids, windows)
      ensures originalStates == Captured(old(originalStates), ids, windows)
    {
      var states := originalStates;
      var i := 0;
      while i < |ids|
        invariant 0 <= i <= |ids|
        invariant AllKnown(ids[..i], windows)
        invariant Captured(states, ids[i..], windows) == Captured(originalStates, ids, windows)
      {
        if ids[i] !in windows {
          originalStates := states;
          return false;
        }
        assert ids[i..][1..] == ids[i + 1..];
        states := Record(states, windows[ids[i]]);
        assert ids[..i + 1] == ids[..i] + [ids[i]];
        i := i + 1;
      }
      assert ids[..i] == ids;
      originalStates := states;
      known := true;
    }

    /**
     * The move loop: each tab goes into a new window (the first one
     * focused) placed at its position, and receives the unified input when
     * there is one. Without a position for a tab, its window is created
     * and placing it throws, ending the loop.
     */
    method MoveTabs(ids: seq<int>, positions: seq<Area>, text: string) returns (placedAll: bool)
      modifies this`created, this`sent
      ensures placedAll <==> |ids| <= |positions|
      ensures placedAll ==> created == old(created) + Placements(ids, positions, |ids|)
      ensures placedAll ==> sent == old(sent) + (if text != "" then Sends(ids, text, |ids|) else [])
      ensures !placedAll ==>
        created == old(created) + Placements(ids, positions, |positions|) + [NewWindow(ids[|positions|], |positions| == 0, None)]
      ensures !placedAll ==> sent == old(sent) + (if text != "" then Sends(ids, text, |positions|) else [])
    {
      var made, typed := created, sent;
      ghost var created0, sent0 := created, sent;
      var i := 0;
      while i < |ids|
        invariant 0 <= i <= |ids| && i <= |positions|
        invariant made == created0 + Placements(ids, positions, i)
        invariant typed == sent0 + (if text != "" then Sends(ids, text, i) else [])
      {
        if i >= |positions| {
          created, sent := made + [NewWindow(ids[i], i == 0, None)], typed;
          return false;
        }
        ShiftFront(created0, Placements(ids, positions, i), [NewWindow(ids[i], i == 0, Some(positions[i]))]);
        made := made + [NewWindow(ids[i], i == 0, Some(positions[i]))];
        if text != "" {
          ShiftFront(sent0, Sends(ids, text, i), [(ids[i], text)]);
          typed := typed + [(ids[i], text)];
        }
        i := i + 1;
      }
      created, sent := made, typed;
      placedAll := true;
    }

    /**
     * `applySplitScreen`. `area` is the primary display's work area,
     * `windows` the browser's answer to `tabs.get`/`windows.get` for each
     * tab id, and `unified` the unified input's value.
     */
    method ApplySplitScreen(area: Area, windows: map<int, (int, WindowState)>, unified: string, timestamp: string)
      returns (outcome: ApplyOutcome)
      modifies this`originalStates, this`created, this`sent, this`history
      ensures outcome == NothingSelected <==> |selectedIds| == 0
      ensures outcome == TooMany <==> 0 < |selectedIds| && |selectedIds| > MaxTabs(currentLayout)
      ensures outcome == NothingSelected || outcome == TooMany ==>
        originalStates == old(originalStates) && created == old(created) && sent == old(sent)
      ensures outcome == Failed || outcome == Applied ==>
        originalStates == Captured(old(originalStates), selectedIds, windows)
      ensures outcome != Applied ==> history == old(history)
      ensures outcome == Failed && !AllKnown(selectedIds, windows) ==> created == old(created) && sent == old(sent)
      ensures outcome == Failed && AllKnown(selectedIds, windows) ==>
        var ps := WindowPositions(currentLayout, |selectedIds|, area);
        |ps| < |selectedIds|
        && created == old(created) + Placements(selectedIds, ps, |ps|) + [NewWindow(selectedIds[|ps|], |ps| == 0, None)]
        && sent == old(sent) + (if Trim(unified) != "" then Sends(selectedIds, Trim(unified), |ps|) else [])
      ensures outcome == Applied <==>
        0 < |selectedIds| <= MaxTabs(currentLayout) && AllKnown(selectedIds, windows)
        && |WindowPositions(currentLayout, |selectedIds|, area)| == |selectedIds|
      ensures outcome == Applied ==>
        created == old(created) + Placements(selectedIds, WindowPositions(currentLayout, |selectedIds|, area), |selectedIds|)
      ensures outcome == Applied ==>
        sent == old(sent) + (if Trim(unified) != "" then Sends(selectedIds, Trim(unified), |selectedIds|) else [])
      ensures outcome == Applied ==>
        history == Pushed(old(history), HistoryEntry(timestamp, currentLayout, |selectedIds|))
    {
      if |selectedIds| == 0 {
        return NothingSelected;
      }
      if |selectedIds| > MaxTabs(currentLayout) {
        return TooMany;
      }
      var known := CaptureStates(selectedIds, windows);
      if !known {
        return Failed;
      }
      var positions := WindowPositions(currentLayout, |selectedIds|, area);
      var placedAll := MoveTabs(selectedIds, positions, Trim(unified));
      if !placedAll {
        return Failed;
      }
      history := Pushed(history, HistoryEntry(timestamp, currentLayout, |selectedIds|));
      outcome := Applied;
    }

    /** `restoreWindows`: nothing without recorded states; otherwise each recorded window is restored and the record cleared. */
    method RestoreWindows() returns (restored: map<int, WindowState>)
      modifies this
      ensures restored == old(originalStates) && originalStates == map[]
      ensures allTabs == old(allTabs) && selectedIds == old(selectedIds) && currentLayout == old(currentLayout)
      ensures savedLayouts == old(savedLayouts) && history == old(history) && created == old(created) && sent == old(sent)
      ensures requestedUrls == old(requestedUrls)
    {
      restored := originalStates;
      if |originalStates| == 0 {
        return;
      }
      originalStates := map[];
    }

    /**
     * `saveCurrentLayout`: refused with nothing checked or with no name
     * given; otherwise the URL and title of each checked tab that still
     * exists are saved under the current layout.
     */
    method SaveCurrentLayout(name: Option<string>, id: int, createdAt: string, tabs: map<int, Tab>) returns (saved: bool)
      modifies this
      ensures saved <==> |selectedIds| > 0 && name.Some? && name.value != ""
      ensures saved ==> savedLayouts == old(savedLayouts) + [SavedLayout(id, name.value, currentLayout, TabRefs(selectedIds, tabs, |selectedIds|), createdAt)]
      ensures !saved ==> savedLayouts == old(savedLayouts)
      ensures allTabs == old(allTabs) && selectedIds == old(selectedIds) && currentLayout == old(currentLayout)
      ensures originalStates == old(originalStates) && history == old(history) && created == old(created) && sent == old(sent)
      ensures requestedUrls == old(requestedUrls)
    {
      if |selectedIds| == 0 || name.None? || name.value == "" {
        return false;
      }
      var refs: seq<TabRef> := [];
      var i := 0;
      while i < |selectedIds|
        invariant 0 <= i <= |selectedIds|
        invariant refs == TabRefs(selectedIds, tabs, i)
      {
        if selectedIds[i] in tabs {
          refs := refs + [TabRef(tabs[selectedIds[i]].url, tabs[selectedIds[i]].title)];
        }
        i := i + 1;
      }
      savedLayouts := savedLayouts + [SavedLayout(id, name.value, currentLayout, refs, createdAt)];
      saved := true;
    }

    /** Deleting a saved layout, once confirmed, removes every layout with its id. */
    method DeleteLayout(id: int, confirmed: bool)
      modifies this
      ensures confirmed ==> savedLayouts == WithoutLayout(old(savedLayouts), id)
      ensures !confirmed ==> savedLayouts == old(savedLayouts)
      ensures forall l :: l in savedLayouts ==> l in old(savedLayouts)
      ensures allTabs == old(allTabs) && selectedIds == old(selectedIds) && currentLayout == old(currentLayout)
      ensures originalStates == old(originalStates) && history == old(history) && created == old(created) && sent == old(sent)
      ensures requestedUrls == old(requestedUrls)
    {
      if confirmed {
        savedLayouts := WithoutLayout(savedLayouts, id);
      }
    }

    /**
     * The create loop of `applyLayout`: each saved URL is requested in turn
     * until a request is rejected (`openedIds` holds the ids of the tabs
     * created, so a shorter list means the next request failed).
     */
    method RequestTabs(refs: seq<TabRef>, openedIds: seq<int>) returns (allOpened: bool)
      requires |openedIds| <= |refs|
      modifies this`requestedUrls
      ensures allOpened <==> |openedIds| == |refs|
      ensures allOpened ==> requestedUrls == old(requestedUrls) + RefUrls(refs)
      ensures !allOpened ==> requestedUrls == old(requestedUrls) + RefUrls(refs[..|openedIds| + 1])
    {
      var k := 0;
      while k < |refs|
        invariant 0 <= k <= |refs| && k <= |openedIds|
        invariant requestedUrls == old(requestedUrls) + RefUrls(refs[..k])
      {
        requestedUrls := requestedUrls + [refs[k].url];
        assert refs[..k + 1] == refs[..k] + [refs[k]];
        RefUrlsAppend(refs[..k], refs[k]);
        if k == |openedIds| {
          return false;
        }
        k := k + 1;
      }
      assert refs[..k] == refs;
      return true;
    }

    /**
     * The rest of `applyLayout` once every tab is open: the new tabs are
     * checked under the saved layout, its radio button ticked (which throws
     * for an unknown layout), the tab list reloaded and the split applied.
     */
    method ApplyOpened(layout: string, openedIds: seq<int>, listing: seq<seq<Tab>>, area: Area,
                       windows: map<int, (int, WindowState)>, unified: string, timestamp: string)
      returns (outcome: ApplyOutcome)
      modifies this`selectedIds, this`currentLayout, this`allTabs, this`originalStates, this`created, this`sent, this`history
      ensures selectedIds == openedIds && currentLayout == layout
      ensures !KnownLayout(layout) ==>
        outcome == Failed && allTabs == old(allTabs) && originalStates == old(originalStates)
        && created == old(created) && sent == old(sent) && history == old(history)
      ensures KnownLayout(layout) ==> allTabs == Listed(listing, |listing|)
      ensures KnownLayout(layout) ==> (outcome == NothingSelected <==> |openedIds| == 0)
      ensures KnownLayout(layout) ==> (outcome == TooMany <==> |openedIds| > MaxTabs(layout))
      ensures KnownLayout(layout) && (outcome == NothingSelected || outcome == TooMany) ==>
        originalStates == old(originalStates) && created == old(created) && sent == old(sent)
      ensures KnownLayout(layout) && (outcome == Failed || outcome == Applied) ==>
        originalStates == Captured(old(originalStates), openedIds, windows)
      ensures outcome != Applied ==> history == old(history)
      ensures outcome == Failed ==> created == old(created) && sent == old(sent)
      ensures outcome == Applied <==> KnownLayout(layout) && 0 < |openedIds| <= MaxTabs(layout) && AllKnown(openedIds, windows)
      ensures outcome == Applied ==>
        created == old(created) + Placements(openedIds, WindowPositions(layout, |openedIds|, area), |openedIds|)
      ensures outcome == Applied ==>
        sent == old(sent) + (if Trim(unified) != "" then Sends(openedIds, Trim(unified), |openedIds|) else [])
      ensures outcome == Applied ==>
        history == Pushed(old(history), HistoryEntry(timestamp, layout, |openedIds|))
    {
      selectedIds := openedIds;
      currentLayout := layout;
      if !KnownLayout(layout) {
        return Failed;
      }
      LoadTabs(listing);
      if 0 < |openedIds| <= MaxTabs(layout) {
        PositionForEveryTab(layout, |openedIds|, area);
      }
      outcome := ApplySplitScreen(area, windows, unified, timestamp);
    }

    /**
     * `applyLayout`: a tab is requested for each saved URL in turn
     * (`openedIds` are the ids the browser gives the tabs it creates, in
     * order; when it is shorter than the saved list, the request after the
     * last one was rejected, which throws into the catch and ends the
     * operation). With every tab opened, those become the checked tabs under
     * the saved layout, the tab list is reloaded and the split is applied.
     * The page has a layout radio button for each known layout only: for
     * any other layout ticking its button throws, and the catch ends the
     * operation before the tab list is reloaded.
     */
    method ApplyLayout(saved: SavedLayout, openedIds: seq<int>, listing: seq<seq<Tab>>, area: Area,
                       windows: map<int, (int, WindowState)>, unified: string, timestamp: string)
      returns (outcome: ApplyOutcome)
      requires |openedIds| <= |saved.tabUrls|
      modifies this
      ensures |openedIds| < |saved.tabUrls| ==>
        requestedUrls == old(requestedUrls) + RefUrls(saved.tabUrls[..|openedIds| + 1])
      ensures |openedIds| < |saved.tabUrls| ==>
        outcome == Failed && selectedIds == old(selectedIds) && currentLayout == old(currentLayout)
        && allTabs == old(allTabs) && originalStates == old(originalStates)
        && created == old(created) && sent == old(sent) && history == old(history)
      ensures |openedIds| == |saved.tabUrls| ==> requestedUrls == old(requestedUrls) + RefUrls(saved.tabUrls)
      ensures |openedIds| == |saved.tabUrls| ==> selectedIds == openedIds && currentLayout == saved.layout
      ensures savedLayouts == old(savedLayouts)
      ensures !KnownLayout(saved.layout) ==>
        outcome == Failed && allTabs == old(allTabs) && originalStates == old(originalStates)
        && created == old(created) && sent == old(sent) && history == old(history)
      ensures KnownLayout(saved.layout) && |openedIds| == |saved.tabUrls| ==> allTabs == Listed(listing, |listing|)
      ensures KnownLayout(saved.layout) && |openedIds| == |saved.tabUrls| ==>
        (outcome == NothingSelected <==> |openedIds| == 0)
      ensures KnownLayout(saved.layout) && |openedIds| == |saved.tabUrls| ==>
        (outcome == TooMany <==> |openedIds| > MaxTabs(saved.layout))
      ensures KnownLayout(saved.layout) && (outcome == NothingSelected || outcome == TooMany) ==>
        originalStates == old(originalStates) && created == old(created) && sent == old(sent)
      ensures KnownLayout(saved.layout) && |openedIds| == |saved.tabUrls| && (outcome == Failed || outcome == Applied) ==>
        originalStates == Captured(old(originalStates), openedIds, windows)
      ensures outcome != Applied ==> history == old(history)
      ensures outcome == Failed ==> created == old(created) && sent == old(sent)
      ensures outcome == Applied <==>
        |openedIds| == |saved.tabUrls| && KnownLayout(saved.layout) && 0 < |openedIds| <= MaxTabs(saved.layout)
        && AllKnown(openedIds, windows)
      ensures outcome == Applied ==>
        created == old(created) + Placements(openedIds, WindowPositions(saved.layout, |openedIds|, area), |openedIds|)
      ensures outcome == Applied ==>
        sent == old(sent) + (if Trim(unified) != "" then Sends(openedIds, Trim(unified), |openedIds|) else [])
      ensures outcome == Applied ==>
        history == Pushed(old(history), HistoryEntry(timestamp, saved.layout, |openedIds|))
    {
      var allOpened := RequestTabs(saved.tabUrls, openedIds);
      if !allOpened {
        return Failed;
      }
      outcome := ApplyOpened(saved.layout, openedIds, listing, area, windows, unified, timestamp);
    }
  }

  /** A saved layout of a known kind reopens with every tab placed, when its tabs all exist. */
  lemma SavedLayoutReapplies(saved: SavedLayout, openedIds: seq<int>, area: Area, windows: map<int, (int, WindowState)>)
    requires KnownLayout(saved.layout) && 0 < |openedIds| <= MaxTabs(saved.layout) && AllKnown(openedIds, windows)
    ensures |WindowPositions(saved.layout, |openedIds|, area)| == |openedIds|
  {
    PositionForEveryTab(saved.layout, |openedIds|, area);
  }
}
