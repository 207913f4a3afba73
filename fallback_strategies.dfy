// The chain of send strategies the in-frame script falls back to when no
// send button was found (content-scripts/fallback-strategies.js): a shared
// table of strategies, sorted in place by descending priority on every run
// and then executed one after another, whether or not an earlier one
// reported success.

module FallbackStrategies {
  import opened Common
  import opened Dom

  datatype FallbackKind = EnterKeys | CtrlEnter | NearbyClickable | FormSubmit | DelayedRetry | SvgIcon

  datatype FallbackStrategy = FallbackStrategy(name: string, priority: int, kind: FallbackKind)

  const EnterStrategy := FallbackStrategy("Enter键", 10, EnterKeys)
  const CtrlEnterStrategy := FallbackStrategy("Ctrl+Enter组合键", 8, CtrlEnter)
  const NearbyStrategy := FallbackStrategy("查找附近的可点击元素", 9, NearbyClickable)
  const FormStrategy := FallbackStrategy("查找form的submit", 7, FormSubmit)
  const RetryStrategy := FallbackStrategy("延迟重试", 5, DelayedRetry)
  const SvgStrategy := FallbackStrategy("查找SVG图标按钮", 6, SvgIcon)

  /** `SEND_FALLBACK_STRATEGIES` in declaration order. */
  const DeclaredTable: seq<FallbackStrategy> :=
    [EnterStrategy, CtrlEnterStrategy, NearbyStrategy, FormStrategy, RetryStrategy, SvgStrategy]

  /** The same strategies by descending priority. */
  const PriorityOrder: seq<FallbackStrategy> :=
    [EnterStrategy, NearbyStrategy, CtrlEnterStrategy, FormStrategy, SvgStrategy, RetryStrategy]

  predicate SortedByPriority(s: seq<FallbackStrategy>) {
    forall i, j :: 0 <= i < j < |s| ==> s[i].priority >= s[j].priority
  }

  predicate DistinctPriorities(s: seq<FallbackStrategy>) {
    forall i, j :: 0 <= i < |s| && 0 <= j < |s| && s[i].priority == s[j].priority ==> s[i] == s[j]
  }

  /** `sort((a, b) => b.priority - a.priority)` on the shared array, in place. */
  method SortByPriority(a: array<FallbackStrategy>)
    modifies a
    ensures SortedByPriority(a[..])
    ensures multiset(a[..]) == multiset(old(a[..]))
  {
    var i := 0;
    while i < a.Length
      invariant 0 <= i <= a.Length
      invariant SortedByPriority(a[..i])
      invariant multiset(a[..]) == multiset(old(a[..]))
    {
      InsertLast(a, i);
      i := i + 1;
    }
  }

  /** Moves `a[i]` left past every lower-priority strategy, extending the sorted prefix by one. */
  method InsertLast(a: array<FallbackStrategy>, i: nat)
    requires i < a.Length && SortedByPriority(a[..i])
    modifies a
    ensures SortedByPriority(a[..i + 1])
    ensures multiset(a[..]) == multiset(old(a[..]))
  {
    var j := i;
    while j > 0 && a[j - 1].priority < a[j].priority
      invariant 0 <= j <= i
      invariant multiset(a[..]) == multiset(old(a[..]))
      invariant forall k, l :: 0 <= k < l <= i && k != j && l != j ==> a[k].priority >= a[l].priority
      invariant forall l :: j < l <= i ==> a[j].priority > a[l].priority
    {
      Swap(a, j - 1, j);
      j := j - 1;
    }
  }

  method Swap(a: array<FallbackStrategy>, i: nat, j: nat)
    requires i < j < a.Length
    modifies a
    ensures a[i] == old(a[j]) && a[j] == old(a[i])
    ensures forall m :: 0 <= m < a.Length && m != i && m != j ==> a[m] == old(a[m])
    ensures multiset(a[..]) == multiset(old(a[..]))
  {
    a[i], a[j] := a[j], a[i];
  }

  lemma HeadIsMax(s: seq<FallbackStrategy>, x: FallbackStrategy)
    requires SortedByPriority(s) && x in multiset(s)
    ensures s[0].priority >= x.priority
  {
    assert x in s;
    var k :| 0 <= k < |s| && s[k] == x;
  }

  lemma Tail(s: seq<FallbackStrategy>)
    requires |s| > 0 && SortedByPriority(s)
    ensures SortedByPriority(s[1..])
    ensures multiset(s[1..]) == multiset(s) - multiset{s[0]}
  {
    assert s == [s[0]] + s[1..];
  }

  lemma SameHead(s: seq<FallbackStrategy>, t: seq<FallbackStrategy>)
    requires |s| > 0 && |t| > 0 && SortedByPriority(s) && SortedByPriority(t)
    requires multiset(s) == multiset(t) && DistinctPriorities(t)
    ensures s[0] == t[0]
  {
    HeadIsMax(s, t[0]);
    HeadIsMax(t, s[0]);
    assert s[0] in t;
    var j :| 0 <= j < |t| && t[j] == s[0];
  }

  /** Two priority-sorted arrangements of the same strategies with distinct priorities are equal. */
  lemma {:induction false} SortedPermutationUnique(s: seq<FallbackStrategy>, t: seq<FallbackStrategy>)
    requires SortedByPriority(s) && SortedByPriority(t)
    requires multiset(s) == multiset(t) && DistinctPriorities(t)
    ensures s == t
    decreases |s|
  {
    assert |s| == |multiset(s)| == |multiset(t)| == |t|;
    if |s| > 0 {
      SameHead(s, t);
      Tail(s);
      Tail(t);
      assert DistinctPriorities(t[1..]);
      SortedPermutationUnique(s[1..], t[1..]);
      assert s == [s[0]] + s[1..] && t == [t[0]] + t[1..];
    }
  }

  /** Sorting the declared table yields Enter, nearby element, Ctrl+Enter, form, SVG icon, delayed retry. */
  lemma SortedTableIsPriorityOrder(s: seq<FallbackStrategy>)
    requires SortedByPriority(s) && multiset(s) == multiset(DeclaredTable)
    ensures s == PriorityOrder
  {
    PriorityOrderFacts();
    SortedPermutationUnique(s, PriorityOrder);
  }

  lemma PriorityOrderFacts()
    ensures multiset(PriorityOrder) == multiset(DeclaredTable)
    ensures SortedByPriority(PriorityOrder) && DistinctPriorities(PriorityOrder)
  {
    PriorityOrderIsPermutation();
    PriorityOrderIsSorted();
  }

  lemma PriorityOrderIsPermutation()
    ensures multiset(PriorityOrder) == multiset(DeclaredTable)
  {
    var d := DeclaredTable;
    assert d == [d[0]] + [d[1], d[2]] + [d[3]] + [d[4], d[5]];
    assert PriorityOrder == [d[0]] + [d[2], d[1]] + [d[3]] + [d[5], d[4]];
  }

  lemma PriorityOrderIsSorted()
    ensures SortedByPriority(PriorityOrder) && DistinctPriorities(PriorityOrder)
  {
    var p := PriorityOrder;
    assert p[0].priority == 10 && p[1].priority == 9 && p[2].priority == 8;
    assert p[3].priority == 7 && p[4].priority == 6 && p[5].priority == 5;
  }

  // ---------------------------------------------------------------------
  // What each strategy does.

  datatype StrategyOutcome =
    | Succeeded        // resolved to true
    | Failed           // resolved to false
    | Raised           // threw; the chain logs it and goes on
    | NeverSettles     // its promise never resolves; the chain waits for ever

  datatype StrategyRun = StrategyRun(name: string, priority: int, outcome: StrategyOutcome)

  datatype Effect = Effect(events: seq<Event>, outcome: StrategyOutcome)

  function KeyEvents(input: nat, names: seq<string>, ctrl: bool): (r: seq<Event>)
    ensures |r| == |names|
    ensures forall k :: 0 <= k < |r| ==> r[k] == Event(input, names[k], Key("Enter", 13, ctrl))
  {
    if |names| == 0 then [] else [Event(input, names[0], Key("Enter", 13, ctrl))] + KeyEvents(input, names[1..], ctrl)
  }

  /** An element that counts as a clickable neighbour of the input box. */
  predicate IsNearby(inputRect: Rect, e: Element) {
    var r := e.rect;
    (e.tag == "BUTTON" || e.tag == "DIV" || e.tag == "A" || e.tag == "SPAN")
    && (e.cursorPointer || e.tag == "BUTTON")
    && ((r.left >= inputRect.Right() && r.left < inputRect.Right() + 100.0)
        || (r.top >= inputRect.Bottom() && r.top < inputRect.Bottom() + 100.0))
    && (if r.top >= inputRect.top then r.top - inputRect.top else inputRect.top - r.top) < 100.0
    && e.offsetHeight > 0
  }

  /** The first neighbour at or after `from`, in document order. */
  function FirstNearby(doc: seq<Element>, inputRect: Rect, from: nat): (r: Option<nat>)
    ensures r.Some? ==> from <= r.value < |doc| && IsNearby(inputRect, doc[r.value])
    ensures r.Some? ==> forall j :: from <= j < r.value ==> !IsNearby(inputRect, doc[j])
    ensures r.None? ==> forall j :: from <= j < |doc| ==> !IsNearby(inputRect, doc[j])
    decreases |doc| - from
  {
    if from >= |doc| then None
    else if IsNearby(inputRect, doc[from]) then Some(from)
    else FirstNearby(doc, inputRect, from + 1)
  }

  predicate IsForm(e: Element) { e.tag == "FORM" }

  /** An SVG icon's parent that looks like a small clickable button. */
  predicate IsIconButton(p: Element) {
    p.cursorPointer && 0 < p.offsetWidth < 60
  }

  /**
   * The SVG-icon search from element `from` on: the parent of the first
   * `svg` whose parent looks like an icon button; an `svg` without a parent
   * element makes `getComputedStyle(null)` throw.
   */
  function SvgSearch(doc: seq<Element>, from: nat): (r: Lookup)
    ensures r.Found? ==> r.index < |doc| && IsIconButton(doc[r.index])
    decreases |doc| - from
  {
    if from >= |doc| then NotFound
    else if doc[from].tag != "svg" then SvgSearch(doc, from + 1)
    else match ParentOf(doc, from)
      case None => Threw
      case Some(p) => if IsIconButton(doc[p]) then Found(p) else SvgSearch(doc, from + 1)
  }

  /** The loop over `document.querySelectorAll('svg')`. */
  method FindSvgButton(doc: seq<Element>) returns (r: Lookup)
    ensures r == SvgSearch(doc, 0)
  {
    var i := 0;
    while i < |doc|
      invariant 0 <= i <= |doc|
      invariant SvgSearch(doc, 0) == SvgSearch(doc, i)
    {
      if doc[i].tag == "svg" {
        var parent := ParentOf(doc, i);
        if parent.None? {
          return Threw;
        }
        if IsIconButton(doc[parent.value]) {
          return Found(parent.value);
        }
      }
      i := i + 1;
    }
    return NotFound;
  }

  /** What the retry strategy does with the button the later search returns. */
  datatype RetryFinding = ClickLater(button: nat) | GiveUp | Hang

  /**
   * The answers to the page searches the strategies make.  The model's
   * strategies change no element, so the searches give the same answers
   * whenever they run.
   */
  datatype Findings = Findings(nearby: Option<nat>, form: Option<nat>, svg: Lookup, retry: RetryFinding)

  /** `retry` is what the send-button search finds when the delayed retry fires. */
  function PageFindings(doc: seq<Element>, input: nat, retry: Lookup): (f: Findings)
    requires input < |doc|
    requires retry.Found? ==> retry.index < |doc|
    ensures f.nearby.Some? ==> f.nearby.value < |doc| && IsNearby(doc[input].rect, doc[f.nearby.value])
    ensures f.form.Some? ==> f.form.value <= input && (f.form.value == input || IsAncestor(doc, f.form.value, input))
    ensures f.form.Some? ==> IsForm(doc[f.form.value])
    ensures f.form.Some? ==> forall a: nat :: f.form.value < a < input && IsAncestor(doc, a, input) ==> !IsForm(doc[a])
    ensures f.form.None? <==> !IsForm(doc[input]) && forall a: nat :: a < input && IsAncestor(doc, a, input) ==> !IsForm(doc[a])
    ensures f.svg.Found? ==> f.svg.index < |doc| && IsIconButton(doc[f.svg.index])
    ensures f.retry.ClickLater? ==> retry == Found(f.retry.button) && doc[f.retry.button].offsetHeight > 0
    ensures f.retry == Hang <==> retry == Threw
  {
    Findings(
      FirstNearby(doc, doc[input].rect, 0),
      Closest(doc, input, IsForm),
      SvgSearch(doc, 0),
      match retry
      case Found(b) => if doc[b].offsetHeight > 0 then ClickLater(b) else GiveUp
      case NotFound => GiveUp
      case Threw => Hang)
  }

  /** The events one strategy dispatches and how it ends. */
  function StrategyEffect(kind: FallbackKind, input: nat, f: Findings): Effect {
    match kind
    case EnterKeys =>
      Effect([FocusOf(input)] + KeyEvents(input, ["keydown", "keypress", "keyup"], false), Succeeded)
    case CtrlEnter =>
      Effect([FocusOf(input)] + KeyEvents(input, ["keydown", "keyup"], true), Succeeded)
    case NearbyClickable =>
      if f.nearby.Some? then Effect([ClickOf(f.nearby.value)], Succeeded) else Effect([], Failed)
    case FormSubmit =>
      if f.form.Some? then Effect([Event(f.form.value, "submit", Plain), Event(f.form.value, "submit", SubmitCall)], Succeeded)
      else Effect([], Failed)
    case DelayedRetry =>
      (match f.retry
       case ClickLater(b) => Effect([ClickOf(b)], Succeeded)
       case GiveUp => Effect([], Failed)
       case Hang => Effect([], NeverSettles))
    case SvgIcon =>
      (match f.svg
       case Found(p) => Effect([ClickOf(p)], Succeeded)
       case NotFound => Effect([], Failed)
       case Threw => Effect([], Raised))
  }

  /** Only a retry whose button search throws can leave the chain waiting. */
  lemma OnlyRetryCanHang(kind: FallbackKind, input: nat, f: Findings)
    ensures StrategyEffect(kind, input, f).outcome == NeverSettles <==> kind == DelayedRetry && f.retry == Hang
  {
  }

  /** The effect of each kind of strategy on one page, for one input. */
  function EffectsOn(input: nat, f: Findings): FallbackKind -> Effect {
    (k: FallbackKind) => StrategyEffect(k, input, f)
  }

  datatype ChainResult = ChainResult(events: seq<Event>, runs: seq<StrategyRun>)

  /** Running `strategies` in order: every one runs, unless one never settles. */
  function Chain(strategies: seq<FallbackStrategy>, effectOf: FallbackKind -> Effect): ChainResult
  {
    if |strategies| == 0 then ChainResult([], [])
    else
      var s := strategies[0];
      var eff := effectOf(s.kind);
      var run := StrategyRun(s.name, s.priority, eff.outcome);
      if eff.outcome == NeverSettles then ChainResult(eff.events, [run])
      else
        var rest := Chain(strategies[1..], effectOf);
        ChainResult(eff.events + rest.events, [run] + rest.runs)
  }

  /**
   * A success does not stop the chain: when no strategy hangs, every
   * strategy runs exactly once, in the given order, and the events are
   * those of each strategy in turn.
   */
  lemma {:induction false} ChainRunsEveryStrategy(strategies: seq<FallbackStrategy>, effectOf: FallbackKind -> Effect)
    requires forall j :: 0 <= j < |strategies| ==> effectOf(strategies[j].kind).outcome != NeverSettles
    ensures var c := Chain(strategies, effectOf);
      |c.runs| == |strategies|
      && (forall j :: 0 <= j < |strategies| ==>
            c.runs[j] == StrategyRun(strategies[j].name, strategies[j].priority, effectOf(strategies[j].kind).outcome))
  {
    if |strategies| > 0 {
      assert forall j :: 0 <= j < |strategies[1..]| ==> strategies[1..][j] == strategies[j + 1];
      ChainRunsEveryStrategy(strategies[1..], effectOf);
      var c := Chain(strategies, effectOf);
      forall j | 0 <= j < |strategies|
        ensures c.runs[j] == StrategyRun(strategies[j].name, strategies[j].priority, effectOf(strategies[j].kind).outcome)
      {
        if j > 0 {
          assert strategies[1..][j - 1] == strategies[j];
        }
      }
    }
  }

  /** On a page whose retry search does not throw, the whole sorted table runs. */
  lemma PriorityChainRunsAll(input: nat, f: Findings)
    requires f.retry != Hang
    ensures |Chain(PriorityOrder, EffectsOn(input, f)).runs| == 6
  {
    forall j | 0 <= j < |PriorityOrder| ensures EffectsOn(input, f)(PriorityOrder[j].kind).outcome != NeverSettles {
      OnlyRetryCanHang(PriorityOrder[j].kind, input, f);
    }
    ChainRunsEveryStrategy(PriorityOrder, EffectsOn(input, f));
  }

  /** Strategies that all settle just pass the rest of the chain through. */
  lemma {:induction false} ChainAppend(a: seq<FallbackStrategy>, b: seq<FallbackStrategy>, effectOf: FallbackKind -> Effect)
    requires forall j :: 0 <= j < |a| ==> effectOf(a[j].kind).outcome != NeverSettles
    ensures Chain(a + b, effectOf).events == Chain(a, effectOf).events + Chain(b, effectOf).events
    ensures Chain(a + b, effectOf).runs == Chain(a, effectOf).runs + Chain(b, effectOf).runs
  {
    if |a| == 0 {
      assert a + b == b;
    } else {
      var s := a[0];
      var eff := effectOf(s.kind);
      var run := StrategyRun(s.name, s.priority, eff.outcome);
      assert eff.outcome != NeverSettles;
      assert (a + b)[0] == s && (a + b)[1..] == a[1..] + b;
      forall j | 0 <= j < |a[1..]| ensures effectOf(a[1..][j].kind).outcome != NeverSettles {
        assert a[1..][j] == a[j + 1];
      }
      ChainAppend(a[1..], b, effectOf);
      var ra, rab := Chain(a[1..], effectOf), Chain(a[1..] + b, effectOf);
      assert Chain(a + b, effectOf) == ChainResult(eff.events + rab.events, [run] + rab.runs);
      assert Chain(a, effectOf) == ChainResult(eff.events + ra.events, [run] + ra.runs);
    }
  }

  /** When the retry search throws, the chain in priority order stops at the retry, the last strategy. */
  lemma PriorityChainWithHang(input: nat, f: Findings)
    requires f.retry == Hang
    ensures var c := Chain(PriorityOrder, EffectsOn(input, f));
      |c.runs| == 6 && c.runs[5] == StrategyRun("延迟重试", 5, NeverSettles)
  {
    var e := EffectsOn(input, f);
    var first := PriorityOrder[..5];
    assert PriorityOrder == first + [RetryStrategy];
    forall j | 0 <= j < |first| ensures e(first[j].kind).outcome != NeverSettles {
      OnlyRetryCanHang(first[j].kind, input, f);
    }
    ChainAppend(first, [RetryStrategy], e);
    ChainRunsEveryStrategy(first, e);
  }

  /** In priority order the chain opens with focus and the Enter key sequence on the input. */
  lemma ChainStartsWithEnter(input: nat, f: Findings)
    ensures var c := Chain(PriorityOrder, EffectsOn(input, f));
      |c.events| >= 4
      && c.events[..4] == [FocusOf(input), EnterKey(input, "keydown"), EnterKey(input, "keypress"), EnterKey(input, "keyup")]
  {
    var eff := StrategyEffect(EnterKeys, input, f);
    assert eff.events == [FocusOf(input), EnterKey(input, "keydown"), EnterKey(input, "keypress"), EnterKey(input, "keyup")];
  }

  /** `SEND_FALLBACK_STRATEGIES` as the script creates it. */
  method NewStrategyTable() returns (a: array<FallbackStrategy>)
    ensures fresh(a) && a[..] == DeclaredTable
  {
    a := new FallbackStrategy[6];
    a[0], a[1], a[2] := EnterStrategy, CtrlEnterStrategy, NearbyStrategy;
    a[3], a[4], a[5] := FormStrategy, RetryStrategy, SvgStrategy;
  }

  /** The searches, with the SVG one done by its loop. */
  method Search(doc: seq<Element>, input: nat, retry: Lookup) returns (f: Findings)
    requires input < |doc|
    requires retry.Found? ==> retry.index < |doc|
    ensures f == PageFindings(doc, input, retry)
  {
    var svg := FindSvgButton(doc);
    var later := match retry
      case Found(b) => if doc[b].offsetHeight > 0 then ClickLater(b) else GiveUp
      case NotFound => GiveUp
      case Threw => Hang;
    f := Findings(FirstNearby(doc, doc[input].rect, 0), Closest(doc, input, IsForm), svg, later);
  }

  /**
   * `executeFallbackStrategies`: sort the shared table, then run every
   * strategy in turn on the page, logging each; `runs` is what the console
   * log reports.
   */
  method ExecuteFallbackStrategies(page: Page, table: array<FallbackStrategy>, input: nat, retry: Lookup)
      returns (runs: seq<StrategyRun>)
    requires input < |page.elems|
    requires retry.Found? ==> retry.index < |page.elems|
    modifies page, table
    ensures SortedByPriority(table[..]) && multiset(table[..]) == multiset(old(table[..]))
    ensures multiset(old(table[..])) == multiset(DeclaredTable) ==> table[..] == PriorityOrder
    ensures page.elems == old(page.elems)
    ensures var f := PageFindings(old(page.elems), input, retry);
      page.log == old(page.log) + Chain(table[..], EffectsOn(input, f)).events
      && runs == Chain(table[..], EffectsOn(input, f)).runs
  {
    SortByPriority(table);
    if multiset(old(table[..])) == multiset(DeclaredTable) {
      SortedTableIsPriorityOrder(table[..]);
    }
    var f := Search(page.elems, input, retry);
    runs := RunChain(page, table[..], EffectsOn(input, f));
  }

  /** The `for ... of` loop over the sorted strategies. */
  method RunChain(page: Page, order: seq<FallbackStrategy>, effectOf: FallbackKind -> Effect)
      returns (runs: seq<StrategyRun>)
    modifies page
    ensures page.elems == old(page.elems)
    ensures page.log == old(page.log) + Chain(order, effectOf).events
    ensures runs == Chain(order, effectOf).runs
  {
    ghost var logged: seq<Event> := [];
    runs := [];
    var i := 0;
    while i < |order|
      invariant 0 <= i <= |order|
      invariant page.elems == old(page.elems)
      invariant page.log == old(page.log) + logged
      invariant Chain(order, effectOf).events == logged + Chain(order[i..], effectOf).events
      invariant Chain(order, effectOf).runs == runs + Chain(order[i..], effectOf).runs
    {
      var stop;
      stop, logged, runs := ChainOne(page, order, i, effectOf, old(page.log), logged, runs);
      if stop {
        return;
      }
      i := i + 1;
    }
  }

  /** One strategy of that loop: its events are dispatched and its run recorded; the loop stops when it never settles. */
  method ChainOne(page: Page, order: seq<FallbackStrategy>, i: nat, effectOf: FallbackKind -> Effect,
                  ghost log0: seq<Event>, ghost logged: seq<Event>, runs: seq<StrategyRun>)
      returns (stop: bool, ghost logged': seq<Event>, runs': seq<StrategyRun>)
    requires i < |order| && page.log == log0 + logged
    requires Chain(order, effectOf).events == logged + Chain(order[i..], effectOf).events
    requires Chain(order, effectOf).runs == runs + Chain(order[i..], effectOf).runs
    modifies page
    ensures page.elems == old(page.elems) && page.log == log0 + logged'
    ensures stop <==> effectOf(order[i].kind).outcome == NeverSettles
    ensures stop ==> Chain(order, effectOf).events == logged' && Chain(order, effectOf).runs == runs'
    ensures !stop ==> Chain(order, effectOf).events == logged' + Chain(order[i + 1..], effectOf).events
    ensures !stop ==> Chain(order, effectOf).runs == runs' + Chain(order[i + 1..], effectOf).runs
  {
    var s := order[i];
    assert order[i..][0] == s && order[i..][1..] == order[i + 1..];
    var eff := effectOf(s.kind);
    var run := StrategyRun(s.name, s.priority, eff.outcome);
    stop := eff.outcome == NeverSettles;
    if !stop {
      ghost var rest := Chain(order[i + 1..], effectOf);
      ShiftFront(logged, eff.events, rest.events);
      ShiftFront(runs, [run], rest.runs);
    }
    ShiftFront(log0, logged, eff.events);
    page.DispatchAll(eff.events);
    logged' := logged + eff.events;
    runs' := runs + [run];
  }
}
