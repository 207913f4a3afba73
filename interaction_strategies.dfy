// The strategy tables of content-scripts/interaction-strategies.js and the
// `StrategyExecutor` that runs them: every fill strategy whose condition
// holds is run in table order (no strategy stops the others, and one that
// throws is recorded as a failure), then the input events are fired; the
// click strategies always run all five; element features are evaluated one
// by one.

module InteractionStrategies {
  import opened Common
  import opened Dom

  // ---------------------------------------------------------------------
  // Escaping text for `innerHTML`.

  /** The text an HTML parser makes of markup without tags: the references `&lt;`, `&gt;`, `&amp;` are decoded. */
  function DecodeEntities(s: string): string
    decreases |s|
  {
    if |s| == 0 then ""
    else if StartsWith(s, "&lt;") then "<" + DecodeEntities(s[4..])
    else if StartsWith(s, "&gt;") then ">" + DecodeEntities(s[4..])
    else if StartsWith(s, "&amp;") then "&" + DecodeEntities(s[5..])
    else [s[0]] + DecodeEntities(s[1..])
  }

  /** The replacement the innerHTML strategy makes as written: only `<` and `>` are escaped. */
  function EscapeAngles(t: string): (r: string)
    ensures forall k :: 0 <= k < |r| ==> r[k] != '<' && r[k] != '>'
  {
    if |t| == 0 then ""
    else (if t[0] == '<' then "&lt;" else if t[0] == '>' then "&gt;" else [t[0]]) + EscapeAngles(t[1..])
  }

  /** A text that already spells an entity is not written as typed: "&lt;" is shown as "<". */
  lemma EscapeAnglesLosesEntities()
    ensures EscapeAngles("&lt;") == "&lt;"
    ensures DecodeEntities(EscapeAngles("&lt;")) == "<" != "&lt;"
  {
    assert EscapeAngles("&lt;") == "&lt;" by {
      assert EscapeAngles(";") == ";";
      assert EscapeAngles("t;") == "t;";
      assert EscapeAngles("lt;") == "lt;";
    }
    assert StartsWith("&lt;", "&lt;");
    assert "&lt;"[4..] == "";
  }

  function EscapeChar(c: char): string {
    if c == '&' then "&amp;" else if c == '<' then "&lt;" else if c == '>' then "&gt;" else [c]
  }

  /** Escaping `&`, `<` and `>`, the replacement the strategy evidently intends. */
  function EscapeHtml(t: string): (r: string)
    ensures forall k :: 0 <= k < |r| ==> r[k] != '<' && r[k] != '>'
    ensures |r| >= |t|
  {
    if |t| == 0 then "" else EscapeChar(t[0]) + EscapeHtml(t[1..])
  }

  lemma DecodeEscapedChar(c: char, rest: string)
    ensures DecodeEntities(EscapeChar(c) + rest) == [c] + DecodeEntities(rest)
  {
    var s := EscapeChar(c) + rest;
    if c == '&' {
      assert !StartsWith(s, "&lt;") && !StartsWith(s, "&gt;") by { assert s[1] == 'a'; }
      assert StartsWith(s, "&amp;") && s[5..] == rest;
    } else if c == '<' {
      assert StartsWith(s, "&lt;") && s[4..] == rest;
    } else if c == '>' {
      assert !StartsWith(s, "&lt;") by { assert s[1] == 'g'; }
      assert StartsWith(s, "&gt;") && s[4..] == rest;
    } else {
      assert s[0] == c && s[1..] == rest;
    }
  }

  /** Whatever the text, the markup written shows exactly that text. */
  lemma {:induction false} EscapeHtmlRoundTrip(t: string)
    ensures DecodeEntities(EscapeHtml(t)) == t
  {
    if |t| > 0 {
      DecodeEscapedChar(t[0], EscapeHtml(t[1..]));
      EscapeHtmlRoundTrip(t[1..]);
      assert t == [t[0]] + t[1..];
    }
  }

  // ---------------------------------------------------------------------
  // Fill strategies.

  datatype FillKind = NativeSetter | TextNode | InnerHtml | ExecCommand | QuillEditor | GenericFill

  datatype FillStrategy = FillStrategy(name: string, kind: FillKind)

  /** `INPUT_FILL_STRATEGIES`, in order. */
  const FillStrategies: seq<FillStrategy> := [
    FillStrategy("原生Setter策略", NativeSetter),
    FillStrategy("ContentEditable文本节点策略", TextNode),
    FillStrategy("ContentEditable-innerHTML策略", InnerHtml),
    FillStrategy("ExecCommand策略", ExecCommand),
    FillStrategy("Quill编辑器策略", QuillEditor),
    FillStrategy("通用降级策略", GenericFill)
  ]

  /**
   * What the page's own code does when the strategies call into it: which
   * strategies' writes throw, which elements carry a Quill instance
   * (`__quill`), and whether Quill's `setText` or `execCommand` throws.
   */
  datatype Host = Host(faults: set<FillKind>, quillAt: nat -> bool, quillThrows: bool, execThrows: bool)

  predicate IsQlContainer(e: Element) { HasClass(e, "ql-container") }

  /** A strategy's `condition`. */
  predicate Applies(kind: FillKind, doc: seq<Element>, i: nat)
    requires i < |doc|
  {
    match kind
    case NativeSetter => IsTextControl(doc[i])
    case TextNode => EditableOrMarked(doc[i])
    case InnerHtml => EditableOrMarked(doc[i])
    case ExecCommand => EditableOrMarked(doc[i])
    case QuillEditor => HasClass(doc[i], "ql-editor") || Closest(doc, i, IsQlContainer).Some?
    case GenericFill => true
  }

  datatype Step = Step(elem: Element, success: bool, events: seq<Event>)

  /** The Quill strategy: its container, `setText` on a Quill instance, else a plain text write. */
  function QuillStep(doc: seq<Element>, i: nat, text: string, host: Host): Step
    requires i < |doc|
  {
    var container := match Closest(doc, i, IsQlContainer) case Some(c) => Some(c) case None => ParentOf(doc, i);
    if container.Some? && host.quillAt(container.value) then Step(doc[i], !host.quillThrows, [])
    else Step(doc[i].(content := Text(text)), true, [])
  }

  /** The generic strategy: `value` when the element has one, else text when editable, else raw markup. */
  function GenericStep(e: Element, text: string): Element {
    if e.hasValue then e.(value := text)
    else if e.editable then e.(content := Text(text))
    else e.(content := Markup(text))
  }

  /** One strategy's `execute` on element `i`: the element afterwards, the returned flag and the events fired. */
  function FillStep(kind: FillKind, doc: seq<Element>, i: nat, text: string, host: Host): Step
    requires i < |doc|
  {
    var e := doc[i];
    match kind
    case NativeSetter => Step(e.(value := text), true, [])
    case TextNode => Step(e.(content := Text(text)), text != "", [])
    case InnerHtml => Step(e.(content := Markup(EscapeAngles(text))), text != "", [])
    case ExecCommand => Step(e, !host.execThrows, [FocusOf(i)])
    case QuillEditor => QuillStep(doc, i, text, host)
    case GenericFill => Step(GenericStep(e, text), true, [])
  }

  /** A strategy's fill, with a throw turned into a failure that changes nothing. */
  function Attempt(kind: FillKind, doc: seq<Element>, i: nat, text: string, host: Host): Step
    requires i < |doc|
  {
    if kind in host.faults then Step(doc[i], false, []) else FillStep(kind, doc, i, text, host)
  }

  /** One entry of the returned `results`; `threw` marks an entry that carries an `error`. */
  datatype FillResult = FillResult(strategy: string, success: bool, threw: bool)

  datatype FillRun = FillRun(doc: seq<Element>, results: seq<FillResult>, events: seq<Event>)

  /** The strategy loop of `fillInput`, from the given strategies on. */
  function RunFill(strategies: seq<FillStrategy>, doc: seq<Element>, i: nat, text: string, host: Host): (r: FillRun)
    requires i < |doc|
    ensures |r.doc| == |doc|
    decreases |strategies|
  {
    if |strategies| == 0 then FillRun(doc, [], [])
    else
      var s := strategies[0];
      if Applies(s.kind, doc, i) then
        var step := Attempt(s.kind, doc, i, text, host);
        var rest := RunFill(strategies[1..], doc[i := step.elem], i, text, host);
        FillRun(rest.doc, [FillResult(s.name, step.success, s.kind in host.faults)] + rest.results, step.events + rest.events)
      else RunFill(strategies[1..], doc, i, text, host)
  }

  /** The fields every fill strategy leaves alone, so that every condition reads the same before and after. */
  predicate SameShape(a: seq<Element>, b: seq<Element>) {
    |a| == |b|
    && forall j :: 0 <= j < |a| ==>
      a[j].tag == b[j].tag && a[j].editable == b[j].editable && a[j].attrs == b[j].attrs
      && a[j].classes == b[j].classes && a[j].parent == b[j].parent && a[j].hasValue == b[j].hasValue
  }

  lemma {:induction false} ClosestSameShape(a: seq<Element>, b: seq<Element>, i: nat)
    requires SameShape(a, b) && i < |a|
    ensures Closest(a, i, IsQlContainer) == Closest(b, i, IsQlContainer)
    decreases i
  {
    assert ParentOf(a, i) == ParentOf(b, i);
    if !IsQlContainer(a[i]) && ParentOf(a, i).Some? {
      ClosestSameShape(a, b, ParentOf(a, i).value);
    }
  }

  lemma AppliesSameShape(kind: FillKind, a: seq<Element>, b: seq<Element>, i: nat)
    requires SameShape(a, b) && i < |a|
    ensures Applies(kind, a, i) == Applies(kind, b, i)
  {
    if kind == QuillEditor {
      ClosestSameShape(a, b, i);
    }
  }

  lemma AttemptKeepsShape(kind: FillKind, doc: seq<Element>, i: nat, text: string, host: Host)
    requires i < |doc|
    ensures SameShape(doc, doc[i := Attempt(kind, doc, i, text, host).elem])
  {
  }

  /** The strategies whose condition holds of element `i`, in table order. */
  function Applicable(strategies: seq<FillStrategy>, doc: seq<Element>, i: nat): (r: seq<FillStrategy>)
    requires i < |doc|
    ensures |r| <= |strategies|
  {
    if |strategies| == 0 then []
    else if Applies(strategies[0].kind, doc, i) then [strategies[0]] + Applicable(strategies[1..], doc, i)
    else Applicable(strategies[1..], doc, i)
  }

  /**
   * No strategy stops the others: there is exactly one result per
   * applicable strategy, in table order, and a result carries an error
   * exactly when its strategy threw, in which case it reports failure.
   */
  lemma {:induction false} OneResultPerApplicable(strategies: seq<FillStrategy>, doc: seq<Element>, i: nat, text: string, host: Host)
    requires i < |doc|
    ensures var r := RunFill(strategies, doc, i, text, host).results;
      var app := Applicable(strategies, doc, i);
      |r| == |app|
      && forall j :: 0 <= j < |r| ==>
           r[j].strategy == app[j].name
           && (r[j].threw <==> app[j].kind in host.faults)
           && (r[j].threw ==> !r[j].success)
    decreases |strategies|
  {
    if |strategies| > 0 {
      var s := strategies[0];
      if Applies(s.kind, doc, i) {
        var step := Attempt(s.kind, doc, i, text, host);
        var doc' := doc[i := step.elem];
        AttemptKeepsShape(s.kind, doc, i, text, host);
        OneResultPerApplicable(strategies[1..], doc', i, text, host);
        ApplicableSameShape(strategies[1..], doc, doc', i);
      } else {
        OneResultPerApplicable(strategies[1..], doc, i, text, host);
      }
    }
  }

  lemma {:induction false} ApplicableSameShape(strategies: seq<FillStrategy>, a: seq<Element>, b: seq<Element>, i: nat)
    requires SameShape(a, b) && i < |a|
    ensures Applicable(strategies, a, i) == Applicable(strategies, b, i)
    decreases |strategies|
  {
    if |strategies| > 0 {
      AppliesSameShape(strategies[0].kind, a, b, i);
      ApplicableSameShape(strategies[1..], a, b, i);
    }
  }

  /** The fill changes element `i` only, and keeps its shape. */
  lemma {:induction false} RunFillTouchesOnlyTarget(strategies: seq<FillStrategy>, doc: seq<Element>, i: nat, text: string, host: Host)
    requires i < |doc|
    ensures var d := RunFill(strategies, doc, i, text, host).doc;
      SameShape(doc, d) && forall j :: 0 <= j < |doc| && j != i ==> d[j] == doc[j]
    decreases |strategies|
  {
    if |strategies| > 0 {
      var s := strategies[0];
      if Applies(s.kind, doc, i) {
        AttemptKeepsShape(s.kind, doc, i, text, host);
        RunFillTouchesOnlyTarget(strategies[1..], doc[i := Attempt(s.kind, doc, i, text, host).elem], i, text, host);
      } else {
        RunFillTouchesOnlyTarget(strategies[1..], doc, i, text, host);
      }
    }
  }

  /** A table that ends with the generic strategy always runs it, last. */
  lemma {:induction false} GenericRunsLast(strategies: seq<FillStrategy>, doc: seq<Element>, i: nat)
    requires i < |doc| && |strategies| > 0 && strategies[|strategies| - 1].kind == GenericFill
    ensures var app := Applicable(strategies, doc, i);
      |app| > 0 && app[|app| - 1] == strategies[|strategies| - 1]
    decreases |strategies|
  {
    if |strategies| == 1 {
      assert strategies[1..] == [];
    } else {
      assert strategies[1..][|strategies[1..]| - 1] == strategies[|strategies| - 1];
      GenericRunsLast(strategies[1..], doc, i);
    }
  }

  /**
   * The generic strategy runs last: unless its write throws, an element
   * with a `value` ends up holding the text, and an editable element
   * without one ends up showing exactly the text, whatever the earlier
   * strategies wrote.
   */
  lemma {:induction false} GenericWriteIsFinal(strategies: seq<FillStrategy>, doc: seq<Element>, i: nat, text: string, host: Host)
    requires i < |doc| && GenericFill !in host.faults
    requires |strategies| > 0 && strategies[|strategies| - 1].kind == GenericFill
    ensures doc[i].hasValue ==> RunFill(strategies, doc, i, text, host).doc[i].value == text
    ensures !doc[i].hasValue && doc[i].editable ==> RunFill(strategies, doc, i, text, host).doc[i].content == Text(text)
    decreases |strategies|
  {
    var s := strategies[0];
    if |strategies| == 1 {
      assert strategies[1..] == [];
    } else {
      assert strategies[1..][|strategies[1..]| - 1] == strategies[|strategies| - 1];
      if Applies(s.kind, doc, i) {
        AttemptKeepsShape(s.kind, doc, i, text, host);
        GenericWriteIsFinal(strategies[1..], doc[i := Attempt(s.kind, doc, i, text, host).elem], i, text, host);
      } else {
        GenericWriteIsFinal(strategies[1..], doc, i, text, host);
      }
    }
  }

  /** Strategies that apply to an editable element without a Quill container and leave its content alone. */
  lemma {:induction false} ContentKeptAfterInnerHtml(strategies: seq<FillStrategy>, doc: seq<Element>, i: nat, text: string, host: Host)
    requires i < |doc| && !doc[i].hasValue && GenericFill in host.faults
    requires !HasClass(doc[i], "ql-editor") && Closest(doc, i, IsQlContainer).None?
    requires forall k :: 0 <= k < |strategies| ==> strategies[k].kind in {ExecCommand, QuillEditor, GenericFill}
    ensures RunFill(strategies, doc, i, text, host).doc[i].content == doc[i].content
    decreases |strategies|
  {
    if |strategies| > 0 {
      var s := strategies[0];
      assert s.kind in {ExecCommand, QuillEditor, GenericFill};
      if Applies(s.kind, doc, i) {
        var doc' := doc[i := Attempt(s.kind, doc, i, text, host).elem];
        AttemptKeepsShape(s.kind, doc, i, text, host);
        ClosestSameShape(doc, doc', i);
        ContentKeptAfterInnerHtml(strategies[1..], doc', i, text, host);
      } else {
        ContentKeptAfterInnerHtml(strategies[1..], doc, i, text, host);
      }
    }
  }

  /**
   * The innerHTML strategy's lossy markup survives `fillInput` only when
   * the generic strategy's write throws: then, on an editable element
   * outside any Quill editor, the element is left with the markup of the
   * text with only `<` and `>` escaped.
   */
  lemma EscapeAnglesLossSurvives(doc: seq<Element>, i: nat, text: string, host: Host)
    requires i < |doc| && doc[i].editable && !doc[i].hasValue
    requires GenericFill in host.faults && InnerHtml !in host.faults
    requires !HasClass(doc[i], "ql-editor") && Closest(doc, i, IsQlContainer).None?
    ensures RunFill(FillStrategies, doc, i, text, host).doc[i].content == Markup(EscapeAngles(text))
  {
    var d0 := StepDoc(NativeSetter, doc, i, text, host);
    StepKeepsTarget(NativeSetter, doc, i, text, host);
    var d1 := StepDoc(TextNode, d0, i, text, host);
    StepKeepsTarget(TextNode, d0, i, text, host);
    var d2 := StepDoc(InnerHtml, d1, i, text, host);
    StepKeepsTarget(InnerHtml, d1, i, text, host);
    RunFillStep(FillStrategies, doc, i, text, host);
    RunFillStep(FillStrategies[1..], d0, i, text, host);
    RunFillStep(FillStrategies[2..], d1, i, text, host);
    assert FillStrategies[1..][1..] == FillStrategies[2..] && FillStrategies[2..][1..] == FillStrategies[3..];
    ContentKeptAfterInnerHtml(FillStrategies[3..], d2, i, text, host);
  }

  /** One strategy's turn keeps the target's kind and Quill context; the innerHTML strategy writes its lossy markup. */
  lemma StepKeepsTarget(kind: FillKind, doc: seq<Element>, i: nat, text: string, host: Host)
    requires i < |doc|
    ensures var d := StepDoc(kind, doc, i, text, host);
      d[i].editable == doc[i].editable && d[i].hasValue == doc[i].hasValue && d[i].classes == doc[i].classes
      && Closest(d, i, IsQlContainer) == Closest(doc, i, IsQlContainer)
    ensures kind == InnerHtml && doc[i].editable && InnerHtml !in host.faults ==>
      StepDoc(kind, doc, i, text, host)[i].content == Markup(EscapeAngles(text))
  {
    ClosestSameShape(doc, StepDoc(kind, doc, i, text, host), i);
  }

  /** The page after one strategy's turn: its write when its condition holds, unchanged otherwise. */
  function StepDoc(kind: FillKind, doc: seq<Element>, i: nat, text: string, host: Host): (r: seq<Element>)
    requires i < |doc|
    ensures SameShape(doc, r) && |r| == |doc|
  {
    if Applies(kind, doc, i) then
      AttemptKeepsShape(kind, doc, i, text, host);
      doc[i := Attempt(kind, doc, i, text, host).elem]
    else doc
  }

  lemma RunFillStep(strategies: seq<FillStrategy>, doc: seq<Element>, i: nat, text: string, host: Host)
    requires i < |doc| && |strategies| > 0
    ensures RunFill(strategies, doc, i, text, host).doc == RunFill(strategies[1..], StepDoc(strategies[0].kind, doc, i, text, host), i, text, host).doc
  {
  }

  // ---------------------------------------------------------------------
  // Input events.

  datatype EventTrigger = EventTrigger(name: string, events: seq<string>, withData: bool, quillOnly: bool)

  /** `EVENT_TRIGGER_STRATEGIES`, in order. */
  const EventTriggers: seq<EventTrigger> := [
    EventTrigger("输入事件组", ["input", "change", "keyup", "keydown"], false, false),
    EventTrigger("InputEvent（带数据）", ["input"], true, false),
    EventTrigger("Quill专属事件", ["text-change"], false, true)
  ]

  function TriggerEvent(t: EventTrigger, name: string, i: nat, text: string): Event {
    Event(i, name, if t.withData then TextInput(text) else Plain)
  }

  /** The events of one trigger strategy: none when its condition fails. */
  function TriggerEvents(t: EventTrigger, e: Element, i: nat, text: string): (r: seq<Event>)
    ensures t.quillOnly && !HasClass(e, "ql-editor") ==> r == []
    ensures !t.quillOnly || HasClass(e, "ql-editor") ==>
      |r| == |t.events| && forall k :: 0 <= k < |r| ==> r[k] == TriggerEvent(t, t.events[k], i, text)
  {
    if t.quillOnly && !HasClass(e, "ql-editor") then []
    else seq(|t.events|, k requires 0 <= k < |t.events| => TriggerEvent(t, t.events[k], i, text))
  }

  function AllTriggerEvents(triggers: seq<EventTrigger>, e: Element, i: nat, text: string): seq<Event> {
    if |triggers| == 0 then [] else TriggerEvents(triggers[0], e, i, text) + AllTriggerEvents(triggers[1..], e, i, text)
  }

  /** `triggerInputEvents`: input, change, keyup, keydown, an input event with the text, and `text-change` only on a Quill editor. */
  lemma InputEventsSequence(e: Element, i: nat, text: string)
    ensures AllTriggerEvents(EventTriggers, e, i, text) ==
      [Event(i, "input", Plain), Event(i, "change", Plain), Event(i, "keyup", Plain), Event(i, "keydown", Plain),
       Event(i, "input", TextInput(text))]
      + (if HasClass(e, "ql-editor") then [Event(i, "text-change", Plain)] else [])
  {
    var t := EventTriggers;
    assert t[1..][1..] == t[2..] && t[2..][1..] == [];
    assert AllTriggerEvents(t[2..], e, i, text) == TriggerEvents(t[2], e, i, text);
  }

  /** Dispatches the events of one trigger strategy. */
  method FireTrigger(page: Page, t: EventTrigger, e: Element, i: nat, text: string)
    modifies page
    ensures page.elems == old(page.elems)
    ensures page.log == old(page.log) + TriggerEvents(t, e, i, text)
  {
    if t.quillOnly && !HasClass(e, "ql-editor") {
      return;
    }
    var n := 0;
    while n < |t.events|
      invariant 0 <= n <= |t.events|
      invariant page.elems == old(page.elems)
      invariant page.log == old(page.log) + TriggerEvents(t, e, i, text)[..n]
    {
      page.Dispatch(TriggerEvent(t, t.events[n], i, text));
      assert TriggerEvents(t, e, i, text)[..n + 1] == TriggerEvents(t, e, i, text)[..n] + [TriggerEvent(t, t.events[n], i, text)];
      n := n + 1;
    }
    assert TriggerEvents(t, e, i, text)[..n] == TriggerEvents(t, e, i, text);
  }

  /** Runs the trigger strategies in order on element `i` as it stands. */
  method FireTriggers(page: Page, triggers: seq<EventTrigger>, i: nat, text: string)
    requires i < |page.elems|
    modifies page
    ensures page.elems == old(page.elems)
    ensures page.log == old(page.log) + AllTriggerEvents(triggers, old(page.elems)[i], i, text)
  {
    var e := page.elems[i];
    ghost var done: seq<Event> := [];
    var k := 0;
    while k < |triggers|
      invariant 0 <= k <= |triggers|
      invariant page.elems == old(page.elems)
      invariant page.log == old(page.log) + done
      invariant AllTriggerEvents(triggers, e, i, text) == done + AllTriggerEvents(triggers[k..], e, i, text)
    {
      assert triggers[k..][0] == triggers[k] && triggers[k..][1..] == triggers[k + 1..];
      ghost var step := TriggerEvents(triggers[k], e, i, text);
      ShiftFront(done, step, AllTriggerEvents(triggers[k + 1..], e, i, text));
      ShiftFront(old(page.log), done, step);
      FireTrigger(page, triggers[k], e, i, text);
      done := done + step;
      k := k + 1;
    }
  }

  /** Runs the fill strategies in order on element `i`, each applicable one once. */
  method RunFillStrategies(page: Page, strategies: seq<FillStrategy>, i: nat, text: string, host: Host)
    returns (results: seq<FillResult>)
    requires i < |page.elems|
    modifies page
    ensures var run := RunFill(strategies, old(page.elems), i, text, host);
      page.elems == run.doc && results == run.results && page.log == old(page.log) + run.events
  {
    ghost var doc0 := page.elems;
    ghost var fired: seq<Event> := [];
    results := [];
    var k := 0;
    while k < |strategies|
      invariant 0 <= k <= |strategies|
      invariant |page.elems| == |doc0|
      invariant page.log == old(page.log) + fired
      invariant RunFill(strategies, doc0, i, text, host).doc == RunFill(strategies[k..], page.elems, i, text, host).doc
      invariant RunFill(strategies, doc0, i, text, host).results == results + RunFill(strategies[k..], page.elems, i, text, host).results
      invariant RunFill(strategies, doc0, i, text, host).events == fired + RunFill(strategies[k..], page.elems, i, text, host).events
    {
      var s := strategies[k];
      assert strategies[k..][0] == s && strategies[k..][1..] == strategies[k + 1..];
      if Applies(s.kind, page.elems, i) {
        var step := Attempt(s.kind, page.elems, i, text, host);
        var result := FillResult(s.name, step.success, s.kind in host.faults);
        ghost var rest := RunFill(strategies[k + 1..], page.elems[i := step.elem], i, text, host);
        assert RunFill(strategies[k..], page.elems, i, text, host) == FillRun(rest.doc, [result] + rest.results, step.events + rest.events);
        ShiftFront(fired, step.events, rest.events);
        ShiftFront(results, [result], rest.results);
        ShiftFront(old(page.log), fired, step.events);
        page.DispatchAll(step.events);
        fired := fired + step.events;
        page.Set(i, step.elem);
        results := results + [result];
      }
      k := k + 1;
    }
  }

  /**
   * `StrategyExecutor.fillInput`: focus and click the element, run every
   * applicable fill strategy in order, then fire the input events on the
   * element as the strategies left it.
   */
  method FillInput(page: Page, i: nat, text: string, host: Host) returns (results: seq<FillResult>)
    requires i < |page.elems|
    modifies page
    ensures var run := RunFill(FillStrategies, old(page.elems), i, text, host);
      page.elems == run.doc && results == run.results
      && page.log == old(page.log) + [FocusOf(i), ClickOf(i)] + run.events
                     + AllTriggerEvents(EventTriggers, run.doc[i], i, text)
  {
    ghost var run := RunFill(FillStrategies, page.elems, i, text, host);
    ghost var log0 := page.log;
    page.Dispatch(FocusOf(i));
    page.Dispatch(ClickOf(i));
    assert page.log == log0 + [FocusOf(i), ClickOf(i)];
    results := RunFillStrategies(page, FillStrategies, i, text, host);
    assert page.elems == run.doc && page.log == log0 + [FocusOf(i), ClickOf(i)] + run.events;
    FireTriggers(page, EventTriggers, i, text);
  }

  // ---------------------------------------------------------------------
  // Click strategies.

  datatype ClickKind = FocusFirst | MouseSequence | PointerSequence | TouchSequence | NativeClick

  datatype ClickStrategy = ClickStrategy(name: string, kind: ClickKind)

  /** `CLICK_TRIGGER_STRATEGIES`, in order. */
  const ClickStrategies: seq<ClickStrategy> := [
    ClickStrategy("聚焦策略", FocusFirst),
    ClickStrategy("鼠标事件序列", MouseSequence),
    ClickStrategy("指针事件序列", PointerSequence),
    ClickStrategy("触摸事件序列", TouchSequence),
    ClickStrategy("原生Click", NativeClick)
  ]

  datatype ClickResult = ClickResult(strategy: string, success: bool)

  /**
   * The events one click strategy fires, and whether it completes.  Where
   * the browser has no `TouchEvent`, creating the first touch event throws.
   */
  function ClickStep(kind: ClickKind, b: nat, touchSupported: bool): (seq<Event>, bool) {
    match kind
    case FocusFirst => ([FocusOf(b)], true)
    case MouseSequence =>
      ([Event(b, "mouseover", Mouse), Event(b, "mouseenter", Mouse), Event(b, "mousedown", Mouse),
        Event(b, "mouseup", Mouse), Event(b, "click", Mouse)], true)
    case PointerSequence =>
      ([Event(b, "pointerover", Pointer), Event(b, "pointerenter", Pointer), Event(b, "pointerdown", Pointer),
        Event(b, "pointerup", Pointer), Event(b, "click", Pointer)], true)
    case TouchSequence =>
      if touchSupported then ([Event(b, "touchstart", Touch), Event(b, "touchend", Touch)], true) else ([], false)
    case NativeClick => ([ClickOf(b)], true)
  }

  function ClickRun(strategies: seq<ClickStrategy>, b: nat, touchSupported: bool): (seq<Event>, seq<ClickResult>) {
    if |strategies| == 0 then ([], [])
    else
      var (es, ok) := ClickStep(strategies[0].kind, b, touchSupported);
      var (rest, results) := ClickRun(strategies[1..], b, touchSupported);
      (es + rest, [ClickResult(strategies[0].name, ok)] + results)
  }

  /** `clickButton` always reports five results, in table order; only the touch strategy can fail. */
  lemma {:induction false} ClickResultsShape(strategies: seq<ClickStrategy>, b: nat, touchSupported: bool)
    ensures var results := ClickRun(strategies, b, touchSupported).1;
      |results| == |strategies|
      && forall k :: 0 <= k < |results| ==>
           results[k].strategy == strategies[k].name
           && (results[k].success <==> strategies[k].kind != TouchSequence || touchSupported)
  {
    if |strategies| > 0 {
      ClickResultsShape(strategies[1..], b, touchSupported);
    }
  }

  /** The event sequence ends with the native click, whether or not touch events exist. */
  lemma ClickEndsWithNativeClick(b: nat, touchSupported: bool)
    ensures var es := ClickRun(ClickStrategies, b, touchSupported).0;
      |es| == (if touchSupported then 14 else 12) && es[0] == FocusOf(b) && es[|es| - 1] == ClickOf(b)
  {
    var t := ClickStrategies;
    assert t[4..][1..] == [] && t[3..][1..] == t[4..] && t[2..][1..] == t[3..] && t[1..][1..] == t[2..];
    var touch := if touchSupported then 2 else 0;
    assert |ClickRun(t[4..], b, touchSupported).0| == 1 && ClickRun(t[4..], b, touchSupported).0[0] == ClickOf(b);
    assert ClickRun(t[3..], b, touchSupported).0 == ClickStep(TouchSequence, b, touchSupported).0 + ClickRun(t[4..], b, touchSupported).0;
    assert |ClickRun(t[3..], b, touchSupported).0| == touch + 1;
    assert |ClickRun(t[2..], b, touchSupported).0| == touch + 6;
    assert |ClickRun(t[1..], b, touchSupported).0| == touch + 11;
    assert ClickRun(t, b, touchSupported).0 == [FocusOf(b)] + ClickRun(t[1..], b, touchSupported).0;
  }

  /** Runs the click strategies in order; every one of them runs. */
  method RunClickStrategies(page: Page, strategies: seq<ClickStrategy>, b: nat, touchSupported: bool)
    returns (results: seq<ClickResult>)
    modifies page
    ensures page.elems == old(page.elems)
    ensures page.log == old(page.log) + ClickRun(strategies, b, touchSupported).0
    ensures results == ClickRun(strategies, b, touchSupported).1
  {
    ghost var fired: seq<Event> := [];
    results := [];
    var k := 0;
    while k < |strategies|
      invariant 0 <= k <= |strategies|
      invariant page.elems == old(page.elems)
      invariant page.log == old(page.log) + fired
      invariant ClickRun(strategies, b, touchSupported).0 == fired + ClickRun(strategies[k..], b, touchSupported).0
      invariant ClickRun(strategies, b, touchSupported).1 == results + ClickRun(strategies[k..], b, touchSupported).1
    {
      fired, results := ClickOne(page, strategies, k, b, touchSupported, old(page.log), fired, results);
      k := k + 1;
    }
  }

  /** One strategy of that loop: its events are dispatched and its result appended. */
  method ClickOne(page: Page, strategies: seq<ClickStrategy>, k: nat, b: nat, touchSupported: bool,
                  ghost log0: seq<Event>, ghost fired: seq<Event>, results: seq<ClickResult>)
    returns (ghost fired': seq<Event>, results': seq<ClickResult>)
    requires k < |strategies| && page.log == log0 + fired
    requires ClickRun(strategies, b, touchSupported).0 == fired + ClickRun(strategies[k..], b, touchSupported).0
    requires ClickRun(strategies, b, touchSupported).1 == results + ClickRun(strategies[k..], b, touchSupported).1
    modifies page
    ensures page.elems == old(page.elems) && page.log == log0 + fired'
    ensures ClickRun(strategies, b, touchSupported).0 == fired' + ClickRun(strategies[k + 1..], b, touchSupported).0
    ensures ClickRun(strategies, b, touchSupported).1 == results' + ClickRun(strategies[k + 1..], b, touchSupported).1
  {
    var s := strategies[k];
    assert strategies[k..][0] == s && strategies[k..][1..] == strategies[k + 1..];
    var (es, ok) := ClickStep(s.kind, b, touchSupported);
    ghost var tail := ClickRun(strategies[k + 1..], b, touchSupported);
    assert ClickRun(strategies[k..], b, touchSupported) == (es + tail.0, [ClickResult(s.name, ok)] + tail.1);
    ShiftFront(fired, es, tail.0);
    ShiftFront(results, [ClickResult(s.name, ok)], tail.1);
    ShiftFront(log0, fired, es);
    page.DispatchAll(es);
    fired' := fired + es;
    results' := results + [ClickResult(s.name, ok)];
  }

  /** `StrategyExecutor.clickButton`. */
  method ClickButton(page: Page, b: nat, touchSupported: bool) returns (results: seq<ClickResult>)
    modifies page
    ensures page.elems == old(page.elems)
    ensures page.log == old(page.log) + ClickRun(ClickStrategies, b, touchSupported).0
    ensures results == ClickRun(ClickStrategies, b, touchSupported).1
  {
    results := RunClickStrategies(page, ClickStrategies, b, touchSupported);
  }

  // ---------------------------------------------------------------------
  // Element features.

  datatype FeatureCheck =
    | InputTag | EditableCheck | TextboxRole | InputLabel | HasPlaceholder | QuillClass
    | ButtonTag | ButtonRole | ClickHandler | PointerCursor | SendLabel | SubmitType | DataAction

  datatype Feature = Feature(name: string, check: FeatureCheck)

  const InputFeatures: seq<Feature> := [
    Feature("tagName", InputTag), Feature("contentEditable", EditableCheck), Feature("role", TextboxRole),
    Feature("ariaLabel", InputLabel), Feature("placeholder", HasPlaceholder), Feature("quillEditor", QuillClass)
  ]

  const ButtonFeatures: seq<Feature> := [
    Feature("tagName", ButtonTag), Feature("role", ButtonRole), Feature("clickHandler", ClickHandler),
    Feature("cursorPointer", PointerCursor), Feature("ariaLabel", SendLabel), Feature("type", SubmitType),
    Feature("dataAction", DataAction)
  ]

  /** The lower-cased `aria-label` contains one of the words. */
  predicate LabelMentions(e: Element, words: seq<string>) {
    AttrGiven(e, "aria-label") && MatchesAnyCI(e.attrs["aria-label"], words)
  }

  predicate Check(c: FeatureCheck, e: Element) {
    match c
    case InputTag => e.tag == "TEXTAREA" || e.tag == "INPUT"
    case EditableCheck => EditableOrMarked(e)
    case TextboxRole => AttrIs(e, "role", "textbox")
    case InputLabel => LabelMentions(e, ["input", "message", "输入"])
    case HasPlaceholder => AttrGiven(e, "placeholder")
    case QuillClass => HasClass(e, "ql-editor")
    case ButtonTag => e.tag == "BUTTON"
    case ButtonRole => AttrIs(e, "role", "button")
    case ClickHandler => e.hasClickHandler || AttrGiven(e, "onclick")
    case PointerCursor => e.cursorPointer
    case SendLabel => LabelMentions(e, ["send", "submit", "发送", "提交"])
    case SubmitType => AttrIs(e, "type", "submit")
    case DataAction => AttrGiven(e, "data-action") || AttrGiven(e, "data-testid")
  }

  /** `evaluateElement`: the names of the features whose check holds (a throwing check counts as no match). */
  function Matching(e: Element, features: seq<Feature>, throws: FeatureCheck -> bool): (r: seq<string>)
    ensures |r| <= |features|
    ensures forall n :: n in r ==> exists f :: f in features && f.name == n && Check(f.check, e) && !throws(f.check)
    ensures forall f :: f in features && Check(f.check, e) && !throws(f.check) ==> f.name in r
  {
    if |features| == 0 then []
    else
      var rest := Matching(e, features[1..], throws);
      var f := features[0];
      assert forall g :: g in features ==> g == f || g in features[1..];
      if Check(f.check, e) && !throws(f.check) then [f.name] + rest else rest
  }

  /** A feature added at the end adds its name at the end exactly when its check holds: names come in feature order. */
  lemma {:induction false} MatchingAppend(e: Element, features: seq<Feature>, f: Feature, throws: FeatureCheck -> bool)
    ensures Matching(e, features + [f], throws)
      == Matching(e, features, throws) + (if Check(f.check, e) && !throws(f.check) then [f.name] else [])
  {
    var tail := if Check(f.check, e) && !throws(f.check) then [f.name] else [];
    if |features| > 0 {
      var g := features[0];
      var head := if Check(g.check, e) && !throws(g.check) then [g.name] else [];
      assert (features + [f])[0] == g;
      assert (features + [f])[1..] == features[1..] + [f];
      assert Matching(e, features, throws) == head + Matching(e, features[1..], throws);
      MatchingAppend(e, features[1..], f, throws);
      assert Matching(e, features + [f], throws) == head + (Matching(e, features[1..], throws) + tail);
      ShiftFront(head, Matching(e, features[1..], throws), tail);
    } else {
      assert (features + [f])[1..] == [];
    }
  }

  method EvaluateElement(e: Element, features: seq<Feature>, throws: FeatureCheck -> bool) returns (matches: seq<string>)
    ensures matches == Matching(e, features, throws)
  {
    matches := [];
    var k := 0;
    while k < |features|
      invariant 0 <= k <= |features|
      invariant Matching(e, features, throws) == matches + Matching(e, features[k..], throws)
    {
      var f := features[k];
      assert features[k..][0] == f && features[k..][1..] == features[k + 1..];
      if Check(f.check, e) && !throws(f.check) {
        ShiftFront(matches, [f.name], Matching(e, features[k + 1..], throws));
        matches := matches + [f.name];
      }
      k := k + 1;
    }
  }

  /** `isInputElement`/`isButtonElement`: the matches, or `null` when there are none. */
  function Classify(e: Element, features: seq<Feature>, throws: FeatureCheck -> bool): (r: Option<seq<string>>)
    ensures r.None? <==> forall f :: f in features ==> !Check(f.check, e) || throws(f.check)
    ensures r.Some? ==> r.value == Matching(e, features, throws) && |r.value| > 0
  {
    var m := Matching(e, features, throws);
    if |m| > 0 then
      assert m[0] in m;
      Some(m)
    else None
  }
}
