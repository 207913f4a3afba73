// The script injected into every chat page shown in the split view
// (content-scripts/iframe-injector.js): it loads the site's selector
// configuration, listens for fill-and-send requests from the parent page,
// finds the input box and the send button through a cascade of selectors,
// fills the box and then clicks the button, runs the fallback chain, or
// presses Enter.

module IframeInjector {
  import opened Common
  import opened SiteIds
  import opened Dom
  import opened SiteConfigs
  import opened FallbackStrategies
  import opened Selectors

  // ---------------------------------------------------------------------
  // Configuration and messages.

  /**
   * `loadSiteConfig`: the entry stored under the page's site id, if any.
   * `stored` is the `aiSelectorConfigs` value, `None` when absent; a
   * storage failure leaves the configuration unset as well.
   */
  function LoadSiteConfig(hostname: string, stored: Option<map<string, SiteConfig>>): (r: Option<SiteConfig>)
    ensures r.Some? <==> stored.Some? && SiteId(hostname) in stored.value
    ensures r.Some? ==> r.value == stored.value[SiteId(hostname)]
  {
    var all := if stored.Some? then stored.value else map[];
    if SiteId(hostname) in all then Some(all[SiteId(hostname)]) else None
  }

  /** `event.data` of a window message, with the fields the listener reads. */
  datatype MessageData = MessageData(source: Option<string>, action: Option<string>, text: string)

  /** The message listener acts only on a fill-and-send request from the aggregator page. */
  predicate IsFillRequest(data: Option<MessageData>) {
    data.Some? && data.value.source == Some("ai-aggregator") && data.value.action == Some("fillAndSend")
  }

  // ---------------------------------------------------------------------
  // Selector cascades.

  const GenericInputSelectors: seq<string> := [
    "#prompt-textarea", "#chat-input", "#message-input", "#input", "#textarea",
    ".ql-editor", "[class*=\"ql-editor\"]",
    ".ProseMirror", "[class*=\"ProseMirror\"]",
    "[contenteditable=\"true\"][role=\"textbox\"]", "[role=\"textbox\"][contenteditable]", "textarea[role=\"textbox\"]",
    "textarea[data-id]", "[data-testid*=\"input\"]", "[data-testid*=\"textarea\"]",
    "textarea[aria-label]", "[contenteditable=\"true\"][aria-label]",
    "textarea[placeholder]",
    "textarea:not([style*=\"display: none\"]):not([style*=\"display:none\"])", "textarea:not([hidden])",
    "div[contenteditable=\"true\"]", "[contenteditable=\"true\"]",
    "textarea", "input[type=\"text\"]"
  ]

  /** The send-button list up to its `:has-text` entries. */
  const ButtonSelectorsHead: seq<string> := [
    "button[data-testid*=\"send\"]", "button[data-testid*=\"submit\"]",
    "button[aria-label*=\"Send\"]", "button[aria-label*=\"send\"]", "button[aria-label*=\"发送\"]",
    "button[aria-label*=\"提交\"]", "button[aria-label*=\"Submit\"]",
    "button[type=\"submit\"]", "input[type=\"submit\"]",
    "button[title*=\"Send\"]", "button[title*=\"发送\"]",
    "button:has(svg[data-icon*=\"send\"])", "button:has(svg[data-icon*=\"paper-plane\"])", "button:has(svg[data-icon*=\"arrow\"])",
    "button[class*=\"send\"]", "button[class*=\"submit\"]"
  ]

  const HasTextSelectors: seq<string> := ["button:has-text(\"Send\")", "button:has-text(\"发送\")", "button:has-text(\"提交\")"]

  const ButtonSelectorsTail: seq<string> := ["button[type=\"submit\"]", "button"]

  const GenericButtonSelectors: seq<string> := ButtonSelectorsHead + HasTextSelectors + ButtonSelectorsTail

  /** The selector of the last-resort search around the input box. */
  const NearbySubmitSelector := "button[type=\"submit\"]:not([disabled])"

  /** How many ancestors of the input box the last-resort search visits. */
  const ClimbLevels := 5

  /** A selector using the `:has-text()` pseudo-class, which CSS does not define. */
  predicate UsesHasText(sel: string) {
    Contains(sel, ":has-text(")
  }

  /** An engine that follows CSS: `:has-text()` is a syntax error. */
  ghost predicate CssConformant(eng: Engine) {
    forall sel :: UsesHasText(sel) ==> !eng.valid(sel)
  }

  /** The send-button list with its three `:has-text` entries and the repeated `button[type="submit"]` removed. */
  const EffectiveButtonSelectors: seq<string> := ButtonSelectorsHead + ["button"]

  lemma HasTextSelectorsThrow(eng: Engine)
    requires CssConformant(eng)
    ensures forall k :: 0 <= k < |HasTextSelectors| ==> !eng.valid(HasTextSelectors[k])
  {
    var t := HasTextSelectors;
    assert OccursAt(t[0], ":has-text(", 6) && OccursAt(t[1], ":has-text(", 6) && OccursAt(t[2], ":has-text(", 6);
    OccurrenceGivesContains(t[0], ":has-text(", 6);
    OccurrenceGivesContains(t[1], ":has-text(", 6);
    OccurrenceGivesContains(t[2], ":has-text(", 6);
  }

  /**
   * On an engine that follows CSS, entries 17 to 20 of the send-button list
   * are dead: the `:has-text` ones always throw, and the next repeats entry 8.
   */
  lemma DeadButtonSelectors(doc: seq<Element>, eng: Engine)
    requires CssConformant(eng)
    ensures FirstHit(doc, eng, GenericButtonSelectors, VisibleEnabled) == FirstHit(doc, eng, EffectiveButtonSelectors, VisibleEnabled)
  {
    HasTextSelectorsThrow(eng);
    SkipMisses(doc, eng, ButtonSelectorsHead, HasTextSelectors, ButtonSelectorsTail, VisibleEnabled);
    RepeatedSubmitIsDead(doc, eng);
  }

  lemma RepeatedSubmitIsDead(doc: seq<Element>, eng: Engine)
    ensures FirstHit(doc, eng, ButtonSelectorsHead + ButtonSelectorsTail, VisibleEnabled)
         == FirstHit(doc, eng, EffectiveButtonSelectors, VisibleEnabled)
  {
    var head := ButtonSelectorsHead;
    assert head + ButtonSelectorsTail == head + [head[7]] + ["button"];
    SkipRepeat(doc, eng, head, head[7], ["button"], VisibleEnabled);
  }

  /** The configured selector's hit, when the configuration names a selector. */
  function ConfiguredHit(doc: seq<Element>, eng: Engine, sel: Option<string>): (r: Option<nat>)
    ensures r.Some? ==> Given(sel) && r == Hit(doc, eng, sel.value, Visible)
    ensures !Given(sel) ==> r.None?
  {
    if Given(sel) then Hit(doc, eng, sel.value, Visible) else None
  }

  function InputSelector(config: Option<SiteConfig>): Option<string> {
    if config.Some? then config.value.inputSelector else None
  }

  function SendSelector(config: Option<SiteConfig>): Option<string> {
    if config.Some? then config.value.sendButtonSelector else None
  }

  /** `findInputElement`: configured selector, generic list, then the textarea scan. */
  function ResolveInput(doc: seq<Element>, eng: Engine, config: Option<SiteConfig>): (r: Option<nat>)
    ensures r.Some? ==> r.value < |doc| && Visible(doc[r.value])
    ensures ConfiguredHit(doc, eng, InputSelector(config)).Some? ==> r == ConfiguredHit(doc, eng, InputSelector(config))
    ensures ConfiguredHit(doc, eng, InputSelector(config)).None? && FirstHit(doc, eng, GenericInputSelectors, Visible).Some?
      ==> r == FirstHit(doc, eng, GenericInputSelectors, Visible)
    ensures ConfiguredHit(doc, eng, InputSelector(config)).None? && FirstHit(doc, eng, GenericInputSelectors, Visible).None?
      ==> r == UsableTextarea(doc, 0)
  {
    match ConfiguredHit(doc, eng, InputSelector(config))
    case Some(i) => Some(i)
    case None =>
      match FirstHit(doc, eng, GenericInputSelectors, Visible)
      case Some(i) => Some(i)
      case None => UsableTextarea(doc, 0)
  }

  /**
   * The climb from the input box's parent: at most five ancestors, each
   * searched for a visible submit button.  The query is outside any `try`,
   * so a selector the engine rejects makes the whole search throw.
   */
  function Climb(doc: seq<Element>, eng: Engine, at: Option<nat>, level: nat): (r: Lookup)
    ensures r.Found? ==> r.index < |doc| && Visible(doc[r.index])
    ensures r.Found? ==> at.Some? && level < ClimbLevels
    ensures r.Found? ==> exists a :: QueryWithin(doc, eng, NearbySubmitSelector, a) == Match(r.index)
    ensures r == Threw ==> !eng.valid(NearbySubmitSelector)
    decreases ClimbLevels - level
  {
    if at.None? || level >= ClimbLevels then NotFound
    else match QueryWithin(doc, eng, NearbySubmitSelector, at.value)
      case SyntaxError => Threw
      case Match(b) => if Visible(doc[b]) then Found(b) else Climb(doc, eng, ParentOf(doc, at.value), level + 1)
      case NoMatch => Climb(doc, eng, ParentOf(doc, at.value), level + 1)
  }

  /** What the search around the input box finds: nothing when there is no input box. */
  function ClimbFromInput(doc: seq<Element>, eng: Engine, config: Option<SiteConfig>): Lookup {
    match ResolveInput(doc, eng, config)
    case None => NotFound
    case Some(i) => Climb(doc, eng, ParentOf(doc, i), 0)
  }

  /**
   * `findSendButton`: the configured selector (visible is enough), then the
   * generic list (visible and enabled), then the climb around the input box.
   */
  function ResolveButton(doc: seq<Element>, eng: Engine, config: Option<SiteConfig>): (r: Lookup)
    ensures r.Found? ==> r.index < |doc| && Visible(doc[r.index])
    ensures ConfiguredHit(doc, eng, SendSelector(config)).Some? ==> r == Found(ConfiguredHit(doc, eng, SendSelector(config)).value)
    ensures ConfiguredHit(doc, eng, SendSelector(config)).None? && FirstHit(doc, eng, GenericButtonSelectors, VisibleEnabled).Some?
      ==> r == Found(FirstHit(doc, eng, GenericButtonSelectors, VisibleEnabled).value)
    ensures ConfiguredHit(doc, eng, SendSelector(config)).None? && FirstHit(doc, eng, GenericButtonSelectors, VisibleEnabled).None?
      ==> r == ClimbFromInput(doc, eng, config)
  {
    match ConfiguredHit(doc, eng, SendSelector(config))
    case Some(b) => Found(b)
    case None =>
      match FirstHit(doc, eng, GenericButtonSelectors, VisibleEnabled)
      case Some(b) => Found(b)
      case None => ClimbFromInput(doc, eng, config)
  }

  /** A disabled button is returned only by the configured selector or by the climb, never by the generic list. */
  lemma DisabledButtonOrigin(doc: seq<Element>, eng: Engine, config: Option<SiteConfig>)
    requires ResolveButton(doc, eng, config).Found? && doc[ResolveButton(doc, eng, config).index].disabled
    ensures ConfiguredHit(doc, eng, SendSelector(config)).Some?
      || (FirstHit(doc, eng, GenericButtonSelectors, VisibleEnabled).None? && ClimbFromInput(doc, eng, config).Found?)
  {
  }

  // ---------------------------------------------------------------------
  // Imperative searches.

  method FindInputElement(page: Page, config: Option<SiteConfig>) returns (r: Option<nat>)
    ensures r == ResolveInput(page.elems, page.engine, config)
  {
    var sel := InputSelector(config);
    if Given(sel) {
      var q := Query(page.elems, page.engine, sel.value);
      if q.Match? && Visible(page.elems[q.index]) {
        return Some(q.index);
      }
    }
    r := FirstHitLoop(page, GenericInputSelectors, Visible);
    if r.Some? {
      return;
    }
    r := UsableTextareaLoop(page);
  }

  method FindSendButton(page: Page, config: Option<SiteConfig>) returns (r: Lookup)
    ensures r == ResolveButton(page.elems, page.engine, config)
  {
    var sel := SendSelector(config);
    if Given(sel) {
      var q := Query(page.elems, page.engine, sel.value);
      if q.Match? && Visible(page.elems[q.index]) {
        return Found(q.index);
      }
    }
    var g := FirstHitLoop(page, GenericButtonSelectors, VisibleEnabled);
    if g.Some? {
      return Found(g.value);
    }
    var input := FindInputElement(page, config);
    if input.None? {
      return NotFound;
    }
    r := ClimbLoop(page, ParentOf(page.elems, input.value));
  }

  /** The `while (parent && level < 5)` loop. */
  method ClimbLoop(page: Page, start: Option<nat>) returns (r: Lookup)
    ensures r == Climb(page.elems, page.engine, start, 0)
  {
    var doc, eng := page.elems, page.engine;
    var parent := start;
    var level := 0;
    while parent.Some? && level < ClimbLevels
      invariant level <= ClimbLevels
      invariant Climb(doc, eng, start, 0) == Climb(doc, eng, parent, level)
      decreases ClimbLevels - level
    {
      var done, found, next := ClimbOnce(doc, eng, parent.value, level);
      if done {
        return found;
      }
      parent := next;
      level := level + 1;
    }
    return NotFound;
  }

  /** One turn of the climb: the search inside `at` either settles the result or moves up to the parent. */
  method ClimbOnce(doc: seq<Element>, eng: Engine, at: nat, level: nat) returns (done: bool, r: Lookup, next: Option<nat>)
    requires level < ClimbLevels
    ensures done ==> r == Climb(doc, eng, Some(at), level)
    ensures !done ==> next == ParentOf(doc, at) && Climb(doc, eng, Some(at), level) == Climb(doc, eng, next, level + 1)
  {
    var q := QueryWithin(doc, eng, NearbySubmitSelector, at);
    if q == SyntaxError {
      return true, Threw, None;
    }
    if q.Match? && Visible(doc[q.index]) {
      return true, Found(q.index), None;
    }
    return false, NotFound, ParentOf(doc, at);
  }

  // ---------------------------------------------------------------------
  // Filling the input box.

  /** The element after `fillInput` has written `text` into it. */
  function Filled(e: Element, text: string): (r: Element)
    ensures IsTextControl(e) ==> r == e.(value := text)
    ensures !IsTextControl(e) && EditableOrMarked(e) ==> r == e.(content := r.content) && TextContent(r) == text
    ensures !IsTextControl(e) && !EditableOrMarked(e) ==> r == e
  {
    if IsTextControl(e) then e.(value := text)
    else if EditableOrMarked(e) then
      // The text node is appended; when it is empty, `innerHTML = text` writes the same empty content.
      e.(content := if text == "" then Markup(text) else Text(text))
    else e
  }

  /** The events `fillInput` dispatches on element `i`, in order. */
  function FillEvents(e: Element, i: nat, text: string): (r: seq<Event>)
    ensures |r| >= 2 && r[..2] == [FocusOf(i), ClickOf(i)]
    ensures IsTextControl(e) ==> r[2..] == [Event(i, "input", Plain), Event(i, "change", Plain),
                                           Event(i, "input", TextInput(text)), Event(i, "keyup", Plain)]
    ensures !IsTextControl(e) && !EditableOrMarked(e) ==> |r| == 2
  {
    [FocusOf(i), ClickOf(i)] + FillTail(e, i, text)
  }

  /** The events after focus and click: four for a native control; focus, five and `text-change` on Quill for an editable element. */
  function FillTail(e: Element, i: nat, text: string): seq<Event> {
    if IsTextControl(e) then
      [Event(i, "input", Plain), Event(i, "change", Plain), Event(i, "input", TextInput(text)), Event(i, "keyup", Plain)]
    else if EditableOrMarked(e) then
      [FocusOf(i)] + EditableInputEvents(i, text) + (if HasClass(e, "ql-editor") then [Event(i, "text-change", Plain)] else [])
    else []
  }

  function EditableInputEvents(i: nat, text: string): seq<Event> {
    [Event(i, "input", Plain), Event(i, "change", Plain), Event(i, "input", TextInput(text)),
     Event(i, "keyup", Plain), Event(i, "keydown", Plain)]
  }

  /** What the filled element reads back: `value` for a native control, its text otherwise. */
  function ReadBack(e: Element): string {
    if IsTextControl(e) then e.value else TextContent(e)
  }

  /** Filling writes exactly the text into a native control or an editable element, whatever it held before. */
  lemma FillReadsBack(e: Element, text: string)
    requires IsTextControl(e) || EditableOrMarked(e)
    ensures ReadBack(Filled(e, text)) == text
  {
  }

  /** Filling twice with the same text is the same as filling once. */
  lemma FillIdempotent(e: Element, text: string)
    ensures Filled(Filled(e, text), text) == Filled(e, text)
  {
  }

  /** Filling changes nothing but the written field: tag, kind and flags are kept. */
  lemma FillKeepsKind(e: Element, text: string)
    ensures var f := Filled(e, text);
      f.tag == e.tag && f.editable == e.editable && f.attrs == e.attrs && f.classes == e.classes
      && f.parent == e.parent && Visible(f) == Visible(e) && f.disabled == e.disabled
  {
    if IsTextControl(e) {
    } else if EditableOrMarked(e) {
    }
  }

  method FillInput(page: Page, i: nat, text: string)
    requires i < |page.elems|
    modifies page
    ensures page.elems == old(page.elems)[i := Filled(old(page.elems)[i], text)]
    ensures page.log == old(page.log) + FillEvents(old(page.elems)[i], i, text)
  {
    var e := page.elems[i];
    ghost var log0 := page.log;
    page.Dispatch(FocusOf(i));
    page.Dispatch(ClickOf(i));
    assert page.log == log0 + [FocusOf(i), ClickOf(i)];
    ShiftFront(log0, [FocusOf(i), ClickOf(i)], FillTail(e, i, text));
    if e.tag == "TEXTAREA" || e.tag == "INPUT" {
      FillNative(page, i, text);
    } else if e.editable || AttrIs(e, "contenteditable", "true") {
      FillEditable(page, i, text);
    } else {
      assert FillTail(e, i, text) == [];
    }
  }

  /** The native-control branch of `fillInput`: `value` is written, then four events. */
  method FillNative(page: Page, i: nat, text: string)
    requires i < |page.elems| && IsTextControl(page.elems[i])
    modifies page
    ensures page.elems == old(page.elems)[i := Filled(old(page.elems)[i], text)]
    ensures page.log == old(page.log) + FillTail(old(page.elems)[i], i, text)
  {
    var e := page.elems[i];
    page.Set(i, e.(value := text));
    page.Dispatch(Event(i, "input", Plain));
    page.Dispatch(Event(i, "change", Plain));
    page.Dispatch(Event(i, "input", TextInput(text)));
    page.Dispatch(Event(i, "keyup", Plain));
  }

  /** The editable branch of `fillInput`: the text node is written, then focus and the input events. */
  method FillEditable(page: Page, i: nat, text: string)
    requires i < |page.elems| && !IsTextControl(page.elems[i]) && EditableOrMarked(page.elems[i])
    modifies page
    ensures page.elems == old(page.elems)[i := Filled(old(page.elems)[i], text)]
    ensures page.log == old(page.log) + FillTail(old(page.elems)[i], i, text)
  {
    var e := page.elems[i];
    page.Set(i, e.(content := Text(text)));
    if text == "" {
      page.Set(i, e.(content := Markup(text)));
    }
    ghost var log0 := page.log;
    page.Dispatch(FocusOf(i));
    ShiftFront(log0, [FocusOf(i)], EditableInputEvents(i, text));
    page.DispatchAll(EditableInputEvents(i, text));
    if HasClass(e, "ql-editor") {
      ShiftFront(log0, [FocusOf(i)] + EditableInputEvents(i, text), [Event(i, "text-change", Plain)]);
      page.Dispatch(Event(i, "text-change", Plain));
    }
  }

  // ---------------------------------------------------------------------
  // Sending.

  /** `triggerEnterKey`: focus, then Enter keydown, keypress, keyup with keyCode 13. */
  function EnterEvents(i: nat): seq<Event> {
    [FocusOf(i), EnterKey(i, "keydown"), EnterKey(i, "keypress"), EnterKey(i, "keyup")]
  }

  method TriggerEnterKey(page: Page, i: nat)
    modifies page
    ensures page.elems == old(page.elems) && page.log == old(page.log) + EnterEvents(i)
  {
    page.Dispatch(FocusOf(i));
    page.Dispatch(EnterKey(i, "keydown"));
    page.Dispatch(EnterKey(i, "keypress"));
    page.Dispatch(EnterKey(i, "keyup"));
  }

  /** The full click sequence on an enabled send button. */
  function ClickEvents(b: nat): (r: seq<Event>)
    ensures |r| == 12 && r[0] == FocusOf(b) && r[11] == ClickOf(b)
    ensures forall k :: 1 <= k <= 5 ==> r[k].target == b && r[k].kind == Mouse
    ensures forall k :: 6 <= k <= 10 ==> r[k].target == b && r[k].kind == Pointer
  {
    [FocusOf(b)]
    + [Event(b, "mouseover", Mouse), Event(b, "mouseenter", Mouse), Event(b, "mousedown", Mouse),
       Event(b, "mouseup", Mouse), Event(b, "click", Mouse)]
    + [Event(b, "pointerover", Pointer), Event(b, "pointerenter", Pointer), Event(b, "pointerdown", Pointer),
       Event(b, "pointerup", Pointer), Event(b, "click", Pointer)]
    + [ClickOf(b)]
  }

  /** How the send step ends. */
  datatype SendOutcome = Clicked(button: nat) | ButtonDisabled | FellBack | PressedEnter | SearchThrew

  /**
   * The send step of `fillAndSendMessage` (after the 500 ms wait), given
   * the send-button search's answer: which branch it takes.
   */
  function SendBranch(button: Lookup, disabled: bool, fallbackLoaded: bool): (r: SendOutcome)
    ensures r.Clicked? <==> button.Found? && !disabled
    ensures r == ButtonDisabled <==> button.Found? && disabled
    ensures r == FellBack <==> button == NotFound && fallbackLoaded
    ensures r == PressedEnter <==> button == NotFound && !fallbackLoaded
    ensures r == SearchThrew <==> button == Threw
  {
    match button
    case Found(b) => if disabled then ButtonDisabled else Clicked(b)
    case NotFound => if fallbackLoaded then FellBack else PressedEnter
    case Threw => SearchThrew
  }

  /** The events of the send step for every branch but the fallback chain. */
  function SendEvents(outcome: SendOutcome, input: nat): seq<Event> {
    match outcome
    case Clicked(b) => ClickEvents(b)
    case PressedEnter => EnterEvents(input)
    case _ => []
  }

  /** Neither a disabled button nor a throwing search produces any event: no click and no Enter. */
  lemma DisabledSendsNothing(button: Lookup, disabled: bool, fallbackLoaded: bool, input: nat)
    requires (button.Found? && disabled) || button == Threw
    ensures SendEvents(SendBranch(button, disabled, fallbackLoaded), input) == []
  {
  }

  /** The send step dispatches events exactly when it sends, and it ends with the native click or the Enter keyup. */
  lemma SendEventsActivate(outcome: SendOutcome, input: nat)
    ensures SendEvents(outcome, input) != [] <==> outcome.Clicked? || outcome == PressedEnter
    ensures outcome.Clicked? ==> SendEvents(outcome, input)[|SendEvents(outcome, input)| - 1] == ClickOf(outcome.button)
    ensures outcome == PressedEnter ==> SendEvents(outcome, input)[|SendEvents(outcome, input)| - 1] == EnterKey(input, "keyup")
  {
  }

  /**
   * `fillAndSendMessage(text)`: find the input box (nothing happens without
   * one), fill it, then search for the send button on the filled page and
   * click it, run the fallback chain, or press Enter.  `later` is what the
   * send-button search finds when the chain's delayed retry fires: the
   * site's own scripts may have changed the page by then.
   */
  method FillAndSendMessage(page: Page, config: Option<SiteConfig>, text: string,
                            fallbackLoaded: bool, table: array<FallbackStrategy>, later: Lookup)
      returns (input: Option<nat>, outcome: Option<SendOutcome>)
    requires later.Found? ==> later.index < |page.elems|
    modifies page, table
    ensures input == ResolveInput(old(page.elems), page.engine, config)
    ensures input.None? ==> page.elems == old(page.elems) && page.log == old(page.log) && outcome.None?
    ensures input.Some? ==>
      var filled := old(page.elems)[input.value := Filled(old(page.elems)[input.value], text)];
      var button := ResolveButton(filled, page.engine, config);
      page.elems == filled
      && outcome == Some(SendBranch(button, button.Found? && filled[button.index].disabled, fallbackLoaded))
      && (outcome != Some(FellBack) ==>
            page.log == old(page.log) + FillEvents(old(page.elems)[input.value], input.value, text) + SendEvents(outcome.value, input.value))
      && (outcome == Some(FellBack) ==>
            page.log == old(page.log) + FillEvents(old(page.elems)[input.value], input.value, text)
                        + Chain(table[..], EffectsOn(input.value, PageFindings(filled, input.value, later))).events)
  {
    input := FindInputElement(page, config);
    if input.None? {
      return input, None;
    }
    var i := input.value;
    FillInput(page, i, text);
    var branch := SendAfterFill(page, config, i, fallbackLoaded, table, later);
    outcome := Some(branch);
  }

  /** The second half of `fillAndSendMessage`: find the button and take the branch it decides. */
  method SendAfterFill(page: Page, config: Option<SiteConfig>, i: nat, fallbackLoaded: bool,
                       table: array<FallbackStrategy>, later: Lookup)
      returns (branch: SendOutcome)
    requires i < |page.elems|
    requires later.Found? ==> later.index < |page.elems|
    modifies page, table
    ensures var button := ResolveButton(old(page.elems), page.engine, config);
      branch == SendBranch(button, button.Found? && old(page.elems)[button.index].disabled, fallbackLoaded)
    ensures page.elems == old(page.elems)
    ensures branch != FellBack ==> page.log == old(page.log) + SendEvents(branch, i)
    ensures branch == FellBack ==>
      page.log == old(page.log) + Chain(table[..], EffectsOn(i, PageFindings(old(page.elems), i, later))).events
  {
    var button := FindSendButton(page, config);
    var disabled := button.Found? && page.elems[button.index].disabled;
    branch := SendBranch(button, disabled, fallbackLoaded);
    match branch {
      case Clicked(b) =>
        page.DispatchAll(ClickEvents(b));
      case PressedEnter =>
        TriggerEnterKey(page, i);
      case FellBack =>
        var _ := ExecuteFallbackStrategies(page, table, i, later);
      case ButtonDisabled =>
      case SearchThrew =>
    }
  }

  /**
   * The window `message` listener: only a fill-and-send request from the
   * aggregator page does anything, and it runs `fillAndSendMessage` on the
   * message's text.
   */
  method OnMessage(page: Page, data: Option<MessageData>, config: Option<SiteConfig>,
                   fallbackLoaded: bool, table: array<FallbackStrategy>, later: Lookup)
      returns (handled: bool, input: Option<nat>, outcome: Option<SendOutcome>)
    requires later.Found? ==> later.index < |page.elems|
    modifies page, table
    ensures handled == IsFillRequest(data)
    ensures !handled ==> page.elems == old(page.elems) && page.log == old(page.log) && table[..] == old(table[..])
    ensures !handled ==> input.None? && outcome.None?
    ensures handled ==> input == ResolveInput(old(page.elems), page.engine, config)
    ensures handled && input.None? ==> page.elems == old(page.elems) && page.log == old(page.log) && outcome.None?
    ensures handled && input.Some? ==>
      var text := data.value.text;
      var filled := old(page.elems)[input.value := Filled(old(page.elems)[input.value], text)];
      var button := ResolveButton(filled, page.engine, config);
      page.elems == filled
      && outcome == Some(SendBranch(button, button.Found? && filled[button.index].disabled, fallbackLoaded))
      && (outcome != Some(FellBack) ==>
            page.log == old(page.log) + FillEvents(old(page.elems)[input.value], input.value, text) + SendEvents(outcome.value, input.value))
      && (outcome == Some(FellBack) ==>
            page.log == old(page.log) + FillEvents(old(page.elems)[input.value], input.value, text)
                        + Chain(table[..], EffectsOn(input.value, PageFindings(filled, input.value, later))).events)
  {
    handled := data.Some? && data.value.source == Some("ai-aggregator") && data.value.action == Some("fillAndSend");
    input, outcome := None, None;
    if handled {
      input, outcome := FillAndSendMessage(page, config, data.value.text, fallbackLoaded, table, later);
    }
  }
}
