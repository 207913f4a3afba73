// The content script the background page talks to directly
// (content-scripts/injector.js): it recognises three chat sites by
// hostname, registers its tab, and on a `fillAndSend` message looks up the
// site's entry in the synced site list, fills the input box and clicks the
// send button or presses Enter.

module Injector {
  import opened Common
  import opened Dom
  import opened Sites
  import opened Selectors
  import Escaping = InteractionStrategies

  predicate IsChatGptHost(hostname: string) {
    Contains(hostname, "openai.com") || Contains(hostname, "chatgpt.com")
  }

  /** The site a hostname belongs to, tested in this order. */
  function DetectSite(hostname: string): (r: Option<string>)
    ensures r == Some("chatgpt") <==> IsChatGptHost(hostname)
    ensures r == Some("gemini") <==> !IsChatGptHost(hostname) && Contains(hostname, "gemini.google.com")
    ensures r == Some("claude") <==> !IsChatGptHost(hostname) && !Contains(hostname, "gemini.google.com")
                                     && Contains(hostname, "claude.ai")
    ensures r.None? <==> !IsChatGptHost(hostname) && !Contains(hostname, "gemini.google.com") && !Contains(hostname, "claude.ai")
  {
    if IsChatGptHost(hostname) then Some("chatgpt")
    else if Contains(hostname, "gemini.google.com") then Some("gemini")
    else if Contains(hostname, "claude.ai") then Some("claude")
    else None
  }

  /** A message from a content script to the background page. */
  datatype RegisterMessage = RegisterAITab(siteId: string)

  /** The registration sent at load: only on a recognised site, and naming it. */
  function Registration(site: Option<string>): (r: Option<RegisterMessage>)
    ensures r.Some? <==> site.Some?
    ensures r.Some? ==> r.value.siteId == site.value
  {
    if site.Some? then Some(RegisterAITab(site.value)) else None
  }

  lemma RegistrationOnlyForKnownSites(hostname: string)
    ensures Registration(DetectSite(hostname)).Some? ==>
      Contains(hostname, "openai.com") || Contains(hostname, "chatgpt.com")
      || Contains(hostname, "gemini.google.com") || Contains(hostname, "claude.ai")
  {
  }

  datatype Response = Response(success: bool, message: string)

  const Processing := "正在处理..."

  /**
   * The answer to a runtime message.  Only `fillAndSend` is answered, and
   * at once: the fill and the send happen later, in the storage callback,
   * so the answer reports success unless starting that read threw
   * (`syncError` is the thrown error's message).
   */
  function Acknowledge(action: string, syncError: Option<string>): (r: Option<Response>)
    ensures r.Some? <==> action == "fillAndSend"
    ensures r.Some? ==> (r.value.success <==> syncError.None?)
    ensures r.Some? && syncError.None? ==> r.value.message == Processing
    ensures r.Some? && syncError.Some? ==> r.value.message == syncError.value
  {
    if action != "fillAndSend" then None
    else if syncError.None? then Some(Response(true, Processing))
    else Some(Response(false, syncError.value))
  }

  /** `sites.find(s => s.id === currentSite)`: the first entry with that id. */
  function FindSite(sites: seq<Site>, id: Option<string>): (r: Option<Site>)
    ensures r.Some? ==> id.Some? && r.value in sites && r.value.id == id.value
    ensures r.Some? ==> exists k :: 0 <= k < |sites| && sites[k] == r.value && forall j :: 0 <= j < k ==> sites[j].id != id.value
    ensures r.None? ==> id.None? || forall s :: s in sites ==> s.id != id.value
  {
    if id.None? || |sites| == 0 then None
    else if sites[0].id == id.value then Some(sites[0])
    else FindSite(sites[1..], id)
  }

  /** A selector property as `querySelector` receives it: a missing one becomes the string "undefined". */
  function SelectorText(o: Option<string>): string {
    if o.Some? then o.value else "undefined"
  }

  const InputSelectors: seq<string> := [
    "#prompt-textarea", "textarea[data-id=\"root\"]",
    ".ql-editor", "div.ql-editor[contenteditable=\"true\"]",
    "div[contenteditable=\"true\"][role=\"textbox\"]", "div.ProseMirror",
    "textarea[placeholder*=\"Message\"]", "textarea[placeholder*=\"message\"]", "textarea[placeholder*=\"问\"]",
    "div[contenteditable=\"true\"]",
    "textarea:not([style*=\"display: none\"])", "input[type=\"text\"]:not([style*=\"display: none\"])"
  ]

  const ButtonSelectors: seq<string> := [
    "button[data-testid=\"send-button\"]", "button[aria-label*=\"Send\"]", "button[aria-label*=\"发送\"]",
    "button[type=\"submit\"]", "button:has(svg)"
  ]

  /**
   * `findInputElement(selector)`: the selector itself (outside any `try`),
   * then the list headed by the same selector, then the textarea scan.
   */
  function ResolveInput(doc: seq<Element>, eng: Engine, selector: string): (r: Lookup)
    ensures r == Threw <==> !eng.valid(selector)
    ensures r.Found? ==> r.index < |doc| && Visible(doc[r.index])
    ensures Direct(doc, eng, selector).Found? ==> r == Direct(doc, eng, selector)
  {
    match Direct(doc, eng, selector)
    case Threw => Threw
    case Found(i) => Found(i)
    case NotFound =>
      match FirstHit(doc, eng, [selector] + InputSelectors, Visible)
      case Some(i) => Found(i)
      case None =>
        match UsableTextarea(doc, 0)
        case Some(i) => Found(i)
        case None => NotFound
  }

  /**
   * The repeated configured selector at the head of the list never finds
   * anything the direct query missed: after a miss the cascade is the
   * fixed list followed by the textarea scan.
   */
  lemma InputListHeadIsDead(doc: seq<Element>, eng: Engine, selector: string)
    requires Direct(doc, eng, selector) == NotFound
    ensures FirstHit(doc, eng, [selector] + InputSelectors, Visible) == FirstHit(doc, eng, InputSelectors, Visible)
  {
    SkipMiss(doc, eng, [], selector, InputSelectors, Visible);
    assert [] + [selector] + InputSelectors == [selector] + InputSelectors;
    assert [] + InputSelectors == InputSelectors;
  }

  /**
   * `findSendButton(selector)`: the selector itself (visible is enough, even
   * when disabled), then the list headed by the same selector (visible and
   * enabled).
   */
  function ResolveButton(doc: seq<Element>, eng: Engine, selector: string): (r: Lookup)
    ensures r == Threw <==> !eng.valid(selector)
    ensures r.Found? ==> r.index < |doc| && Visible(doc[r.index])
    ensures Direct(doc, eng, selector).Found? ==> r == Direct(doc, eng, selector)
    ensures Direct(doc, eng, selector) == NotFound ==>
      (r.Found? ==> !doc[r.index].disabled)
      && (r == NotFound <==> FirstHit(doc, eng, ButtonSelectors, VisibleEnabled).None?)
  {
    match Direct(doc, eng, selector)
    case Threw => Threw
    case Found(b) => Found(b)
    case NotFound =>
      SkipMiss(doc, eng, [], selector, ButtonSelectors, VisibleEnabled);
      assert [] + [selector] + ButtonSelectors == [selector] + ButtonSelectors;
      assert [] + ButtonSelectors == ButtonSelectors;
      match FirstHit(doc, eng, [selector] + ButtonSelectors, VisibleEnabled)
      case Some(b) => Found(b)
      case None => NotFound
  }

  method FindInputElement(page: Page, selector: string) returns (r: Lookup)
    ensures r == ResolveInput(page.elems, page.engine, selector)
  {
    r := Direct(page.elems, page.engine, selector);
    if r != NotFound {
      return;
    }
    var hit := FirstHitLoop(page, [selector] + InputSelectors, Visible);
    if hit.Some? {
      return Found(hit.value);
    }
    var t := UsableTextareaLoop(page);
    r := if t.Some? then Found(t.value) else NotFound;
  }

  method FindSendButton(page: Page, selector: string) returns (r: Lookup)
    ensures r == ResolveButton(page.elems, page.engine, selector)
  {
    r := Direct(page.elems, page.engine, selector);
    if r != NotFound {
      return;
    }
    var hit := FirstHitLoop(page, [selector] + ButtonSelectors, VisibleEnabled);
    r := if hit.Some? then Found(hit.value) else NotFound;
  }

  // ---------------------------------------------------------------------
  // Filling.

  /** `text.replace(/\n/g, '<br>')` */
  function BrLines(text: string): (r: string)
    ensures forall k :: 0 <= k < |r| ==> r[k] != '\n'
    ensures |r| >= |text|
  {
    if |text| == 0 then ""
    else (if text[0] == '\n' then "<br>" else [text[0]]) + BrLines(text[1..])
  }

  /** Replacing line breaks works piece by piece. */
  lemma {:induction false} BrLinesAppend(a: string, b: string)
    ensures BrLines(a + b) == BrLines(a) + BrLines(b)
  {
    if |a| == 0 {
      assert a + b == b;
    } else {
      assert (a + b)[0] == a[0] && (a + b)[1..] == a[1..] + b;
      BrLinesAppend(a[1..], b);
    }
  }

  /** A text without line breaks is written unchanged. */
  lemma {:induction false} BrLinesKeepsSingleLine(text: string)
    requires forall k :: 0 <= k < |text| ==> text[k] != '\n'
    ensures BrLines(text) == text
  {
    if |text| > 0 {
      BrLinesKeepsSingleLine(text[1..]);
    }
  }

  /** Every line break becomes exactly one `<br>`. */
  lemma BrLinesOfBreak(a: string, b: string)
    ensures BrLines(a + "\n" + b) == BrLines(a) + "<br>" + BrLines(b)
  {
    BrLinesAppend(a + "\n", b);
    BrLinesAppend(a, "\n");
  }

  /**
   * The text a browser shows for markup made of plain text, `<br>` tags and
   * the references `&lt;`, `&gt;` and `&amp;`: each `<br>` shows as a line
   * break and each reference as its character.
   */
  function Shown(markup: string): string
    decreases |markup|
  {
    if |markup| == 0 then ""
    else if StartsWith(markup, "<br>") then "\n" + Shown(markup[4..])
    else if StartsWith(markup, "&lt;") then "<" + Shown(markup[4..])
    else if StartsWith(markup, "&gt;") then ">" + Shown(markup[4..])
    else if StartsWith(markup, "&amp;") then "&" + Shown(markup[5..])
    else [markup[0]] + Shown(markup[1..])
  }

  /**
   * As written, the markup is the text itself apart from its line breaks, so
   * a typed text that spells a reference is not shown as typed: "&lt;" is
   * written unchanged and shown as "<".
   */
  lemma BrLinesLosesEntities()
    ensures BrLines("&lt;") == "&lt;"
    ensures Shown(BrLines("&lt;")) == "<" != "&lt;"
  {
    BrLinesKeepsSingleLine("&lt;");
    assert !StartsWith("&lt;", "<br>");
    assert StartsWith("&lt;", "&lt;") && "&lt;"[4..] == "";
  }

  /** One character of the corrected markup: a line break becomes `<br>`, `&`, `<` and `>` are escaped. */
  function MarkupChar(c: char): string {
    if c == '\n' then "<br>" else Escaping.EscapeChar(c)
  }

  /** The markup the editable branch evidently intends: the text escaped, with `<br>` for line breaks. */
  function BrMarkup(text: string): (r: string)
    ensures forall k :: 0 <= k < |r| ==> r[k] != '\n'
    ensures |r| >= |text|
  {
    if |text| == 0 then "" else MarkupChar(text[0]) + BrMarkup(text[1..])
  }

  lemma ShownMarkupChar(c: char, rest: string)
    ensures Shown(MarkupChar(c) + rest) == [c] + Shown(rest)
  {
    var s := MarkupChar(c) + rest;
    if c == '\n' {
      assert StartsWith(s, "<br>") && s[4..] == rest;
    } else if c == '&' {
      assert !StartsWith(s, "<br>") && !StartsWith(s, "&lt;") && !StartsWith(s, "&gt;") by { assert s[1] == 'a'; }
      assert StartsWith(s, "&amp;") && s[5..] == rest;
    } else if c == '<' {
      assert !StartsWith(s, "<br>") by { assert s[0] == '&'; }
      assert StartsWith(s, "&lt;") && s[4..] == rest;
    } else if c == '>' {
      assert !StartsWith(s, "<br>") && !StartsWith(s, "&lt;") by { assert s[0] == '&' && s[1] == 'g'; }
      assert StartsWith(s, "&gt;") && s[4..] == rest;
    } else {
      assert s[0] == c && s[1..] == rest;
    }
  }

  /** Whatever the text, the corrected markup shows exactly that text, line breaks included. */
  lemma {:induction false} BrMarkupRoundTrip(text: string)
    ensures Shown(BrMarkup(text)) == text
  {
    if |text| > 0 {
      ShownMarkupChar(text[0], BrMarkup(text[1..]));
      BrMarkupRoundTrip(text[1..]);
      assert text == [text[0]] + text[1..];
    }
  }

  /** The element after this script's `fillInput`. */
  function Filled(e: Element, text: string): (r: Element)
    ensures IsTextControl(e) ==> r == e.(value := text)
    ensures !IsTextControl(e) && EditableOrMarked(e) ==> r == e.(content := Markup(BrLines(text)))
    ensures !IsTextControl(e) && !EditableOrMarked(e) ==> r == e
  {
    if IsTextControl(e) then e.(value := text)
    else if EditableOrMarked(e) then e.(content := Markup(BrLines(text)))
    else e
  }

  /** The events of `fillInput`: `input` and `change` when something was written, then focus. */
  function FillEvents(e: Element, i: nat): (r: seq<Event>)
    ensures |r| > 0 && r[|r| - 1] == FocusOf(i)
    ensures IsTextControl(e) || EditableOrMarked(e) ==> r == [Event(i, "input", Plain), Event(i, "change", Plain), FocusOf(i)]
    ensures !IsTextControl(e) && !EditableOrMarked(e) ==> r == [FocusOf(i)]
  {
    if IsTextControl(e) || EditableOrMarked(e) then [Event(i, "input", Plain), Event(i, "change", Plain), FocusOf(i)]
    else [FocusOf(i)]
  }

  /** A native control reads back exactly the text; an editable element's markup is the text with line breaks as `<br>`. */
  lemma FillWritesText(e: Element, text: string)
    ensures IsTextControl(e) ==> Filled(e, text).value == text
    ensures !IsTextControl(e) && EditableOrMarked(e) ==> TextContent(Filled(e, text)) == BrLines(text)
    ensures Filled(Filled(e, text), text) == Filled(e, text)
  {
  }

  method FillInput(page: Page, i: nat, text: string)
    requires i < |page.elems|
    modifies page
    ensures page.elems == old(page.elems)[i := Filled(old(page.elems)[i], text)]
    ensures page.log == old(page.log) + FillEvents(old(page.elems)[i], i)
  {
    var e := page.elems[i];
    if e.tag == "TEXTAREA" || e.tag == "INPUT" {
      page.Set(i, e.(value := text));
      page.Dispatch(Event(i, "input", Plain));
      page.Dispatch(Event(i, "change", Plain));
    } else if e.editable || AttrIs(e, "contenteditable", "true") {
      page.Set(i, e.(content := Text(text)));
      page.Set(i, e.(content := Markup(BrLines(text))));
      page.Dispatch(Event(i, "input", Plain));
      page.Dispatch(Event(i, "change", Plain));
    }
    page.Dispatch(FocusOf(i));
  }

  // ---------------------------------------------------------------------
  // The storage callback.

  datatype Outcome =
    | NoSiteEntry        // the synced list has no entry for this site
    | SearchThrew        // a configured selector was not a valid selector
    | NoInput            // no input box: nothing is filled
    | ClickedSend(button: nat)
    | PressedEnter       // no usable button: one Enter keydown on the input box

  /** The send step: a native click on an enabled button, otherwise one Enter keydown on the input box. */
  function SendEvents(button: Lookup, disabled: bool, input: nat): (r: seq<Event>)
    ensures button.Found? && !disabled ==> r == [ClickOf(button.index)]
    ensures button == NotFound || (button.Found? && disabled) ==> r == [EnterKey(input, "keydown")]
    ensures button == Threw ==> r == []
  {
    match button
    case Found(b) => if disabled then [EnterKey(input, "keydown")] else [ClickOf(b)]
    case NotFound => [EnterKey(input, "keydown")]
    case Threw => []
  }

  function SendOutcome(button: Lookup, disabled: bool): (r: Outcome)
    ensures r.ClickedSend? <==> button.Found? && !disabled
    ensures r == SearchThrew <==> button == Threw
  {
    match button
    case Found(b) => if disabled then PressedEnter else ClickedSend(b)
    case NotFound => PressedEnter
    case Threw => SearchThrew
  }

  function StoredSites(stored: Option<seq<Site>>): seq<Site> {
    if stored.Some? then stored.value else []
  }

  /**
   * The callback of `chrome.storage.sync.get(['aiSites'])` (`stored` is the
   * stored list, `None` when absent): find this site's entry, find and fill
   * the input box, then (after the 500 ms wait) click or press Enter.
   * Nothing changes on the page without an entry or an input box.
   */
  method FillAndSendWithSites(page: Page, stored: Option<seq<Site>>, currentSite: Option<string>, text: string)
      returns (outcome: Outcome)
    modifies page
    ensures FindSite(StoredSites(stored), currentSite).None? ==>
      outcome == NoSiteEntry && page.elems == old(page.elems) && page.log == old(page.log)
    ensures FindSite(StoredSites(stored), currentSite).Some? ==>
      var site := FindSite(StoredSites(stored), currentSite).value;
      var input := ResolveInput(old(page.elems), page.engine, SelectorText(site.inputSelector));
      (input == Threw ==> outcome == SearchThrew && page.elems == old(page.elems) && page.log == old(page.log))
      && (input == NotFound ==> outcome == NoInput && page.elems == old(page.elems) && page.log == old(page.log))
      && (input.Found? ==>
            var i := input.index;
            var filled := old(page.elems)[i := Filled(old(page.elems)[i], text)];
            var button := ResolveButton(filled, page.engine, SelectorText(site.sendButtonSelector));
            var disabled := button.Found? && filled[button.index].disabled;
            page.elems == filled
            && page.log == old(page.log) + FillEvents(old(page.elems)[i], i) + SendEvents(button, disabled, i)
            && outcome == SendOutcome(button, disabled))
  {
    var sites := if stored.Some? then stored.value else [];
    var site := FindSite(sites, currentSite);
    if site.None? {
      return NoSiteEntry;
    }
    var input := FindInputElement(page, SelectorText(site.value.inputSelector));
    if input == Threw {
      return SearchThrew;
    }
    if input == NotFound {
      return NoInput;
    }
    var i := input.index;
    FillInput(page, i, text);
    var button := FindSendButton(page, SelectorText(site.value.sendButtonSelector));
    var disabled := button.Found? && page.elems[button.index].disabled;
    page.DispatchAll(SendEvents(button, disabled, i));
    outcome := SendOutcome(button, disabled);
  }

  /** A click happens only on a visible, enabled button; every other found or missing button gives Enter. */
  lemma ClickOnlyWhenEnabled(doc: seq<Element>, eng: Engine, selector: string, input: nat)
    ensures var b := ResolveButton(doc, eng, selector);
      var disabled := b.Found? && doc[b.index].disabled;
      SendOutcome(b, disabled).ClickedSend? ==> Visible(doc[b.index]) && !doc[b.index].disabled
  {
  }
}
