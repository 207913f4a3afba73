// The part of the browser DOM the content scripts touch.
//
// A document is a sequence of element records in document (tree) order;
// each record names its parent by index.  CSS selectors are strings whose
// meaning is left to an abstract selector engine: it says whether a string
// parses as a selector and which elements a selector matches.
// `querySelector` is the first match in document order.  What the scripts
// do to a page is kept in a `Page` object: the element records and the log
// of events dispatched (and native `focus`/`click`/`submit` calls made) on
// them.

module Dom {
  import opened Common

  /** `getBoundingClientRect()` */
  datatype Rect = Rect(left: real, top: real, width: real, height: real) {
    function Right(): real { left + width }
    function Bottom(): real { top + height }
  }

  /** What an element holds as children: a single text node, or parsed markup. */
  datatype Content = Text(text: string) | Markup(html: string)

  datatype Element = Element(
    tag: string,              // `tagName` as the DOM reports it ("TEXTAREA", "svg")
    id: string,               // "" when the element has no id
    classes: seq<string>,     // `classList`, in order
    attrs: map<string, string>, // `getAttribute`
    parent: Option<nat>,      // index of `parentElement`
    offsetWidth: int,
    offsetHeight: int,
    clientRects: nat,         // `getClientRects().length`
    rect: Rect,
    displayNone: bool,        // computed `display` is "none"
    visibilityHidden: bool,   // computed `visibility` is "hidden"
    cursorPointer: bool,      // computed `cursor` is "pointer"
    disabled: bool,
    readOnly: bool,
    editable: bool,           // `isContentEditable`
    svg: bool,                // an SVG element: `className` is not a string
    hasValue: bool,           // `'value' in element`
    typeProp: string,         // the `type` property ("submit" for a button without a type attribute)
    hasClickHandler: bool,    // `onclick` is set
    value: string,
    content: Content)

  /**
   * `textContent` as read back from the model's content. For markup this is
   * the markup string itself: how a browser parses markup is not modelled.
   */
  function TextContent(e: Element): string {
    match e.content
    case Text(t) => t
    case Markup(h) => h
  }

  /** The test every content script calls `isVisible`: it has a box or client rects. */
  predicate Visible(e: Element) {
    e.offsetWidth != 0 || e.offsetHeight != 0 || e.clientRects > 0
  }

  function Attr(e: Element, name: string): Option<string> {
    if name in e.attrs then Some(e.attrs[name]) else None
  }

  /** `getAttribute(name) === v` */
  predicate AttrIs(e: Element, name: string, v: string) {
    name in e.attrs && e.attrs[name] == v
  }

  /** `getAttribute(name)` is a non-empty string (truthy). */
  predicate AttrGiven(e: Element, name: string) {
    name in e.attrs && e.attrs[name] != ""
  }

  predicate HasClass(e: Element, c: string) {
    c in e.classes
  }

  predicate IsTextControl(e: Element) {
    e.tag == "TEXTAREA" || e.tag == "INPUT"
  }

  /** `isContentEditable || getAttribute('contenteditable') === 'true'` */
  predicate EditableOrMarked(e: Element) {
    e.editable || AttrIs(e, "contenteditable", "true")
  }

  // ---------------------------------------------------------------------
  // Tree structure.  A parent reference must precede its child in document
  // order; one that does not is treated as absent.

  function ParentOf(doc: seq<Element>, i: nat): (r: Option<nat>)
    ensures r.Some? ==> r.value < i && i < |doc|
  {
    if i < |doc| && doc[i].parent.Some? && doc[i].parent.value < i then doc[i].parent else None
  }

  /** `a` is a proper ancestor of `i`. */
  predicate IsAncestor(doc: seq<Element>, a: nat, i: nat)
    decreases i
  {
    match ParentOf(doc, i)
    case None => false
    case Some(p) => p == a || IsAncestor(doc, a, p)
  }

  lemma {:induction false} AncestorPrecedes(doc: seq<Element>, a: nat, i: nat)
    requires IsAncestor(doc, a, i)
    ensures a < i < |doc|
    decreases i
  {
    var p := ParentOf(doc, i).value;
    if p != a {
      AncestorPrecedes(doc, a, p);
    }
  }

  /** The `k`-th ancestor of `i` (the parent is the first). */
  function AncestorAt(doc: seq<Element>, i: nat, k: nat): Option<nat>
    decreases k
  {
    if k == 0 then Some(i)
    else match AncestorAt(doc, i, k - 1)
      case None => None
      case Some(a) => ParentOf(doc, a)
  }

  /** `closest(...)`: the element itself or its nearest ancestor satisfying `p`. */
  function Closest(doc: seq<Element>, i: nat, p: Element -> bool): (r: Option<nat>)
    requires i < |doc|
    ensures r.Some? ==> r.value <= i && (r.value == i || IsAncestor(doc, r.value, i)) && p(doc[r.value])
    ensures r.Some? && r.value != i ==> !p(doc[i])
    ensures r.Some? ==> forall a: nat :: r.value < a < i && IsAncestor(doc, a, i) ==> !p(doc[a])
    ensures r.None? <==> !p(doc[i]) && forall a: nat :: a < i && IsAncestor(doc, a, i) ==> !p(doc[a])
    decreases i
  {
    if p(doc[i]) then Some(i)
    else match ParentOf(doc, i)
      case None => None
      case Some(q) =>
        assert forall a: nat :: IsAncestor(doc, a, i) <==> a == q || IsAncestor(doc, a, q);
        assert forall a: nat :: IsAncestor(doc, a, q) ==> a < q by {
          forall a: nat | IsAncestor(doc, a, q) ensures a < q { AncestorPrecedes(doc, a, q); }
        }
        Closest(doc, q, p)
  }

  // ---------------------------------------------------------------------
  // Selectors.

  /** The abstract selector engine of one page. */
  datatype Engine = Engine(valid: string -> bool, matches: (string, nat) -> bool)

  datatype QueryResult = SyntaxError | NoMatch | Match(index: nat)

  /** The outcome of a search that may throw part-way (an uncaught selector error). */
  datatype Lookup = Found(index: nat) | NotFound | Threw

  /** The first index in `[from, n)` that `sel` matches and `inside` accepts. */
  function FirstMatchFrom(eng: Engine, sel: string, inside: nat -> bool, from: nat, n: nat): (r: Option<nat>)
    ensures r.Some? ==> from <= r.value < n && eng.matches(sel, r.value) && inside(r.value)
    ensures r.Some? ==> forall j :: from <= j < r.value ==> !(eng.matches(sel, j) && inside(j))
    ensures r.None? ==> forall j :: from <= j < n ==> !(eng.matches(sel, j) && inside(j))
    decreases n - from
  {
    if from >= n then None
    else if eng.matches(sel, from) && inside(from) then Some(from)
    else FirstMatchFrom(eng, sel, inside, from + 1, n)
  }

  /** `document.querySelector(sel)` */
  function Query(doc: seq<Element>, eng: Engine, sel: string): (r: QueryResult)
    ensures r == SyntaxError <==> !eng.valid(sel)
    ensures r.Match? ==> r.index < |doc| && eng.matches(sel, r.index)
    ensures r.Match? ==> forall j :: 0 <= j < r.index ==> !eng.matches(sel, j)
    ensures r == NoMatch ==> forall j :: 0 <= j < |doc| ==> !eng.matches(sel, j)
  {
    if !eng.valid(sel) then SyntaxError
    else match FirstMatchFrom(eng, sel, _ => true, 0, |doc|)
      case None => NoMatch
      case Some(i) => Match(i)
  }

  /** `root.querySelector(sel)`: the first matching descendant of `root`. */
  function QueryWithin(doc: seq<Element>, eng: Engine, sel: string, root: nat): (r: QueryResult)
    ensures r == SyntaxError <==> !eng.valid(sel)
    ensures r.Match? ==> r.index < |doc| && eng.matches(sel, r.index) && IsAncestor(doc, root, r.index)
    ensures r.Match? ==> forall j :: 0 <= j < r.index ==> !(eng.matches(sel, j) && IsAncestor(doc, root, j))
    ensures r == NoMatch ==> forall j :: 0 <= j < |doc| ==> !(eng.matches(sel, j) && IsAncestor(doc, root, j))
  {
    if !eng.valid(sel) then SyntaxError
    else match FirstMatchFrom(eng, sel, (j: nat) => IsAncestor(doc, root, j), 0, |doc|)
      case None => NoMatch
      case Some(i) => Match(i)
  }

  // ---------------------------------------------------------------------
  // Events.

  datatype EventKind =
    | Plain                                   // `new Event(name)`
    | Mouse                                   // `new MouseEvent(name)`
    | Pointer                                 // `new PointerEvent(name)`
    | Touch                                   // `new TouchEvent(name)`
    | Key(key: string, keyCode: int, ctrl: bool) // `new KeyboardEvent(name, {key, code, keyCode, which, ctrlKey})`
    | TextInput(data: string)                 // `new InputEvent('input', {data})`
    | FocusCall                               // `element.focus()`
    | ClickCall                               // `element.click()`
    | SubmitCall                              // `form.submit()`

  datatype Event = Event(target: nat, name: string, kind: EventKind)

  function EnterKey(target: nat, name: string): Event {
    Event(target, name, Key("Enter", 13, false))
  }

  function FocusOf(i: nat): Event { Event(i, "focus", FocusCall) }
  function ClickOf(i: nat): Event { Event(i, "click", ClickCall) }

  /** A page the content scripts act on. */
  class Page {
    var elems: seq<Element>
    var log: seq<Event>
    const engine: Engine

    constructor(elems0: seq<Element>, engine0: Engine)
      ensures elems == elems0 && log == [] && engine == engine0
    {
      elems := elems0;
      log := [];
      engine := engine0;
    }

    /** `target.dispatchEvent(...)` or a native call on `target`: appends to the log. */
    method Dispatch(e: Event)
      modifies this
      ensures elems == old(elems) && log == old(log) + [e]
    {
      log := log + [e];
    }

    method DispatchAll(es: seq<Event>)
      modifies this
      ensures elems == old(elems) && log == old(log) + es
    {
      log := log + es;
    }

    /** Writes a property of element `i`. */
    method Set(i: nat, e: Element)
      requires i < |elems|
      modifies this
      ensures elems == old(elems)[i := e] && log == old(log)
    {
      elems := elems[i := e];
    }
  }
}
