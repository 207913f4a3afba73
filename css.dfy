// The CSS selectors the configuration tools generate, their text, and what
// they match in a document (the subset of Selectors Level 4 the tools use:
// type, id, class, attribute presence/equality/substring, `:not()`,
// `:nth-child()` and the child combinator).

module Css {
  import opened Common
  import opened Dom

  /** A simple selector. */
  datatype Simple =
    | TypeSel(tag: string)                   // `button` (lower-case)
    | IdSel(id: string)                      // `#id`
    | ClassSel(name: string)                 // `.name`
    | AttrPresent(attr: string)              // `[attr]`
    | AttrEq(attr: string, value: string)    // `[attr="value"]`
    | AttrSub(attr: string, value: string)   // `[attr*="value"]`
    | Not(inner: Simple)                     // `:not(inner)`
    | NthChild(position: nat)                // `:nth-child(position)`

  /** A compound selector, or a child combinator between two. */
  datatype Selector = Compound(parts: seq<Simple>) | ChildOf(parent: seq<Simple>, child: seq<Simple>)

  function RenderSimple(s: Simple): string {
    match s
    case TypeSel(t) => t
    case IdSel(id) => "#" + id
    case ClassSel(c) => "." + c
    case AttrPresent(a) => "[" + a + "]"
    case AttrEq(a, v) => "[" + a + "=\"" + v + "\"]"
    case AttrSub(a, v) => "[" + a + "*=\"" + v + "\"]"
    case Not(inner) => ":not(" + RenderSimple(inner) + ")"
    case NthChild(k) => ":nth-child(" + NatToString(k) + ")"
  }

  function RenderParts(parts: seq<Simple>): string {
    if |parts| == 0 then "" else RenderSimple(parts[0]) + RenderParts(parts[1..])
  }

  /** The selector text, written as the tools write it (without escaping). */
  function Render(s: Selector): string {
    match s
    case Compound(ps) => RenderParts(ps)
    case ChildOf(p, c) => RenderParts(p) + " > " + RenderParts(c)
  }

  /** The number of children of `p` that precede index `n` in document order. */
  function ChildrenBefore(doc: seq<Element>, p: nat, n: nat): nat
    requires n <= |doc|
  {
    if n == 0 then 0 else ChildrenBefore(doc, p, n - 1) + (if ParentOf(doc, n - 1) == Some(p) then 1 else 0)
  }

  /** The 1-based position of `j` among its parent's children (1 for an element without a parent). */
  function ChildPosition(doc: seq<Element>, j: nat): nat
    requires j < |doc|
  {
    match ParentOf(doc, j)
    case None => 1
    case Some(p) => 1 + ChildrenBefore(doc, p, j)
  }

  predicate SimpleMatches(doc: seq<Element>, j: nat, s: Simple)
    requires j < |doc|
  {
    var e := doc[j];
    match s
    case TypeSel(t) => Lower(e.tag) == t
    case IdSel(id) => e.id == id
    case ClassSel(c) => c in e.classes
    case AttrPresent(a) => a in e.attrs
    case AttrEq(a, v) => AttrIs(e, a, v)
    case AttrSub(a, v) => v != "" && a in e.attrs && Contains(e.attrs[a], v)
    case Not(inner) => !SimpleMatches(doc, j, inner)
    case NthChild(k) => ChildPosition(doc, j) == k
  }

  predicate AllMatch(doc: seq<Element>, j: nat, parts: seq<Simple>)
    requires j < |doc|
  {
    forall k :: 0 <= k < |parts| ==> SimpleMatches(doc, j, parts[k])
  }

  predicate Matches(doc: seq<Element>, j: nat, s: Selector)
    requires j < |doc|
  {
    match s
    case Compound(ps) => AllMatch(doc, j, ps)
    case ChildOf(p, c) => AllMatch(doc, j, c) && ParentOf(doc, j).Some? && AllMatch(doc, ParentOf(doc, j).value, p)
  }

  /** `document.querySelectorAll(sel).length` over the first `n` elements. */
  function CountMatches(doc: seq<Element>, s: Selector, n: nat): (r: nat)
    requires n <= |doc|
    ensures r <= n
  {
    if n == 0 then 0 else CountMatches(doc, s, n - 1) + (if Matches(doc, n - 1, s) then 1 else 0)
  }

  predicate Unique(doc: seq<Element>, s: Selector) {
    CountMatches(doc, s, |doc|) == 1
  }

  lemma {:induction false} CountZero(doc: seq<Element>, s: Selector, n: nat)
    requires n <= |doc| && CountMatches(doc, s, n) == 0
    ensures forall j :: 0 <= j < n ==> !Matches(doc, j, s)
  {
    if n > 0 {
      CountZero(doc, s, n - 1);
    }
  }

  lemma {:induction false} CountOneIsOnly(doc: seq<Element>, s: Selector, n: nat, i: nat)
    requires n <= |doc| && i < n && Matches(doc, i, s) && CountMatches(doc, s, n) == 1
    ensures forall j :: 0 <= j < n && j != i ==> !Matches(doc, j, s)
  {
    if i == n - 1 {
      CountZero(doc, s, n - 1);
    } else {
      CountPositive(doc, s, n - 1, i);
      CountOneIsOnly(doc, s, n - 1, i);
    }
  }

  lemma {:induction false} CountPositive(doc: seq<Element>, s: Selector, n: nat, i: nat)
    requires n <= |doc| && i < n && Matches(doc, i, s)
    ensures CountMatches(doc, s, n) >= 1
  {
    if i < n - 1 {
      CountPositive(doc, s, n - 1, i);
    }
  }

  /** A unique selector that matches an element matches no other element. */
  lemma UniqueSelectsOnly(doc: seq<Element>, s: Selector, i: nat)
    requires i < |doc| && Matches(doc, i, s) && Unique(doc, s)
    ensures forall j :: 0 <= j < |doc| && j != i ==> !Matches(doc, j, s)
  {
    CountOneIsOnly(doc, s, |doc|, i);
  }

  /** `tag[attr="value"]` for an attribute the element carries. */
  function AttrSelector(e: Element, a: string): Selector
    requires a in e.attrs
  {
    Compound([TypeSel(Lower(e.tag)), AttrEq(a, e.attrs[a])])
  }

  lemma AttrSelectorMatches(doc: seq<Element>, i: nat, a: string)
    requires i < |doc| && a in doc[i].attrs
    ensures Matches(doc, i, AttrSelector(doc[i], a))
  {
    var ps := AttrSelector(doc[i], a).parts;
    assert SimpleMatches(doc, i, ps[0]) && SimpleMatches(doc, i, ps[1]);
  }

  /** The class selectors for the given classes, in order. */
  function ClassParts(cs: seq<string>): (r: seq<Simple>)
    ensures |r| == |cs| && forall k :: 0 <= k < |cs| ==> r[k] == ClassSel(cs[k])
  {
    if |cs| == 0 then [] else [ClassSel(cs[0])] + ClassParts(cs[1..])
  }

  /** An element matches the class selectors of classes it carries. */
  lemma ClassPartsMatch(doc: seq<Element>, j: nat, cs: seq<string>)
    requires j < |doc| && forall c :: c in cs ==> c in doc[j].classes
    ensures AllMatch(doc, j, ClassParts(cs))
  {
    var ps := ClassParts(cs);
    forall k | 0 <= k < |ps| ensures SimpleMatches(doc, j, ps[k]) {
      assert ps[k] == ClassSel(cs[k]) && cs[k] in cs;
    }
  }
}
