// Selector cascades as the content scripts run them: try each selector of
// a list in turn with `document.querySelector`, skip the selectors that
// throw, and take the first whose (first) match passes a test.

module Selectors {
  import opened Common
  import opened Dom

  predicate VisibleEnabled(e: Element) {
    Visible(e) && !e.disabled
  }

  /**
   * One step of a cascade: `querySelector(sel)` inside a `try`, kept when
   * `accept` holds of the element.  Only the first match is looked at; an
   * invalid selector counts as no hit.
   */
  function Hit(doc: seq<Element>, eng: Engine, sel: string, accept: Element -> bool): (r: Option<nat>)
    ensures r.Some? <==> Query(doc, eng, sel).Match? && accept(doc[Query(doc, eng, sel).index])
    ensures r.Some? ==> Query(doc, eng, sel) == Match(r.value) && r.value < |doc|
  {
    match Query(doc, eng, sel)
    case Match(i) => if accept(doc[i]) then Some(i) else None
    case _ => None
  }

  /** The `for (const selector of selectors)` loop: the first selector with a hit. */
  function FirstHit(doc: seq<Element>, eng: Engine, sels: seq<string>, accept: Element -> bool): (r: Option<nat>)
    ensures r.Some? ==> r.value < |doc| && accept(doc[r.value])
    ensures r.None? <==> forall k :: 0 <= k < |sels| ==> Hit(doc, eng, sels[k], accept).None?
    ensures r.Some? ==> exists k :: 0 <= k < |sels| && Hit(doc, eng, sels[k], accept) == r &&
                                    forall j :: 0 <= j < k ==> Hit(doc, eng, sels[j], accept).None?
  {
    if |sels| == 0 then None
    else match Hit(doc, eng, sels[0], accept)
      case Some(i) => Some(i)
      case None =>
        var r := FirstHit(doc, eng, sels[1..], accept);
        assert forall k :: 1 <= k < |sels| ==> sels[1..][k - 1] == sels[k];
        r
  }

  /** Dropping a selector that never hits leaves the cascade's answer unchanged. */
  lemma {:induction false} SkipMiss(doc: seq<Element>, eng: Engine, a: seq<string>, s: string, b: seq<string>, accept: Element -> bool)
    requires Hit(doc, eng, s, accept).None?
    ensures FirstHit(doc, eng, a + [s] + b, accept) == FirstHit(doc, eng, a + b, accept)
  {
    if |a| == 0 {
      assert a + [s] + b == [s] + b && ([s] + b)[1..] == b && a + b == b;
    } else {
      assert (a + [s] + b)[0] == a[0] && (a + [s] + b)[1..] == a[1..] + [s] + b;
      assert (a + b)[0] == a[0] && (a + b)[1..] == a[1..] + b;
      SkipMiss(doc, eng, a[1..], s, b, accept);
    }
  }

  /** A selector listed a second time is never reached with a different answer. */
  lemma {:induction false} SkipRepeat(doc: seq<Element>, eng: Engine, a: seq<string>, s: string, b: seq<string>, accept: Element -> bool)
    requires s in a
    ensures FirstHit(doc, eng, a + [s] + b, accept) == FirstHit(doc, eng, a + b, accept)
  {
    assert (a + [s] + b)[0] == a[0] && (a + [s] + b)[1..] == a[1..] + [s] + b;
    assert (a + b)[0] == a[0] && (a + b)[1..] == a[1..] + b;
    if Hit(doc, eng, a[0], accept).None? {
      if a[0] == s {
        SkipMiss(doc, eng, a, s, b, accept);
      } else {
        SkipRepeat(doc, eng, a[1..], s, b, accept);
      }
    }
  }

  /** Dropping selectors that never hit leaves the cascade's answer unchanged. */
  lemma {:induction false} SkipMisses(doc: seq<Element>, eng: Engine, a: seq<string>, t: seq<string>, b: seq<string>, accept: Element -> bool)
    requires forall k :: 0 <= k < |t| ==> Hit(doc, eng, t[k], accept).None?
    ensures FirstHit(doc, eng, a + t + b, accept) == FirstHit(doc, eng, a + b, accept)
  {
    if |t| == 0 {
      assert a + t + b == a + b;
    } else {
      assert a + t + b == a + [t[0]] + (t[1..] + b);
      SkipMiss(doc, eng, a, t[0], t[1..] + b, accept);
      assert a + (t[1..] + b) == a + t[1..] + b;
      assert forall k :: 0 <= k < |t[1..]| ==> t[1..][k] == t[k + 1];
      SkipMisses(doc, eng, a, t[1..], b, accept);
    }
  }

  /** The first textarea (in document order) that is visible, enabled and writable. */
  function UsableTextarea(doc: seq<Element>, from: nat): (r: Option<nat>)
    ensures r.Some? ==> from <= r.value < |doc|
    ensures r.Some? ==> var e := doc[r.value]; e.tag == "TEXTAREA" && Visible(e) && !e.disabled && !e.readOnly
    ensures r.None? ==> forall j :: from <= j < |doc| ==>
      !(doc[j].tag == "TEXTAREA" && Visible(doc[j]) && !doc[j].disabled && !doc[j].readOnly)
    ensures r.Some? ==> forall j :: from <= j < r.value ==>
      !(doc[j].tag == "TEXTAREA" && Visible(doc[j]) && !doc[j].disabled && !doc[j].readOnly)
    decreases |doc| - from
  {
    if from >= |doc| then None
    else
      var e := doc[from];
      if e.tag == "TEXTAREA" && Visible(e) && !e.disabled && !e.readOnly then Some(from)
      else UsableTextarea(doc, from + 1)
  }

  /**
   * A `querySelector(sel)` made outside any `try`: an invalid selector
   * throws out of the caller; otherwise the match is kept when visible.
   */
  function Direct(doc: seq<Element>, eng: Engine, sel: string): (r: Lookup)
    ensures r == Threw <==> !eng.valid(sel)
    ensures r.Found? <==> Hit(doc, eng, sel, Visible).Some?
    ensures r.Found? ==> r.index == Hit(doc, eng, sel, Visible).value
  {
    match Query(doc, eng, sel)
    case SyntaxError => Threw
    case NoMatch => NotFound
    case Match(i) => if Visible(doc[i]) then Found(i) else NotFound
  }

  /** The last-resort loop over `document.querySelectorAll('textarea')`. */
  method UsableTextareaLoop(page: Page) returns (r: Option<nat>)
    ensures r == UsableTextarea(page.elems, 0)
  {
    var j := 0;
    while j < |page.elems|
      invariant 0 <= j <= |page.elems|
      invariant UsableTextarea(page.elems, 0) == UsableTextarea(page.elems, j)
    {
      var e := page.elems[j];
      if e.tag == "TEXTAREA" && Visible(e) && !e.disabled && !e.readOnly {
        return Some(j);
      }
      j := j + 1;
    }
    return None;
  }

  /** The `for (const selector of selectors)` loop with its `try`/`continue`. */
  method FirstHitLoop(page: Page, sels: seq<string>, accept: Element -> bool) returns (r: Option<nat>)
    ensures r == FirstHit(page.elems, page.engine, sels, accept)
  {
    var k := 0;
    while k < |sels|
      invariant 0 <= k <= |sels|
      invariant FirstHit(page.elems, page.engine, sels, accept) == FirstHit(page.elems, page.engine, sels[k..], accept)
    {
      assert sels[k..][0] == sels[k] && sels[k..][1..] == sels[k + 1..];
      var q := Query(page.elems, page.engine, sels[k]);
      if q.Match? && accept(page.elems[q.index]) {
        return Some(q.index);
      }
      k := k + 1;
    }
    return None;
  }
}
