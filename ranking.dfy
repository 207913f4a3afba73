// What the two configuration tools (tools/detector.js and
// tools/config-generator.js) share: their visibility test, the transient
// class filter, candidate collection in document order, the choice of the
// best candidate, and the confidence levels of tools/config-generator.js
// and tools/batch-config-generator.js.

module Ranking {
  import opened Common
  import opened Dom
  import opened Css

  /** `isVisible` of the tools: a box or client rects, not `display: none`, not `visibility: hidden`. */
  predicate Shown(e: Element) {
    Visible(e) && !e.displayNone && !e.visibilityHidden
  }

  /** `el.contentEditable === 'true'`: the attribute is "true" or empty, in any case. */
  predicate ContentEditableTrue(e: Element) {
    "contenteditable" in e.attrs && (Lower(e.attrs["contenteditable"]) == "true" || e.attrs["contenteditable"] == "")
  }

  /** `el.placeholder || el.getAttribute('placeholder')`, with "" for neither. */
  function PlaceholderText(e: Element): string {
    if "placeholder" in e.attrs then e.attrs["placeholder"] else ""
  }

  /** `el.textContent?.trim().toLowerCase() || ''` tested against a case-insensitive alternation. */
  predicate TextMentions(e: Element, words: seq<string>) {
    MatchesAnyCI(Trim(TextContent(e)), words)
  }

  /** The classes that do not start with any of the transient prefixes. */
  function WithoutPrefixes(cs: seq<string>, prefixes: seq<string>): (r: seq<string>)
    ensures |r| <= |cs|
    ensures forall c :: c in r <==> c in cs && forall p :: p in prefixes ==> !StartsWith(c, p)
  {
    if |cs| == 0 then []
    else
      var rest := WithoutPrefixes(cs[1..], prefixes);
      assert forall c :: c in cs <==> c == cs[0] || c in cs[1..];
      if forall p :: p in prefixes ==> !StartsWith(cs[0], p) then [cs[0]] + rest else rest
  }

  datatype Candidate = Candidate(element: nat, selector: Selector, score: int)

  /** The candidates made from the first `n` elements that `accept` keeps, in document order. */
  function Collect(doc: seq<Element>, n: nat, accept: (nat, Element) -> bool, make: (nat, Element) -> Candidate): (r: seq<Candidate>)
    requires n <= |doc|
    ensures |r| <= n
    ensures forall c :: c in r ==> exists j :: 0 <= j < n && accept(j, doc[j]) && c == make(j, doc[j])
    ensures forall j :: 0 <= j < n && accept(j, doc[j]) ==> make(j, doc[j]) in r
  {
    if n == 0 then []
    else
      var prev := Collect(doc, n - 1, accept, make);
      if accept(n - 1, doc[n - 1]) then prev + [make(n - 1, doc[n - 1])] else prev
  }

  /** Nothing is collected when no element is accepted. */
  lemma {:induction false} CollectNone(doc: seq<Element>, n: nat, accept: (nat, Element) -> bool, make: (nat, Element) -> Candidate)
    requires n <= |doc| && forall j :: 0 <= j < n ==> !accept(j, doc[j])
    ensures Collect(doc, n, accept, make) == []
  {
    if n > 0 {
      CollectNone(doc, n - 1, accept, make);
    }
  }

  /** `querySelectorAll(...).forEach(el => { if (...) candidates.push(...) })` */
  method CollectCandidates(doc: seq<Element>, accept: (nat, Element) -> bool, make: (nat, Element) -> Candidate)
    returns (cands: seq<Candidate>)
    ensures cands == Collect(doc, |doc|, accept, make)
  {
    cands := [];
    var j := 0;
    while j < |doc|
      invariant 0 <= j <= |doc|
      invariant cands == Collect(doc, j, accept, make)
    {
      if accept(j, doc[j]) {
        cands := cands + [make(j, doc[j])];
      }
      j := j + 1;
    }
  }

  /** `k` holds the highest score, and every candidate before it scores strictly less. */
  predicate FirstMax(cands: seq<Candidate>, k: nat) {
    k < |cands|
    && (forall j :: 0 <= j < |cands| ==> cands[j].score <= cands[k].score)
    && (forall j :: 0 <= j < k ==> cands[j].score < cands[k].score)
  }

  /**
   * The candidate at index 0 after `sort((a, b) => b.score - a.score)`:
   * a stable sort by descending score puts first the earliest candidate of
   * highest score.
   */
  function Best(cands: seq<Candidate>): (r: Option<nat>)
    ensures r.None? <==> |cands| == 0
    ensures r.Some? ==> FirstMax(cands, r.value)
  {
    if |cands| == 0 then None
    else
      var last := |cands| - 1;
      match Best(cands[..last])
      case None => Some(0)
      case Some(k) => if cands[last].score > cands[k].score then Some(last) else Some(k)
  }

  /** The scan that finds the candidate the sort puts first. */
  method PickBest(cands: seq<Candidate>) returns (r: Option<nat>)
    ensures r == Best(cands)
  {
    if |cands| == 0 {
      return None;
    }
    var best := 0;
    var k := 1;
    assert cands[..0] == [];
    while k < |cands|
      invariant 1 <= k <= |cands|
      invariant Best(cands[..k]) == Some(best)
    {
      assert cands[..k + 1][..k] == cands[..k];
      if cands[k].score > cands[best].score {
        best := k;
      }
      k := k + 1;
    }
    assert cands[..k] == cands;
    r := Some(best);
  }

  /** The selector and confidence a tool reports: the best candidate's, or `null` and 0. */
  datatype Choice = Choice(selector: Option<Selector>, confidence: int)

  function Choose(cands: seq<Candidate>): (r: Choice)
    ensures r.selector.None? <==> |cands| == 0
    ensures |cands| == 0 ==> r.confidence == 0
    ensures |cands| > 0 ==> exists k: nat :: FirstMax(cands, k) && r == Choice(Some(cands[k].selector), cands[k].score)
  {
    match Best(cands)
    case None => Choice(None, 0)
    case Some(k) => Choice(Some(cands[k].selector), cands[k].score)
  }

  /** `title.split(' - ')[0].split(' | ')[0]`: the site name a generated configuration carries. */
  function ShortName(title: string): (r: string)
    ensures r <= title
    ensures !Contains(r, " - ") && !Contains(r, " | ")
  {
    var first := CutBefore(title, " - ");
    var r := CutBefore(first, " | ");
    ContainsInPrefix(first, r, " - ");
    r
  }

  /** The confidence levels, with thresholds 80 and 50. */
  datatype Level = Low | Medium | High

  function LevelOf(score: int): (r: Level)
    ensures r == High <==> score >= 80
    ensures r == Medium <==> 50 <= score < 80
    ensures r == Low <==> score < 50
  {
    if score >= 80 then High else if score >= 50 then Medium else Low
  }

  function Rank(l: Level): nat {
    match l
    case Low => 0
    case Medium => 1
    case High => 2
  }

  /** A higher score never gets a lower level. */
  lemma LevelMonotone(a: int, b: int)
    requires a <= b
    ensures Rank(LevelOf(a)) <= Rank(LevelOf(b))
  {
  }
}
