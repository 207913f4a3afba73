// The configuration detector injected into a chat page (tools/detector.js):
// it scores the visible input-like and button-like elements, generates a
// selector for each, and reports the selector and score of the best one.

module Detector {
  import opened Common
  import opened SiteIds
  import opened Dom
  import opened Css
  import opened Ranking

  const SendWords: seq<string> := ["send", "submit", "发送", "提交"]
  const ButtonTransient: seq<string> := ["is-", "has-", "active", "focus", "disabled", "loading"]
  const ClassTransient: seq<string> := ["is-", "has-", "active", "focus", "disabled"]
  const UniqueAttrs: seq<string> := ["name", "placeholder", "aria-label", "role", "type"]

  /** `classes.find(c => c.includes(word))` */
  function FirstContaining(cs: seq<string>, word: string): (r: Option<string>)
    ensures r.Some? ==> r.value in cs && Contains(r.value, word)
    ensures r.Some? ==> exists k :: 0 <= k < |cs| && cs[k] == r.value && forall j :: 0 <= j < k ==> !Contains(cs[j], word)
    ensures r.None? ==> forall c :: c in cs ==> !Contains(c, word)
  {
    if |cs| == 0 then None
    else if Contains(cs[0], word) then Some(cs[0])
    else
      assert forall c :: c in cs ==> c == cs[0] || c in cs[1..];
      FirstContaining(cs[1..], word)
  }

  /** The first attribute selector, among `attrs` in order, that the element carries and that is unique in the document. */
  function FirstUniqueAttr(doc: seq<Element>, e: Element, attrs: seq<string>): (r: Option<Selector>)
    ensures r.Some? ==> Unique(doc, r.value) && exists a :: a in attrs && AttrGiven(e, a) && r.value == AttrSelector(e, a)
  {
    if |attrs| == 0 then None
    else if AttrGiven(e, attrs[0]) && Unique(doc, AttrSelector(e, attrs[0])) then Some(AttrSelector(e, attrs[0]))
    else FirstUniqueAttr(doc, e, attrs[1..])
  }

  /** The rules only buttons get: role plus a base class minus the disabled state, a send-like label, a submit type. */
  function ButtonRule(e: Element): Option<Selector> {
    var base := WithoutPrefixes(e.classes, ButtonTransient);
    if AttrIs(e, "role", "button") && |base| > 0 then
      var excluded := match FirstContaining(e.classes, "disabled")
        case Some(d) => ClassSel(d)
        case None => AttrEq("aria-disabled", "true");
      Some(Compound([ClassSel(base[0]), AttrEq("role", "button"), Not(excluded)]))
    else if AttrGiven(e, "aria-label") && MatchesAnyCI(e.attrs["aria-label"], SendWords) then
      Some(Compound([TypeSel("button"), AttrSub("aria-label", CutBefore(e.attrs["aria-label"], " "))]))
    else if e.typeProp == "submit" then
      Some(Compound([TypeSel("button"), AttrEq("type", "submit"), Not(AttrPresent("disabled"))]))
    else None
  }

  /** The rules every element gets: a unique class combination, a unique attribute, the first class, the tag. */
  function GenericSelector(doc: seq<Element>, e: Element): Selector {
    var classes := WithoutPrefixes(e.classes, ClassTransient);
    var combo := Compound(ClassParts(classes));
    if 0 < |classes| <= 3 && Unique(doc, combo) then combo
    else match FirstUniqueAttr(doc, e, UniqueAttrs)
      case Some(s) => s
      case None => if |classes| > 0 then Compound([ClassSel(classes[0])]) else Compound([TypeSel(Lower(e.tag))])
  }

  /** `generateSelector(el, isButton)`: the id and the test id come before every other rule. */
  function GenerateSelector(doc: seq<Element>, e: Element, isButton: bool): (r: Selector)
    ensures e.id != "" ==> r == Compound([IdSel(e.id)])
    ensures e.id == "" && AttrGiven(e, "data-testid") ==> r == Compound([AttrEq("data-testid", e.attrs["data-testid"])])
    ensures e.id == "" && !AttrGiven(e, "data-testid") && !isButton ==> r == GenericSelector(doc, e)
  {
    if e.id != "" then Compound([IdSel(e.id)])
    else if AttrGiven(e, "data-testid") then Compound([AttrEq("data-testid", e.attrs["data-testid"])])
    else if isButton && ButtonRule(e).Some? then ButtonRule(e).value
    else GenericSelector(doc, e)
  }

  /**
   * The selector generated for an input matches it; and a class
   * combination or attribute selector chosen for being unique matches it
   * and nothing else.
   */
  lemma {:induction false} InputSelectorMatches(doc: seq<Element>, i: nat)
    requires i < |doc|
    ensures Matches(doc, i, GenerateSelector(doc, doc[i], false))
    ensures Unique(doc, GenerateSelector(doc, doc[i], false)) ==>
      forall j :: 0 <= j < |doc| && j != i ==> !Matches(doc, j, GenerateSelector(doc, doc[i], false))
  {
    var e := doc[i];
    var r := GenerateSelector(doc, e, false);
    if e.id == "" && AttrGiven(e, "data-testid") {
      assert SimpleMatches(doc, i, r.parts[0]);
    } else if e.id == "" {
      var classes := WithoutPrefixes(e.classes, ClassTransient);
      var combo := Compound(ClassParts(classes));
      if 0 < |classes| <= 3 && Unique(doc, combo) {
        ClassPartsMatch(doc, i, classes);
      } else {
        match FirstUniqueAttr(doc, e, UniqueAttrs)
        case Some(s) =>
          var a :| a in UniqueAttrs && AttrGiven(e, a) && s == AttrSelector(e, a);
          AttrSelectorMatches(doc, i, a);
        case None =>
          if |classes| > 0 {
            assert SimpleMatches(doc, i, r.parts[0]) by { assert classes[0] in classes; }
          } else {
            assert SimpleMatches(doc, i, r.parts[0]);
          }
      }
    }
    if Unique(doc, r) {
      UniqueSelectsOnly(doc, r, i);
    }
  }

  /**
   * The role-and-class selector generated for a role="button" element
   * never matches an element in the disabled state it excludes: one
   * carrying the element's disabled class, or, without one,
   * `aria-disabled="true"`.
   */
  lemma RoleButtonSelectorSkipsDisabled(doc: seq<Element>, e: Element, j: nat)
    requires e.id == "" && !AttrGiven(e, "data-testid") && AttrIs(e, "role", "button")
    requires |WithoutPrefixes(e.classes, ButtonTransient)| > 0
    requires j < |doc| && Matches(doc, j, GenerateSelector(doc, e, true))
    ensures AttrIs(doc[j], "role", "button")
    ensures match FirstContaining(e.classes, "disabled")
      case Some(d) => d !in doc[j].classes
      case None => !AttrIs(doc[j], "aria-disabled", "true")
  {
    var r := GenerateSelector(doc, e, true);
    assert r == ButtonRule(e).value;
    assert SimpleMatches(doc, j, r.parts[1]) && SimpleMatches(doc, j, r.parts[2]);
    match FirstContaining(e.classes, "disabled")
    case Some(d) =>
      assert r.parts[2] == Not(ClassSel(d));
      assert !SimpleMatches(doc, j, ClassSel(d));
    case None =>
      assert r.parts[2] == Not(AttrEq("aria-disabled", "true"));
      assert !SimpleMatches(doc, j, AttrEq("aria-disabled", "true"));
  }

  /** `calculateInputScore`: fixed non-negative weights. */
  function InputScore(e: Element, innerHeight: real): (r: int)
    ensures 0 <= r <= 160
  {
    (if e.tag == "TEXTAREA" then 30 else 0)
    + (if ContentEditableTrue(e) then 20 else 0)
    + (if AttrIs(e, "role", "textbox") then 15 else 0)
    + (if e.id != "" && MatchesAnyCI(e.id, ["input", "message", "prompt", "chat", "text"]) then 35 else 0)
    + (if MatchesAnyCI(PlaceholderText(e), ["输入", "message", "prompt", "ask", "chat"]) then 25 else 0)
    + (if e.rect.height > 50.0 then 10 else 0)
    + (if e.rect.width > 300.0 then 10 else 0)
    + (if e.rect.top > innerHeight * 0.5 then 15 else 0)
  }

  /** `calculateButtonScore`: positive exactly when one of its four signals is present. */
  function ButtonScore(e: Element): (r: int)
    ensures 0 <= r <= 115
    ensures r > 0 <==> e.tag == "BUTTON" || e.typeProp == "submit"
                       || (AttrGiven(e, "aria-label") && MatchesAnyCI(e.attrs["aria-label"], SendWords))
                       || TextMentions(e, SendWords)
  {
    var score :=
      (if e.tag == "BUTTON" then 20 else 0)
      + (if e.typeProp == "submit" then 25 else 0)
      + (if AttrGiven(e, "aria-label") && MatchesAnyCI(e.attrs["aria-label"], SendWords) then 45 else 0)
      + (if TextMentions(e, SendWords) then 25 else 0);
    if score > 0 then score else 0
  }

  /** Matched by `textarea, [contenteditable="true"], [role="textbox"]` and shown. */
  predicate InputCandidate(e: Element) {
    (e.tag == "TEXTAREA" || AttrIs(e, "contenteditable", "true") || AttrIs(e, "role", "textbox")) && Shown(e)
  }

  /** Matched by `button, input[type="submit"], [role="button"]`, shown, and scoring above 0. */
  predicate ButtonCandidate(e: Element) {
    (e.tag == "BUTTON" || (e.tag == "INPUT" && AttrIs(e, "type", "submit")) || AttrIs(e, "role", "button"))
    && Shown(e) && ButtonScore(e) > 0
  }

  function InputCandidates(doc: seq<Element>, innerHeight: real): seq<Candidate> {
    Collect(doc, |doc|, (j: nat, e: Element) => InputCandidate(e),
            (j: nat, e: Element) => Candidate(j, GenerateSelector(doc, e, false), InputScore(e, innerHeight)))
  }

  function ButtonCandidates(doc: seq<Element>): seq<Candidate> {
    Collect(doc, |doc|, (j: nat, e: Element) => ButtonCandidate(e),
            (j: nat, e: Element) => Candidate(j, GenerateSelector(doc, e, true), ButtonScore(e)))
  }

  /** The detector's result; the date stamp is left out. */
  datatype Detection = Detection(siteId: string, input: Choice, send: Choice)

  function Detect(hostname: string, doc: seq<Element>, innerHeight: real): (r: Detection)
    ensures r.siteId == SiteId(hostname)
  {
    Detection(SiteId(hostname), Choose(InputCandidates(doc, innerHeight)), Choose(ButtonCandidates(doc)))
  }

  /**
   * The reported scores lie within the score bounds; a selector is
   * reported exactly when some element qualifies as a candidate, and a
   * reported button scored above 0.
   */
  lemma DetectionReport(hostname: string, doc: seq<Element>, innerHeight: real)
    ensures var r := Detect(hostname, doc, innerHeight);
      0 <= r.input.confidence <= 160 && 0 <= r.send.confidence <= 115
      && (r.input.selector.None? <==> forall j :: 0 <= j < |doc| ==> !InputCandidate(doc[j]))
      && (r.send.selector.None? <==> forall j :: 0 <= j < |doc| ==> !ButtonCandidate(doc[j]))
      && (r.send.selector.Some? ==> r.send.confidence > 0)
  {
    InputReport(doc, innerHeight);
    SendReport(doc);
  }

  /** The input half of the report: the best input candidate's score, or nothing when no element qualifies. */
  lemma InputReport(doc: seq<Element>, innerHeight: real)
    ensures var c := Choose(InputCandidates(doc, innerHeight));
      0 <= c.confidence <= 160
      && (c.selector.None? <==> forall j :: 0 <= j < |doc| ==> !InputCandidate(doc[j]))
  {
    var ins := InputCandidates(doc, innerHeight);
    match Best(ins)
    case None =>
    case Some(k) =>
      assert Choose(ins) == Choice(Some(ins[k].selector), ins[k].score);
      assert ins[k] in ins;
  }

  /** The send half of the report: the best button candidate's score, positive, or nothing when no element qualifies. */
  lemma SendReport(doc: seq<Element>)
    ensures var c := Choose(ButtonCandidates(doc));
      0 <= c.confidence <= 115
      && (c.selector.None? <==> forall j :: 0 <= j < |doc| ==> !ButtonCandidate(doc[j]))
      && (c.selector.Some? ==> c.confidence > 0)
  {
    var bts := ButtonCandidates(doc);
    match Best(bts)
    case None =>
    case Some(k) =>
      assert Choose(bts) == Choice(Some(bts[k].selector), bts[k].score);
      assert bts[k] in bts;
  }

  /** The detector script: collect both candidate lists, then take the best of each. */
  method RunDetector(hostname: string, doc: seq<Element>, innerHeight: real) returns (result: Detection)
    ensures result == Detect(hostname, doc, innerHeight)
  {
    var ins := CollectCandidates(doc, (j: nat, e: Element) => InputCandidate(e),
                                 (j: nat, e: Element) => Candidate(j, GenerateSelector(doc, e, false), InputScore(e, innerHeight)));
    var bts := CollectCandidates(doc, (j: nat, e: Element) => ButtonCandidate(e),
                                 (j: nat, e: Element) => Candidate(j, GenerateSelector(doc, e, true), ButtonScore(e)));
    var bi := PickBest(ins);
    var bb := PickBest(bts);
    var input := match bi case None => Choice(None, 0) case Some(k) => Choice(Some(ins[k].selector), ins[k].score);
    var send := match bb case None => Choice(None, 0) case Some(k) => Choice(Some(bts[k].selector), bts[k].score);
    result := Detection(SiteId(hostname), input, send);
  }
}
