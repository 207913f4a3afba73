// The console configuration generator (tools/config-generator.js): three
// collection strategies per target, scoring, the choice of the best
// candidate, and the configuration it prints.

module ConfigGenerator {
  import opened Common
  import opened SiteIds
  import opened Dom
  import opened Css
  import opened Ranking

  const ClassTransient: seq<string> := ["is-", "has-", "active", "focus"]
  const UniqueAttrs: seq<string> := ["name", "placeholder", "aria-label", "role", "type"]

  // ---------------------------------------------------------------------
  // Selector generation.

  /** `value.substring(0, 10)` */
  function Prefix10(v: string): (r: string)
    ensures r <= v && |r| == if |v| < 10 then |v| else 10
  {
    v[..if |v| < 10 then |v| else 10]
  }

  /** `tag[attr*="first ten characters"]` */
  function PartialSelector(e: Element, a: string): Selector
    requires a in e.attrs
  {
    Compound([TypeSel(Lower(e.tag)), AttrSub(a, Prefix10(e.attrs[a]))])
  }

  /**
   * The attribute loop: for each attribute present, the exact selector if
   * unique, else (for a value longer than 5) the partial selector if unique.
   */
  function AttrRule(doc: seq<Element>, e: Element, attrs: seq<string>): (r: Option<Selector>)
    ensures r.Some? ==> Unique(doc, r.value)
    ensures r.Some? ==> exists a :: (a in attrs && AttrGiven(e, a)
      && (r.value == AttrSelector(e, a) || (|e.attrs[a]| > 5 && r.value == PartialSelector(e, a))))
  {
    if |attrs| == 0 then None
    else
      var a := attrs[0];
      if AttrGiven(e, a) && Unique(doc, AttrSelector(e, a)) then Some(AttrSelector(e, a))
      else if AttrGiven(e, a) && |e.attrs[a]| > 5 && Unique(doc, PartialSelector(e, a)) then Some(PartialSelector(e, a))
      else AttrRule(doc, e, attrs[1..])
  }

  /** `generateSelector`: id, test id, a unique class combination, a unique attribute selector, the first class, the tag. */
  function GenerateSelector(doc: seq<Element>, e: Element): (r: Selector)
    ensures e.id != "" ==> r == Compound([IdSel(e.id)])
    ensures e.id == "" && AttrGiven(e, "data-testid") ==> r == Compound([AttrEq("data-testid", e.attrs["data-testid"])])
  {
    if e.id != "" then Compound([IdSel(e.id)])
    else if AttrGiven(e, "data-testid") then Compound([AttrEq("data-testid", e.attrs["data-testid"])])
    else
      var classes := WithoutPrefixes(e.classes, ClassTransient);
      var combo := Compound(ClassParts(classes));
      if 0 < |classes| <= 3 && Unique(doc, combo) then combo
      else match AttrRule(doc, e, UniqueAttrs)
        case Some(s) => s
        case None => if |classes| > 0 then Compound([ClassSel(classes[0])]) else Compound([TypeSel(Lower(e.tag))])
  }

  /** A value longer than 5 characters is matched by its partial selector. */
  lemma PartialSelectorMatches(doc: seq<Element>, i: nat, a: string)
    requires i < |doc| && a in doc[i].attrs && |doc[i].attrs[a]| > 5
    ensures Matches(doc, i, PartialSelector(doc[i], a))
  {
    var v := doc[i].attrs[a];
    var ps := PartialSelector(doc[i], a).parts;
    OccurrenceGivesContains(v, Prefix10(v), 0);
    assert SimpleMatches(doc, i, ps[0]) && SimpleMatches(doc, i, ps[1]);
  }

  /** The generated selector matches its element; one that is unique in the document matches nothing else. */
  lemma {:induction false} SelectorMatchesElement(doc: seq<Element>, i: nat)
    requires i < |doc|
    ensures Matches(doc, i, GenerateSelector(doc, doc[i]))
    ensures Unique(doc, GenerateSelector(doc, doc[i])) ==>
      forall j :: 0 <= j < |doc| && j != i ==> !Matches(doc, j, GenerateSelector(doc, doc[i]))
  {
    var e := doc[i];
    var r := GenerateSelector(doc, e);
    if e.id == "" && AttrGiven(e, "data-testid") {
      assert SimpleMatches(doc, i, r.parts[0]);
    } else if e.id == "" {
      var classes := WithoutPrefixes(e.classes, ClassTransient);
      if 0 < |classes| <= 3 && Unique(doc, Compound(ClassParts(classes))) {
        ClassPartsMatch(doc, i, classes);
      } else {
        match AttrRule(doc, e, UniqueAttrs)
        case Some(s) =>
          var a :| a in UniqueAttrs && AttrGiven(e, a)
            && (s == AttrSelector(e, a) || (|e.attrs[a]| > 5 && s == PartialSelector(e, a)));
          if s == AttrSelector(e, a) {
            AttrSelectorMatches(doc, i, a);
          } else {
            PartialSelectorMatches(doc, i, a);
          }
        case None =>
          if |classes| > 0 {
            assert SimpleMatches(doc, i, r.parts[0]) by { assert classes[0] in classes; }
          } else {
            assert SimpleMatches(doc, i, r.parts[0]);
          }
      }
    }
    if Unique(doc, r) {
      UniqueSelectsOnly(doc, r, i);
    }
  }

  // ---------------------------------------------------------------------
  // Scores.

  /** `className` when it is a string (it is not on SVG elements): the class list joined by spaces. */
  function ClassString(e: Element): string {
    if e.svg then "" else JoinSpaces(e.classes)
  }

  function JoinSpaces(cs: seq<string>): string {
    if |cs| == 0 then "" else if |cs| == 1 then cs[0] else cs[0] + " " + JoinSpaces(cs[1..])
  }

  /** `calculateInputScore`: only adds weights. */
  function InputScore(e: Element, innerHeight: real): (r: int)
    ensures 0 <= r <= 205
  {
    (if e.tag == "TEXTAREA" then 30 else 0)
    + (if ContentEditableTrue(e) then 20 else 0)
    + (if AttrIs(e, "role", "textbox") then 15 else 0)
    + (if e.id != "" then 20 + (if MatchesAnyCI(e.id, ["input", "message", "prompt", "chat", "text"]) then 15 else 0) else 0)
    + (if PlaceholderText(e) != "" then
         10 + (if MatchesAnyCI(PlaceholderText(e), ["输入", "message", "prompt", "ask", "chat", "type", "send"]) then 15 else 0)
       else 0)
    + (if AttrGiven(e, "aria-label") && MatchesAnyCI(e.attrs["aria-label"], ["input", "message", "prompt", "chat"]) then 15 else 0)
    + (if MatchesAnyCI(ClassString(e), ["input", "textarea", "message", "prompt", "chat", "editor"]) then 10 else 0)
    + (if MatchesAnyCI(ClassString(e), ["ql-editor", "prosemirror", "codemirror"]) then 20 else 0)
    + (if e.rect.height > 50.0 then 10 else 0)
    + (if e.rect.width > 300.0 then 10 else 0)
    + (if e.rect.top > innerHeight * 0.5 then 15 else 0)
  }

  /** `el.querySelector('svg')`: the first `svg` descendant of `root` at or after `from`. */
  function FirstSvgFrom(doc: seq<Element>, root: nat, from: nat): (r: Option<nat>)
    ensures r.Some? ==> from <= r.value < |doc| && Lower(doc[r.value].tag) == "svg" && IsAncestor(doc, root, r.value)
    ensures r.Some? ==> forall j: nat :: from <= j < r.value ==> !(Lower(doc[j].tag) == "svg" && IsAncestor(doc, root, j))
    ensures r.None? ==> forall j: nat :: from <= j < |doc| ==> !(Lower(doc[j].tag) == "svg" && IsAncestor(doc, root, j))
    decreases |doc| - from
  {
    if from >= |doc| then None
    else if Lower(doc[from].tag) == "svg" && IsAncestor(doc, root, from) then Some(from)
    else FirstSvgFrom(doc, root, from + 1)
  }

  const IconWords: seq<string> := ["send", "paper-plane", "arrow", "submit"]

  function AttrOrEmpty(e: Element, a: string): string {
    if a in e.attrs then e.attrs[a] else ""
  }

  /** The first svg inside the button carries a send-like class (`getAttribute('class')`) or `data-icon`. */
  predicate SendIcon(doc: seq<Element>, i: nat) {
    match FirstSvgFrom(doc, i, 0)
    case None => false
    case Some(s) => MatchesAnyCI(JoinSpaces(doc[s].classes), IconWords) || MatchesAnyCI(AttrOrEmpty(doc[s], "data-icon"), IconWords)
  }

  /** The sum of weights and size penalties before clamping. */
  function RawButtonScore(doc: seq<Element>, i: nat, innerHeight: real): int
    requires i < |doc|
  {
    var e := doc[i];
    (if e.tag == "BUTTON" then 20 else 0)
    + (if e.typeProp == "submit" then 25 else 0)
    + (if e.id != "" then 15 + (if MatchesAnyCI(e.id, ["send", "submit", "post", "enter"]) then 20 else 0) else 0)
    + (if AttrGiven(e, "aria-label") then
         15 + (if MatchesAnyCI(e.attrs["aria-label"], ["send", "submit", "发送", "提交"]) then 30 else 0)
       else 0)
    + (if TextMentions(e, ["send", "submit", "发送", "提交", "enter", "go"]) then 25 else 0)
    + (if MatchesAnyCI(ClassString(e), ["send", "submit", "post", "enter"]) then 15 else 0)
    + (if AttrGiven(e, "data-testid") && MatchesAnyCI(e.attrs["data-testid"], ["send", "submit"]) then 25 else 0)
    + (if SendIcon(doc, i) then 20 else 0)
    + (if e.rect.top > innerHeight * 0.5 then 10 else 0)
    - (if e.rect.width < 20.0 || e.rect.width > 200.0 then 10 else 0)
    - (if e.rect.height < 20.0 || e.rect.height > 80.0 then 10 else 0)
  }

  /** `calculateButtonScore`: clamped with `Math.max(0, …)`. */
  function ButtonScore(doc: seq<Element>, i: nat, innerHeight: real): (r: int)
    requires i < |doc|
    ensures 0 <= r <= 220
    ensures r > 0 <==> RawButtonScore(doc, i, innerHeight) > 0
  {
    var raw := RawButtonScore(doc, i, innerHeight);
    if raw > 0 then raw else 0
  }

  /** The clamp is reached: a small, unlabelled element placed high would score -20. */
  lemma ClampIsReached()
    ensures var e := Element("DIV", "", [], map[], None, 0, 0, 0, Rect(0.0, 0.0, 10.0, 10.0), false, false, false,
                             false, false, false, false, false, "", false, "", Text(""));
      RawButtonScore([e], 0, 100.0) == -20 && ButtonScore([e], 0, 100.0) == 0
  {
    var e := Element("DIV", "", [], map[], None, 0, 0, 0, Rect(0.0, 0.0, 10.0, 10.0), false, false, false,
                     false, false, false, false, false, "", false, "", Text(""));
    assert Lower("") == "";
    assert !MatchesAnyCI("", ["send", "submit", "post", "enter"]) by {
      assert forall w :: w in ["send", "submit", "post", "enter"] ==> |w| > 0;
    }
    assert !TextMentions(e, ["send", "submit", "发送", "提交", "enter", "go"]) by {
      assert Trim("") == "";
      assert forall w :: w in ["send", "submit", "发送", "提交", "enter", "go"] ==> |w| > 0;
    }
    assert FirstSvgFrom([e], 0, 0) == None by {
      assert !IsAncestor([e], 0, 0);
    }
  }

  // ---------------------------------------------------------------------
  // Candidates.

  predicate Collected(cands: seq<Candidate>, j: nat) {
    exists c :: c in cands && c.element == j
  }

  /** Strategy 1 for inputs: visible, enabled, writable textareas. */
  predicate TextareaCandidate(e: Element) {
    e.tag == "TEXTAREA" && Shown(e) && !e.disabled && !e.readOnly
  }

  predicate EditableCandidate(e: Element) {
    AttrIs(e, "contenteditable", "true") && Shown(e)
  }

  predicate TextboxCandidate(e: Element) {
    AttrIs(e, "role", "textbox") && Shown(e)
  }

  function InputMaker(doc: seq<Element>, innerHeight: real): (nat, Element) -> Candidate {
    (j: nat, e: Element) => Candidate(j, GenerateSelector(doc, e), InputScore(e, innerHeight))
  }

  /** The candidates the first two input strategies collect. */
  function EarlyInputCandidates(doc: seq<Element>, innerHeight: real): seq<Candidate> {
    Collect(doc, |doc|, (j: nat, e: Element) => TextareaCandidate(e), InputMaker(doc, innerHeight))
    + Collect(doc, |doc|, (j: nat, e: Element) => EditableCandidate(e), InputMaker(doc, innerHeight))
  }

  /** Strategy 3: role="textbox" elements not already collected. */
  function TextboxCandidates(doc: seq<Element>, innerHeight: real): seq<Candidate> {
    var prior := EarlyInputCandidates(doc, innerHeight);
    Collect(doc, |doc|, (j: nat, e: Element) => TextboxCandidate(e) && !Collected(prior, j), InputMaker(doc, innerHeight))
  }

  function InputCandidates(doc: seq<Element>, innerHeight: real): seq<Candidate> {
    EarlyInputCandidates(doc, innerHeight) + TextboxCandidates(doc, innerHeight)
  }

  /** A role="textbox" element already collected as a textarea or contenteditable candidate is not added again. */
  lemma TextboxNotRepeated(doc: seq<Element>, innerHeight: real)
    ensures forall c :: c in TextboxCandidates(doc, innerHeight) ==> !Collected(EarlyInputCandidates(doc, innerHeight), c.element)
    ensures forall j :: 0 <= j < |doc| && TextboxCandidate(doc[j]) ==> Collected(InputCandidates(doc, innerHeight), j)
  {
    var prior := EarlyInputCandidates(doc, innerHeight);
    var third := TextboxCandidates(doc, innerHeight);
    forall j | 0 <= j < |doc| && TextboxCandidate(doc[j]) ensures Collected(InputCandidates(doc, innerHeight), j) {
      if !Collected(prior, j) {
        assert InputMaker(doc, innerHeight)(j, doc[j]) in third;
        assert InputMaker(doc, innerHeight)(j, doc[j]) in InputCandidates(doc, innerHeight);
      } else {
        var c :| c in prior && c.element == j;
        assert c in InputCandidates(doc, innerHeight);
      }
    }
  }

  predicate ButtonTagCandidate(doc: seq<Element>, j: nat, innerHeight: real)
    requires j < |doc|
  {
    doc[j].tag == "BUTTON" && Shown(doc[j]) && !doc[j].disabled && ButtonScore(doc, j, innerHeight) > 0
  }

  predicate SubmitInputCandidate(e: Element) {
    e.tag == "INPUT" && AttrIs(e, "type", "submit") && Shown(e) && !e.disabled
  }

  function ButtonMaker(doc: seq<Element>, innerHeight: real): (nat, Element) -> Candidate {
    (j: nat, e: Element) => Candidate(j, GenerateSelector(doc, e), if j < |doc| then ButtonScore(doc, j, innerHeight) else 0)
  }

  function EarlyButtonCandidates(doc: seq<Element>, innerHeight: real): seq<Candidate> {
    Collect(doc, |doc|, (j: nat, e: Element) => j < |doc| && ButtonTagCandidate(doc, j, innerHeight), ButtonMaker(doc, innerHeight))
    + Collect(doc, |doc|, (j: nat, e: Element) => SubmitInputCandidate(e), ButtonMaker(doc, innerHeight))
  }

  function RoleButtonCandidates(doc: seq<Element>, innerHeight: real): seq<Candidate> {
    var prior := EarlyButtonCandidates(doc, innerHeight);
    Collect(doc, |doc|, (j: nat, e: Element) => j < |doc| && AttrIs(e, "role", "button") && Shown(e) && !Collected(prior, j)
                                               && ButtonScore(doc, j, innerHeight) > 0,
            ButtonMaker(doc, innerHeight))
  }

  function ButtonCandidates(doc: seq<Element>, innerHeight: real): seq<Candidate> {
    EarlyButtonCandidates(doc, innerHeight) + RoleButtonCandidates(doc, innerHeight)
  }

  /**
   * Every visible, enabled `input[type=submit]` becomes a candidate
   * whatever its score; `<button>` and role="button" candidates all score
   * above 0.
   */
  lemma ButtonCandidateRules(doc: seq<Element>, innerHeight: real)
    ensures forall j :: 0 <= j < |doc| && SubmitInputCandidate(doc[j]) ==> Collected(ButtonCandidates(doc, innerHeight), j)
    ensures forall c :: c in ButtonCandidates(doc, innerHeight) && !(c.element < |doc| && SubmitInputCandidate(doc[c.element])) ==> c.score > 0
  {
    var all := ButtonCandidates(doc, innerHeight);
    forall j | 0 <= j < |doc| && SubmitInputCandidate(doc[j]) ensures Collected(all, j) {
      var c := ButtonMaker(doc, innerHeight)(j, doc[j]);
      assert c in Collect(doc, |doc|, (j: nat, e: Element) => SubmitInputCandidate(e), ButtonMaker(doc, innerHeight));
      assert c in all;
    }
  }

  // ---------------------------------------------------------------------
  // The generated configuration.

  datatype Generated = Generated(siteId: string, name: string, input: Choice, send: Choice)

  method CollectInputs(doc: seq<Element>, innerHeight: real) returns (cands: seq<Candidate>)
    ensures cands == InputCandidates(doc, innerHeight)
  {
    var make := InputMaker(doc, innerHeight);
    var textareas := CollectCandidates(doc, (j: nat, e: Element) => TextareaCandidate(e), make);
    var editables := CollectCandidates(doc, (j: nat, e: Element) => EditableCandidate(e), make);
    var prior := textareas + editables;
    var textboxes := CollectCandidates(doc, (j: nat, e: Element) => TextboxCandidate(e) && !Collected(prior, j), make);
    cands := prior + textboxes;
  }

  method CollectButtons(doc: seq<Element>, innerHeight: real) returns (cands: seq<Candidate>)
    ensures cands == ButtonCandidates(doc, innerHeight)
  {
    var make := ButtonMaker(doc, innerHeight);
    var buttons := CollectCandidates(doc, (j: nat, e: Element) => j < |doc| && ButtonTagCandidate(doc, j, innerHeight), make);
    var submits := CollectCandidates(doc, (j: nat, e: Element) => SubmitInputCandidate(e), make);
    var prior := buttons + submits;
    var roles := CollectCandidates(doc, (j: nat, e: Element) => j < |doc| && AttrIs(e, "role", "button") && Shown(e)
                                                               && !Collected(prior, j) && ButtonScore(doc, j, innerHeight) > 0, make);
    cands := prior + roles;
  }

  function Generate(hostname: string, title: string, doc: seq<Element>, innerHeight: real): Generated {
    Generated(SiteId(hostname), ShortName(title), Choose(InputCandidates(doc, innerHeight)), Choose(ButtonCandidates(doc, innerHeight)))
  }

  /** The generator script: collect, then take the best candidate of each list. */
  method RunGenerator(hostname: string, title: string, doc: seq<Element>, innerHeight: real) returns (g: Generated)
    ensures g == Generate(hostname, title, doc, innerHeight)
  {
    var ins := CollectInputs(doc, innerHeight);
    var bts := CollectButtons(doc, innerHeight);
    var bi := PickBest(ins);
    var bb := PickBest(bts);
    var input := match bi case None => Choice(None, 0) case Some(k) => Choice(Some(ins[k].selector), ins[k].score);
    var send := match bb case None => Choice(None, 0) case Some(k) => Choice(Some(bts[k].selector), bts[k].score);
    g := Generated(SiteId(hostname), ShortName(title), input, send);
  }

  /** The selectors written into the configuration code, with the defaults for what was not found. */
  function ConfigSelectors(g: Generated): (r: (string, string))
    ensures g.input.selector.None? ==> r.0 == "textarea"
    ensures g.send.selector.None? ==> r.1 == "button[type=\"submit\"]"
    ensures g.input.selector.Some? ==> r.0 == Render(g.input.selector.value)
    ensures g.send.selector.Some? ==> r.1 == Render(g.send.selector.value)
  {
    (match g.input.selector case Some(s) => Render(s) case None => "textarea",
     match g.send.selector case Some(s) => Render(s) case None => "button[type=\"submit\"]")
  }

  /** The printed advice: a warning exactly when either confidence is below 50. */
  predicate LowConfidenceWarning(g: Generated) {
    g.input.confidence < 50 || g.send.confidence < 50
  }

  /** The warning is issued exactly when either confidence level is low; a generator that found nothing always warns. */
  lemma WarningMatchesLevels(g: Generated)
    ensures LowConfidenceWarning(g) <==> LevelOf(g.input.confidence) == Low || LevelOf(g.send.confidence) == Low
  {
  }

  lemma NothingFoundWarns(hostname: string, title: string, doc: seq<Element>, innerHeight: real)
    requires forall j :: 0 <= j < |doc| ==> !TextareaCandidate(doc[j]) && !EditableCandidate(doc[j]) && !TextboxCandidate(doc[j])
    ensures LowConfidenceWarning(Generate(hostname, title, doc, innerHeight))
    ensures ConfigSelectors(Generate(hostname, title, doc, innerHeight)).0 == "textarea"
  {
    var make := InputMaker(doc, innerHeight);
    CollectNone(doc, |doc|, (j: nat, e: Element) => TextareaCandidate(e), make);
    CollectNone(doc, |doc|, (j: nat, e: Element) => EditableCandidate(e), make);
    var prior := EarlyInputCandidates(doc, innerHeight);
    CollectNone(doc, |doc|, (j: nat, e: Element) => TextboxCandidate(e) && !Collected(prior, j), make);
    assert InputCandidates(doc, innerHeight) == [];
  }
}
