// The element picker injected into a chat page while the user configures
// it (selector-config/element-picker.js): two mutually exclusive picking
// modes, the click handler that turns the picked element into a selector
// and reports it, the completeness check that enables saving, and the
// fill-and-send test run with a configuration.

module ElementPicker {
  import opened Common
  import opened Dom
  import opened Css

  // ---------------------------------------------------------------------
  // Selector generation.

  /** The attributes tried, in order, after the id. */
  const SpecialAttrs: seq<string> := ["data-testid", "aria-label", "name", "placeholder", "role"]

  /** The first of `names` that the element carries with a non-empty value. */
  function FirstGivenAttr(e: Element, names: seq<string>): (r: Option<nat>)
    ensures r.Some? ==> r.value < |names| && AttrGiven(e, names[r.value])
                        && forall k :: 0 <= k < r.value ==> !AttrGiven(e, names[k])
    ensures r.None? ==> forall k :: 0 <= k < |names| ==> !AttrGiven(e, names[k])
  {
    if |names| == 0 then None
    else if AttrGiven(e, names[0]) then Some(0)
    else match FirstGivenAttr(e, names[1..])
      case None => None
      case Some(k) => Some(k + 1)
  }

  /** A class the selector may use: non-empty, and not a transient `is-`/`has-` state class. */
  predicate KeptClass(c: string) {
    c != "" && !StartsWith(c, "is-") && !StartsWith(c, "has-")
  }

  function KeptClasses(cs: seq<string>): (r: seq<string>)
    ensures |r| <= |cs|
    ensures forall c :: c in r <==> c in cs && KeptClass(c)
  {
    if |cs| == 0 then []
    else if KeptClass(cs[0]) then [cs[0]] + KeptClasses(cs[1..])
    else KeptClasses(cs[1..])
  }

  function TakeTwo(cs: seq<string>): (r: seq<string>)
    ensures r <= cs && |r| == if |cs| < 2 then |cs| else 2
  {
    cs[..if |cs| < 2 then |cs| else 2]
  }

  /**
   * `generateSelector`: `#id`; else `tag[attr="value"]` for the first
   * special attribute present; else `tag.c1(.c2)` when 1 to 3 classes are
   * kept; else `parent > tag:nth-child(k)`; else the tag.
   */
  function Generate(doc: seq<Element>, i: nat): (r: Selector)
    requires i < |doc|
    ensures doc[i].id != "" ==> r == Compound([IdSel(doc[i].id)])
    ensures doc[i].id == "" && FirstGivenAttr(doc[i], SpecialAttrs).Some? ==>
      var a := SpecialAttrs[FirstGivenAttr(doc[i], SpecialAttrs).value];
      r == AttrSelector(doc[i], a)
    ensures r.ChildOf? ==> ParentOf(doc, i).Some?
  {
    var e := doc[i];
    if e.id != "" then Compound([IdSel(e.id)])
    else match FirstGivenAttr(e, SpecialAttrs)
      case Some(k) => AttrSelector(e, SpecialAttrs[k])
      case None =>
        var kept := if e.svg then [] else KeptClasses(e.classes);
        if 0 < |kept| <= 3 then Compound([TypeSel(Lower(e.tag))] + ClassParts(TakeTwo(kept)))
        else match ParentOf(doc, i)
          case Some(p) => ChildOf([TypeSel(Lower(doc[p].tag))], [TypeSel(Lower(e.tag)), NthChild(ChildPosition(doc, i))])
          case None => Compound([TypeSel(Lower(e.tag))])
  }

  /** The picked element is matched by the selector generated for it. */
  lemma GeneratedSelectorMatchesPick(doc: seq<Element>, i: nat)
    requires i < |doc|
    ensures Matches(doc, i, Generate(doc, i))
  {
    var e := doc[i];
    var r := Generate(doc, i);
    if e.id == "" && FirstGivenAttr(e, SpecialAttrs).Some? {
      AttrSelectorMatches(doc, i, SpecialAttrs[FirstGivenAttr(e, SpecialAttrs).value]);
    } else if e.id == "" {
      var kept := if e.svg then [] else KeptClasses(e.classes);
      if 0 < |kept| <= 3 {
        var two := TakeTwo(kept);
        forall c | c in two ensures c in e.classes {
          assert c in kept;
        }
        ClassPartsMatch(doc, i, two);
        assert r.parts == [TypeSel(Lower(e.tag))] + ClassParts(two);
        forall k | 0 <= k < |r.parts| ensures SimpleMatches(doc, i, r.parts[k]) {
          if k > 0 {
            assert r.parts[k] == ClassParts(two)[k - 1];
          }
        }
      }
    }
  }

  // ---------------------------------------------------------------------
  // The picking state.

  predicate IsPanel(e: Element) { e.id == "ai-selector-panel" }

  /** The element lies inside the picker's own control panel. */
  predicate InPanel(doc: seq<Element>, i: nat)
    requires i < |doc|
  {
    Closest(doc, i, IsPanel).Some?
  }

  /** A `selectorSelected` message to the configuration page. */
  datatype PickMessage = PickMessage(kind: string, selector: string)

  class Picker {
    var pickingInput: bool
    var pickingSend: bool
    var highlighted: Option<nat>
    /** The input pick shown in the panel; `None` shows the "未选择" placeholder. */
    var inputInfo: Option<string>
    var sendInfo: Option<string>
    var saveEnabled: bool
    var sent: seq<PickMessage>

    /** At most one picking mode is on, and saving is enabled only once both picks are shown. */
    ghost predicate Valid()
      reads this
    {
      !(pickingInput && pickingSend) && (saveEnabled ==> inputInfo.Some? && sendInfo.Some?)
    }

    constructor()
      ensures Valid()
      ensures !pickingInput && !pickingSend && highlighted.None?
      ensures inputInfo.None? && sendInfo.None? && !saveEnabled && sent == []
    {
      pickingInput := false;
      pickingSend := false;
      highlighted := None;
      inputInfo := None;
      sendInfo := None;
      saveEnabled := false;
      sent := [];
    }

    method StartPickingInput()
      requires Valid()
      modifies this
      ensures Valid()
      ensures pickingInput && !pickingSend
      ensures highlighted == old(highlighted) && inputInfo == old(inputInfo) && sendInfo == old(sendInfo)
      ensures saveEnabled == old(saveEnabled) && sent == old(sent)
    {
      pickingInput := true;
      pickingSend := false;
    }

    method StartPickingSend()
      requires Valid()
      modifies this
      ensures Valid()
      ensures !pickingInput && pickingSend
      ensures highlighted == old(highlighted) && inputInfo == old(inputInfo) && sendInfo == old(sendInfo)
      ensures saveEnabled == old(saveEnabled) && sent == old(sent)
    {
      pickingInput := false;
      pickingSend := true;
    }

    /** `handleMouseMove`: highlight the element under the pointer, unless it belongs to the panel. */
    method HandleMouseMove(doc: seq<Element>, target: nat)
      requires Valid() && target < |doc|
      modifies this
      ensures Valid()
      ensures highlighted == (if (pickingInput || pickingSend) && !InPanel(doc, target) then Some(target) else old(highlighted))
      ensures pickingInput == old(pickingInput) && pickingSend == old(pickingSend)
      ensures inputInfo == old(inputInfo) && sendInfo == old(sendInfo) && saveEnabled == old(saveEnabled) && sent == old(sent)
    {
      if !pickingInput && !pickingSend {
        return;
      }
      if !IsPanel(doc[target]) && !InPanel(doc, target) {
        highlighted := Some(target);
      }
    }

    /** `checkComplete`: enable saving once both picks are shown. */
    method CheckComplete()
      requires Valid()
      modifies this
      ensures Valid()
      ensures saveEnabled == (old(saveEnabled) || (inputInfo.Some? && sendInfo.Some?))
      ensures pickingInput == old(pickingInput) && pickingSend == old(pickingSend) && highlighted == old(highlighted)
      ensures inputInfo == old(inputInfo) && sendInfo == old(sendInfo) && sent == old(sent)
    {
      if inputInfo.Some? && sendInfo.Some? {
        saveEnabled := true;
      }
    }

    /**
     * `handleClick`: outside picking, or on the panel, nothing happens;
     * otherwise the element's selector is shown and reported for the
     * current mode, which then ends.
     */
    method HandleClick(doc: seq<Element>, target: nat)
      requires Valid() && target < |doc|
      modifies this
      ensures Valid()
      ensures var sel := Render(Generate(doc, target));
        if !(old(pickingInput) || old(pickingSend)) || InPanel(doc, target) then
          pickingInput == old(pickingInput) && pickingSend == old(pickingSend) && highlighted == old(highlighted)
          && inputInfo == old(inputInfo) && sendInfo == old(sendInfo) && saveEnabled == old(saveEnabled) && sent == old(sent)
        else if old(pickingInput) then
          !pickingInput && !pickingSend && highlighted.None?
          && inputInfo == Some(sel) && sendInfo == old(sendInfo)
          && sent == old(sent) + [PickMessage("input", sel)]
          && saveEnabled == (old(saveEnabled) || sendInfo.Some?)
        else
          !pickingInput && !pickingSend && highlighted.None?
          && inputInfo == old(inputInfo) && sendInfo == Some(sel)
          && sent == old(sent) + [PickMessage("send", sel)]
          && saveEnabled == (old(saveEnabled) || inputInfo.Some?)
    {
      if !pickingInput && !pickingSend {
        return;
      }
      if InPanel(doc, target) {
        return;
      }
      var sel := Render(Generate(doc, target));
      if pickingInput {
        inputInfo := Some(sel);
        sent := sent + [PickMessage("input", sel)];
        pickingInput := false;
      } else if pickingSend {
        sendInfo := Some(sel);
        sent := sent + [PickMessage("send", sel)];
        pickingSend := false;
      }
      highlighted := None;
      CheckComplete();
    }
  }

  /** Picking the input and then the send button, outside the panel, enables saving. */
  method PickBoth(doc: seq<Element>, input: nat, button: nat) returns (p: Picker)
    requires input < |doc| && button < |doc| && !InPanel(doc, input) && !InPanel(doc, button)
    ensures p.Valid() && p.saveEnabled && !p.pickingInput && !p.pickingSend
    ensures p.sent == [PickMessage("input", Render(Generate(doc, input))), PickMessage("send", Render(Generate(doc, button)))]
  {
    p := new Picker();
    p.StartPickingInput();
    p.HandleClick(doc, input);
    p.StartPickingSend();
    p.HandleClick(doc, button);
  }

  // ---------------------------------------------------------------------
  // The test run.

  datatype TestOutcome = InputMissing | ButtonMissing | Clicked(button: nat) | Failed

  /** The test run's fill: value for a text control, text for an editable element, each followed by `input`. */
  function TestFilled(e: Element, text: string): (r: Element)
    ensures IsTextControl(e) ==> r.value == text && r.content == e.content
    ensures !IsTextControl(e) && EditableOrMarked(e) ==> r.content == Text(text) && r.value == e.value
    ensures !IsTextControl(e) && !EditableOrMarked(e) ==> r == e
    ensures r.tag == e.tag && r.attrs == e.attrs && r.classes == e.classes && r.parent == e.parent
  {
    if IsTextControl(e) then e.(value := text)
    else if EditableOrMarked(e) then e.(content := Text(text))
    else e
  }

  /**
   * `testFillAndSend`: a missing input stops before anything is filled; a
   * missing button stops after the input was filled; otherwise the button
   * is clicked.  A selector that does not parse ends the run with an error.
   */
  method TestFillAndSend(page: Page, text: string, inputSelector: string, sendSelector: string) returns (outcome: TestOutcome)
    modifies page
    ensures var q := Query(old(page.elems), page.engine, inputSelector);
      match q
      case SyntaxError => outcome == Failed && page.elems == old(page.elems) && page.log == old(page.log)
      case NoMatch => outcome == InputMissing && page.elems == old(page.elems) && page.log == old(page.log)
      case Match(i) =>
        var e := old(page.elems)[i];
        var filled := old(page.elems)[i := TestFilled(e, text)];
        var fired := if IsTextControl(e) || EditableOrMarked(e) then [Event(i, "input", Plain)] else [];
        page.elems == filled
        && match Query(filled, page.engine, sendSelector)
           case SyntaxError => outcome == Failed && page.log == old(page.log) + fired
           case NoMatch => outcome == ButtonMissing && page.log == old(page.log) + fired
           case Match(b) => outcome == Clicked(b) && page.log == old(page.log) + fired + [ClickOf(b)]
  {
    var q := Query(page.elems, page.engine, inputSelector);
    if q.SyntaxError? {
      return Failed;
    }
    if q.NoMatch? {
      return InputMissing;
    }
    var i := q.index;
    var e := page.elems[i];
    if IsTextControl(e) || EditableOrMarked(e) {
      page.Set(i, TestFilled(e, text));
      page.Dispatch(Event(i, "input", Plain));
    }
    var b := Query(page.elems, page.engine, sendSelector);
    if b.SyntaxError? {
      return Failed;
    }
    if b.NoMatch? {
      return ButtonMissing;
    }
    page.Dispatch(ClickOf(b.index));
    outcome := Clicked(b.index);
  }
}
