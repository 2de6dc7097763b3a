/**
 * The navigation menu: a toggle button whose `aria-expanded` attribute says
 * whether the dropdown is open, and the dropdown's `hidden` flag. Three click
 * handlers change them: the button's, the document's (a click outside the
 * menu closes it) and the dropdown's (choosing a link closes it).
 *
 * `MenuState` holds the two values; `Toggle`, `DocumentClick` and
 * `DropdownClick` are the handlers as functions on it, and the class
 * `MenuToggle` keeps the two as fields updated in place by one method per
 * handler.
 */
module Menu {
  import opened Wrappers

  /** The button's `aria-expanded` attribute (`None` while it is absent)
      and the dropdown's `hidden` flag. */
  datatype MenuState = MenuState(ariaExpanded: Option<string>, hidden: bool)

  /** `btn.getAttribute('aria-expanded') === 'true'`. */
  predicate Expanded(s: MenuState) {
    s.ariaExpanded == Some("true")
  }

  /** The attribute and the flag agree: hidden exactly when not expanded. */
  predicate Consistent(s: MenuState) {
    s.hidden == !Expanded(s)
  }

  /** Open, as far as the page can tell: shown, with the attribute `'true'`. */
  predicate IsOpen(s: MenuState) {
    !s.hidden && s.ariaExpanded == Some("true")
  }

  /** Closed the way the handlers close it: hidden, with the attribute
      `'false'`. */
  predicate IsClosed(s: MenuState) {
    s.hidden && s.ariaExpanded == Some("false")
  }

  /** The button's click handler: it writes the negation of what it read as
      the attribute's text, and hides the dropdown exactly when it read
      "expanded". Whatever the state before, the result is consistent and
      its expansion is flipped. */
  function Toggle(s: MenuState): (t: MenuState)
    ensures Expanded(t) == !Expanded(s)
    ensures t.hidden == Expanded(s)
    ensures Consistent(t)
    ensures t.ariaExpanded == Some("true") || t.ariaExpanded == Some("false")
  {
    var expanded := s.ariaExpanded == Some("true");
    MenuState(Some(if !expanded then "true" else "false"), expanded)
  }

  /** The document's click handler: a click outside the menu while the
      dropdown is shown closes it; any other click changes nothing. */
  function DocumentClick(s: MenuState, insideMenu: bool): (t: MenuState)
    ensures !s.hidden && !insideMenu ==> IsClosed(t)
    ensures s.hidden || insideMenu ==> t == s
  {
    if !s.hidden && !insideMenu then MenuState(Some("false"), true) else s
  }

  /** The dropdown's click handler: a click on a link (`tagName` `'A'`)
      closes the menu; a click on anything else in it changes nothing. */
  function DropdownClick(s: MenuState, tagName: string): (t: MenuState)
    ensures tagName == "A" ==> IsClosed(t)
    ensures tagName != "A" ==> t == s
  {
    if tagName == "A" then MenuState(Some("false"), true) else s
  }

  /** Two button clicks in a row give back a consistent state whose
      attribute already held one of the two texts the button writes. */
  lemma ToggleTwice(s: MenuState)
    requires Consistent(s)
    requires s.ariaExpanded == Some("true") || s.ariaExpanded == Some("false")
    ensures Toggle(Toggle(s)) == s
  {
  }

  /** Whatever the attribute held, a button click opens the menu or closes
      it, and the next one does the opposite. */
  lemma ToggleOpensOrCloses(s: MenuState)
    ensures IsOpen(Toggle(s)) <==> !Expanded(s)
    ensures IsClosed(Toggle(s)) <==> Expanded(s)
    ensures IsOpen(Toggle(s)) ==> IsClosed(Toggle(Toggle(s)))
    ensures IsClosed(Toggle(s)) ==> IsOpen(Toggle(Toggle(s)))
  {
  }

  /** All three handlers keep the attribute and the flag in agreement. */
  lemma HandlersKeepConsistent(s: MenuState, insideMenu: bool, tagName: string)
    requires Consistent(s)
    ensures Consistent(Toggle(s))
    ensures Consistent(DocumentClick(s, insideMenu))
    ensures Consistent(DropdownClick(s, tagName))
  {
  }

  /** Opening the menu and then clicking outside it closes it again. */
  lemma OpenThenClickOutside(s: MenuState)
    requires !Expanded(s)
    ensures IsClosed(DocumentClick(Toggle(s), false))
  {
  }

  /** Once closed, the menu stays closed under every click but the button's. */
  lemma ClosedStaysClosed(s: MenuState, insideMenu: bool, tagName: string)
    requires IsClosed(s)
    ensures DocumentClick(s, insideMenu) == s
    ensures IsClosed(DropdownClick(s, tagName))
  {
  }

  /** The button and the dropdown, with the two values as fields. */
  class MenuToggle {
    var ariaExpanded: Option<string>
    var hidden: bool

    function State(): MenuState
      reads this
    {
      MenuState(ariaExpanded, hidden)
    }

    /** The menu as the page delivers it. */
    constructor(ariaExpanded: Option<string>, hidden: bool)
      ensures State() == MenuState(ariaExpanded, hidden)
    {
      this.ariaExpanded := ariaExpanded;
      this.hidden := hidden;
    }

    /** The button's click handler, in place. */
    method ButtonClick()
      modifies this
      ensures State() == Toggle(old(State()))
    {
      var expanded := ariaExpanded == Some("true");
      ariaExpanded := Some(if !expanded then "true" else "false");
      hidden := expanded;
    }

    /** The document's click handler, in place; `insideMenu` is whether the
        click target lies inside the `.menu` element. */
    method OnDocumentClick(insideMenu: bool)
      modifies this
      ensures State() == DocumentClick(old(State()), insideMenu)
    {
      if !hidden && !insideMenu {
        hidden := true;
        ariaExpanded := Some("false");
      }
    }

    /** The dropdown's click handler, in place; `tagName` is the click
        target's tag. */
    method OnDropdownClick(tagName: string)
      modifies this
      ensures State() == DropdownClick(old(State()), tagName)
    {
      if tagName == "A" {
        hidden := true;
        ariaExpanded := Some("false");
      }
    }
  }
}
