/** The header's menu button (`bx-header-menu-button`), which opens the side navs
    inside it and renders its label, classes and icon from `active`. */
module HeaderMenuButton {
  import opened Wrappers
  import opened Dom

  datatype Icon = Close20 | Menu20

  /** What `render` produces for the inner `<button>`. */
  datatype ButtonView = ButtonView(classes: string, disabled: bool, ariaLabel: Option<string>, icon: Icon)

  /** The selector of the navs whose `open` state the button drives. */
  function SelectorNav(prefix: string): string {
    prefix + "-side-nav"
  }

  function ActionClass(prefix: string): string { prefix + "--header__action" }
  function MenuTriggerClass(prefix: string): string { prefix + "--header__menu-trigger" }
  function MenuToggleClass(prefix: string): string { prefix + "--header__menu-toggle" }
  function ActiveClass(prefix: string): string { prefix + "--header__action--active" }

  function BaseClasses(prefix: string): seq<string> {
    [ActionClass(prefix), MenuTriggerClass(prefix), MenuToggleClass(prefix)]
  }

  /** `classnames('<three base classes>', { '<active class>': active })`: the
      truthy arguments joined by single spaces. */
  function Classes(prefix: string, active: bool): string {
    var base := ActionClass(prefix) + " " + MenuTriggerClass(prefix) + " " + MenuToggleClass(prefix);
    if active then base + " " + ActiveClass(prefix) else base
  }

  /** `render`: the label and the icon follow `active`, `disabled` is passed through. */
  function Render(prefix: string, active: bool, disabled: bool,
                  buttonLabelActive: Option<string>, buttonLabelInactive: Option<string>): (v: ButtonView)
    ensures v.ariaLabel == if active then buttonLabelActive else buttonLabelInactive
    ensures v.icon == if active then Close20 else Menu20
    ensures v.disabled == disabled
  {
    ButtonView(Classes(prefix, active), disabled,
               if active then buttonLabelActive else buttonLabelInactive,
               if active then Close20 else Menu20)
  }

  lemma ClassNamesValid(prefix: string)
    requires NoWhitespace(prefix)
    ensures ValidToken(ActionClass(prefix)) && ValidToken(MenuTriggerClass(prefix))
    ensures ValidToken(MenuToggleClass(prefix)) && ValidToken(ActiveClass(prefix))
  {
    SuffixedToken(prefix, "--header__action");
    SuffixedToken(prefix, "--header__menu-trigger");
    SuffixedToken(prefix, "--header__menu-toggle");
    SuffixedToken(prefix, "--header__action--active");
  }

  /** Four valid tokens joined by single spaces read back as those tokens, and so
      do the first three. */
  lemma TokensOfFour(a: string, b: string, c: string, d: string)
    requires ValidToken(a) && ValidToken(b) && ValidToken(c) && ValidToken(d)
    ensures Tokens(a + " " + b + " " + c) == [a, b, c]
    ensures Tokens(a + " " + b + " " + c + " " + d) == [a, b, c, d]
  {
    TokensWord(a);
    TokensWord(b);
    TokensWord(c);
    TokensWord(d);
    TokensSpaceConcat(a, b);
    TokensSpaceConcat(a + " " + b, c);
    TokensSpaceConcat(a + " " + b + " " + c, d);
  }

  lemma ClassesTokens(prefix: string, active: bool)
    requires NoWhitespace(prefix)
    ensures Tokens(Classes(prefix, active)) == BaseClasses(prefix) + (if active then [ActiveClass(prefix)] else [])
  {
    ClassNamesValid(prefix);
    TokensOfFour(ActionClass(prefix), MenuTriggerClass(prefix), MenuToggleClass(prefix), ActiveClass(prefix));
  }

  /** The rendered class list is the three base classes, followed by the active
      class exactly when the button is active. */
  lemma RenderedClassList(prefix: string, active: bool)
    requires NoWhitespace(prefix)
    ensures TokenSet(Classes(prefix, active)) == BaseClasses(prefix) + (if active then [ActiveClass(prefix)] else [])
  {
    var toks := BaseClasses(prefix) + (if active then [ActiveClass(prefix)] else []);
    ClassesTokens(prefix, active);
    assert |ActionClass(prefix)| == |prefix| + 16 && |MenuTriggerClass(prefix)| == |prefix| + 22;
    assert |MenuToggleClass(prefix)| == |prefix| + 21 && |ActiveClass(prefix)| == |prefix| + 24;
    DedupOfDistinct(toks);
  }

  /** Hence the active class is on the button exactly when `active`, and the three
      base classes always are. */
  lemma ActiveClassIffActive(prefix: string, active: bool, disabled: bool,
                             labelActive: Option<string>, labelInactive: Option<string>)
    requires NoWhitespace(prefix)
    ensures var v := Render(prefix, active, disabled, labelActive, labelInactive);
            && (Contains(v.classes, ActiveClass(prefix)) <==> active)
            && forall c :: c in BaseClasses(prefix) ==> Contains(v.classes, c)
  {
    RenderedClassList(prefix, active);
    assert |ActiveClass(prefix)| == |prefix| + 24;
  }

  class HeaderMenuButton {
    const prefix: string
    var active: bool
    var buttonLabelActive: Option<string>
    var buttonLabelInactive: Option<string>
    var disabled: bool
    /** The element's descendants in document order, which `querySelectorAll` searches. */
    var descendants: seq<Node>

    constructor (prefix: string, descendants: seq<Node>)
      ensures this.prefix == prefix && this.descendants == descendants
      ensures !active && !disabled
      ensures buttonLabelActive == None && buttonLabelInactive == None
    {
      this.prefix := prefix;
      this.descendants := descendants;
      active := false;
      buttonLabelActive := None;
      buttonLabelInactive := None;
      disabled := false;
    }

    /** `_handleClick`: computes `!active`, writes its negation back (so `active` keeps
        its value) and sets every side nav's `open` to the computed value. */
    method HandleClick()
      modifies this`active, descendants
      ensures active == old(active)
      ensures forall j :: 0 <= j < |descendants| ==>
        descendants[j].open == if MatchesTag(descendants[j], SelectorNav(prefix)) then !old(active)
                               else old(descendants[j].open)
      ensures forall j :: 0 <= j < |descendants| ==>
        descendants[j].attributes == old(descendants[j].attributes)
        && descendants[j].className == old(descendants[j].className)
    {
      var a := !active;
      active := !a;
      var selector := SelectorNav(prefix);
      var i := 0;
      while i < |descendants|
        invariant 0 <= i <= |descendants|
        invariant active == old(active)
        invariant forall j :: 0 <= j < i && MatchesTag(descendants[j], selector) ==> descendants[j].open == a
        invariant forall j :: 0 <= j < |descendants| && !MatchesTag(descendants[j], selector) ==>
          descendants[j].open == old(descendants[j].open)
        invariant forall j :: 0 <= j < |descendants| ==>
          descendants[j].attributes == old(descendants[j].attributes)
          && descendants[j].className == old(descendants[j].className)
      {
        var nav := descendants[i];
        if MatchesTag(nav, selector) {
          nav.open := a;
        }
        i := i + 1;
      }
    }
  }
}
