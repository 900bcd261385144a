/** The chat button (`cds-chat-button`): quick-action mode forces a small ghost
    button, other sizes are capped at LARGE, and the inner button's class string is
    built from three flags in a fixed order. */
module ChatButton {
  import opened Dom

  /** `CHAT_BUTTON_KIND`: the two kinds the component names, and every other one. */
  datatype Kind = Primary | Ghost | OtherKind(value: string)

  /** `CHAT_BUTTON_SIZE`: the three sizes the component allows, and any other size
      value (a larger one such as `xl`). */
  datatype Size = Small | Medium | Large | OtherSize(value: string)

  /** `allowedSizes.includes(size)`. */
  predicate AllowedSize(size: Size) {
    size == Small || size == Medium || size == Large
  }

  /** The kind `render` leaves in place. */
  function NormalizedKind(kind: Kind, isQuickAction: bool): (r: Kind)
    ensures isQuickAction ==> r == Ghost
    ensures !isQuickAction ==> r == kind
  {
    if isQuickAction then Ghost else kind
  }

  /** The size `render` leaves in place: always an allowed size, SMALL in
      quick-action mode, otherwise the size itself when allowed and LARGE when not. */
  function NormalizedSize(size: Size, isQuickAction: bool): (r: Size)
    ensures AllowedSize(r)
    ensures isQuickAction ==> r == Small
    ensures !isQuickAction ==> r == if AllowedSize(size) then size else Large
  {
    if isQuickAction then Small else if AllowedSize(size) then size else Large
  }

  /** Rendering again changes nothing: the normalisation is idempotent. */
  lemma NormalizationIdempotent(kind: Kind, size: Size, isQuickAction: bool)
    ensures NormalizedKind(NormalizedKind(kind, isQuickAction), isQuickAction) == NormalizedKind(kind, isQuickAction)
    ensures NormalizedSize(NormalizedSize(size, isQuickAction), isQuickAction) == NormalizedSize(size, isQuickAction)
  {
  }

  function BaseClass(prefix: string): string { prefix + "--chat-btn" }
  function WithIconClass(prefix: string): string { prefix + "--chat-btn--with-icon" }
  function QuickActionClass(prefix: string): string { prefix + "--chat-btn--quick-action" }
  function SelectedClass(prefix: string): string { prefix + "--chat-btn--quick-action--selected" }

  /** The classes of the inner button, in order: the base class, then the icon,
      quick-action and selected classes for the flags that are set. */
  function ClassTokens(prefix: string, hasIcon: bool, isQuickAction: bool, isSelected: bool): seq<string> {
    [BaseClass(prefix)]
    + (if hasIcon then [WithIconClass(prefix)] else [])
    + (if isQuickAction then [QuickActionClass(prefix)] else [])
    + (if isSelected then [SelectedClass(prefix)] else [])
  }

  lemma ClassTokensWellFormed(prefix: string, hasIcon: bool, isQuickAction: bool, isSelected: bool)
    requires NoWhitespace(prefix)
    ensures var toks := ClassTokens(prefix, hasIcon, isQuickAction, isSelected);
            && Distinct(toks)
            && forall i :: 0 <= i < |toks| ==> ValidToken(toks[i]) && ' ' !in toks[i]
  {
    SuffixedToken(prefix, "--chat-btn");
    SuffixedToken(prefix, "--chat-btn--with-icon");
    SuffixedToken(prefix, "--chat-btn--quick-action");
    SuffixedToken(prefix, "--chat-btn--quick-action--selected");
    assert |BaseClass(prefix)| == |prefix| + 10 && |WithIconClass(prefix)| == |prefix| + 21;
    assert |QuickActionClass(prefix)| == |prefix| + 24 && |SelectedClass(prefix)| == |prefix| + 34;
  }

  /** The class string as the `classList` and as `split(' ')` see it: exactly the
      tokens of `ClassTokens`, in order, each once. The base class always comes
      first, and each flag's class is present exactly when the flag is set. */
  lemma ClassStringTokens(prefix: string, hasIcon: bool, isQuickAction: bool, isSelected: bool)
    requires NoWhitespace(prefix)
    ensures var toks := ClassTokens(prefix, hasIcon, isQuickAction, isSelected);
            && Split(Serialize(toks), ' ') == toks
            && TokenSet(Serialize(toks)) == toks
            && toks[0] == BaseClass(prefix)
            && (WithIconClass(prefix) in toks <==> hasIcon)
            && (QuickActionClass(prefix) in toks <==> isQuickAction)
            && (SelectedClass(prefix) in toks <==> isSelected)
  {
    var toks := ClassTokens(prefix, hasIcon, isQuickAction, isSelected);
    ClassTokensWellFormed(prefix, hasIcon, isQuickAction, isSelected);
    SplitJoin(toks, ' ');
    TokenSetSerialize(toks);
    assert |BaseClass(prefix)| == |prefix| + 10 && |WithIconClass(prefix)| == |prefix| + 21;
    assert |QuickActionClass(prefix)| == |prefix| + 24 && |SelectedClass(prefix)| == |prefix| + 34;
  }

  /** A slotted node that makes the button an icon button: any node that is not
      text, or text that is not blank once trimmed. */
  predicate IsIconNode(n: Node) {
    n.nodeType != TextNode || Trim(n.textContent) != ""
  }

  /** `assignedNodes().some(IsIconNode)`. */
  function HasIcon(nodes: seq<Node>): (r: bool)
    ensures r <==> exists i :: 0 <= i < |nodes| && IsIconNode(nodes[i])
    decreases |nodes|
  {
    if |nodes| == 0 then false
    else if IsIconNode(nodes[0]) then true
    else
      var r := HasIcon(nodes[1..]);
      assert r ==> exists i :: 0 <= i < |nodes| && IsIconNode(nodes[i]) by {
        if r {
          var i :| 0 <= i < |nodes[1..]| && IsIconNode(nodes[1..][i]);
          assert nodes[i + 1] == nodes[1..][i];
        }
      }
      assert (exists i :: 0 <= i < |nodes| && IsIconNode(nodes[i])) ==> r by {
        if exists i :: 0 <= i < |nodes| && IsIconNode(nodes[i]) {
          var i :| 0 <= i < |nodes| && IsIconNode(nodes[i]);
          assert i > 0 && nodes[1..][i - 1] == nodes[i];
        }
      }
      r
  }

  /** A text node counts as an icon exactly when it holds a character other than
      JavaScript whitespace. */
  lemma TextIconNode(n: Node)
    requires n.nodeType == TextNode
    ensures IsIconNode(n) <==> exists k :: 0 <= k < |n.textContent| && !IsJsWhitespace(n.textContent[k])
  {
    TrimNonEmpty(n.textContent);
  }

  /** The attributes `render` hands to the inner `cds-button`. */
  datatype ChatButtonView = ChatButtonView(buttonClassName: string, size: Size, kind: Kind, disabled: bool)

  class ChatButton {
    const prefix: string
    var hasIcon: bool
    var disabled: bool
    var kind: Kind
    var size: Size
    var isQuickAction: bool
    var isSelected: bool

    constructor (prefix: string)
      ensures this.prefix == prefix
      ensures !hasIcon && !disabled && kind == Primary && size == Large && !isQuickAction && !isSelected
    {
      this.prefix := prefix;
      hasIcon := false;
      disabled := false;
      kind := Primary;
      size := Large;
      isQuickAction := false;
      isSelected := false;
    }

    /** `_handleSlotChange` on the icon slot. */
    method HandleSlotChange(assignedNodes: seq<Node>)
      modifies this`hasIcon
      ensures hasIcon == HasIcon(assignedNodes)
    {
      hasIcon := HasIcon(assignedNodes);
    }

    /** `render`: normalises `kind` and `size` in place and builds the class string. */
    method Render() returns (view: ChatButtonView)
      modifies this`kind, this`size
      ensures kind == NormalizedKind(old(kind), isQuickAction)
      ensures size == NormalizedSize(old(size), isQuickAction)
      ensures view == ChatButtonView(Serialize(ClassTokens(prefix, hasIcon, isQuickAction, isSelected)), size, kind, disabled)
    {
      if isQuickAction {
        kind := Ghost;
        size := Small;
      } else {
        size := if AllowedSize(size) then size else Large;
      }
      ghost var toks := [BaseClass(prefix)];
      var classes := BaseClass(prefix);
      if hasIcon {
        JoinSnoc(toks, " ", WithIconClass(prefix));
        toks := toks + [WithIconClass(prefix)];
        classes := classes + " " + WithIconClass(prefix);
      }
      if isQuickAction {
        JoinSnoc(toks, " ", QuickActionClass(prefix));
        toks := toks + [QuickActionClass(prefix)];
        classes := classes + " " + QuickActionClass(prefix);
      }
      if isSelected {
        JoinSnoc(toks, " ", SelectedClass(prefix));
        toks := toks + [SelectedClass(prefix)];
        classes := classes + " " + SelectedClass(prefix);
      }
      assert toks == ClassTokens(prefix, hasIcon, isQuickAction, isSelected);
      view := ChatButtonView(classes, size, kind, disabled);
    }
  }
}
