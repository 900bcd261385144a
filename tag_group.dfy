/** The tag group (`dds-tag-group`): when its slot changes it recolours the slotted
    Carbon tags (`bx-tag` elements) and Carbon React tags (elements with the
    `bx--tag` class) that carry no colour of their own to green. */
module TagGroup {
  import opened Dom

  function SelectorTag(prefix: string): string { prefix + "-tag" }
  function SelectorReactTag(prefix: string): string { prefix + "--tag" }

  /** The class the React tags are given. */
  function GreenClass(prefix: string): string { prefix + "--tag--green" }

  /** The colour-class pattern `^bx--tag--`, written with Carbon's default prefix. */
  const ColourClassPattern := "bx--tag--"

  /** A Carbon tag's attributes after recolouring: a missing or `gray` type becomes
      `green`; any other type, and every other attribute, is kept. */
  function CarbonColour(attributes: map<string, string>): (r: map<string, string>)
    ensures "type" in r && r["type"] != "gray"
    ensures r.Keys == attributes.Keys + {"type"}
    ensures forall name :: name in attributes && name != "type" ==> r[name] == attributes[name]
    ensures "type" in attributes && attributes["type"] != "gray" ==> r == attributes
    ensures "type" !in attributes || attributes["type"] == "gray" ==> r["type"] == "green"
  {
    if "type" !in attributes || attributes["type"] == "gray" then attributes["type" := "green"] else attributes
  }

  /** `className.split(' ').some(c => /^bx--tag--/.test(c))`. */
  predicate HasColourClass(className: string) {
    exists c :: c in Split(className, ' ') && StartsWith(c, ColourClassPattern)
  }

  lemma CarbonColourIdempotent(attributes: map<string, string>)
    ensures CarbonColour(CarbonColour(attributes)) == CarbonColour(attributes)
  {
  }

  /** A React tag's class attribute after recolouring: unchanged when some piece of
      it already starts with `bx--tag--`, otherwise `classList.add` of the green class. */
  function ReactColour(className: string, prefix: string): string
    requires NoWhitespace(prefix)
  {
    SuffixedToken(prefix, "--tag--green");
    if HasColourClass(className) then className else Add(className, GreenClass(prefix))
  }

  /** A class string with a `bx--tag--` piece is left as it is; any other gains the
      green class and keeps exactly the classes it had. */
  lemma ReactColourClasses(className: string, prefix: string)
    requires NoWhitespace(prefix)
    ensures HasColourClass(className) ==> ReactColour(className, prefix) == className
    ensures !HasColourClass(className) ==>
      forall u :: Contains(ReactColour(className, prefix), u) <==> u == GreenClass(prefix) || Contains(className, u)
  {
    if !HasColourClass(className) {
      SuffixedToken(prefix, "--tag--green");
      forall u ensures Contains(Add(className, GreenClass(prefix)), u) <==> u == GreenClass(prefix) || Contains(className, u) {
        AddContains(className, GreenClass(prefix), u);
      }
    }
  }

  /** Recolouring a React tag twice is recolouring it once, whatever the prefix:
      the second pass either finds a `bx--tag--` class or finds the green class
      already in the list, and re-serialising the list gives back the same string. */
  lemma ReactColourIdempotent(className: string, prefix: string)
    requires NoWhitespace(prefix)
    ensures ReactColour(ReactColour(className, prefix), prefix) == ReactColour(className, prefix)
  {
    if !HasColourClass(className) {
      var green := GreenClass(prefix);
      SuffixedToken(prefix, "--tag--green");
      var toks := TokenSet(className);
      var next := if green in toks then toks else toks + [green];
      TokenSetValid(className);
      assert Distinct(next);
      TokenSetSerialize(next);
      var r := ReactColour(className, prefix);
      assert r == Serialize(next);
      if !HasColourClass(r) {
        assert TokenSet(r) == next;
        assert green in next;
        assert Add(r, green) == r;
      }
    }
  }

  /** With Carbon's default prefix the green class itself matches `^bx--tag--`, so
      a recoloured React tag carries a colour class and the next pass skips it. */
  lemma GreenIsColourClass(className: string)
    ensures HasColourClass(ReactColour(className, "bx"))
  {
    if !HasColourClass(className) {
      var green := GreenClass("bx");
      SuffixedToken("bx", "--tag--green");
      var toks := TokenSet(className);
      var next := if green in toks then toks else toks + [green];
      TokenSetValid(className);
      assert Distinct(next);
      assert forall i :: 0 <= i < |next| ==> ' ' !in next[i];
      SplitJoin(next, ' ');
      assert ReactColour(className, "bx") == Serialize(next);
      GreenStartsWithPattern();
      assert green in Split(ReactColour(className, "bx"), ' ');
    }
  }

  lemma GreenStartsWithPattern()
    ensures StartsWith(GreenClass("bx"), ColourClassPattern)
  {
    assert GreenClass("bx") == "bx--tag--green";
    assert "bx--tag--green"[..9] == "bx--tag--";
  }

  predicate IsCarbonTag(n: Node, prefix: string) {
    MatchesTag(n, SelectorTag(prefix))
  }

  /** `classList?.contains?.(selectorReactTag)`: only elements have a class list. */
  predicate IsReactTag(n: Node, className: string, prefix: string) {
    n.nodeType == ElementNode && Contains(className, SelectorReactTag(prefix))
  }

  /** What the slot-change handler does to one node's attributes. */
  function RecolouredAttributes(n: Node, prefix: string, attributes: map<string, string>): map<string, string> {
    if IsCarbonTag(n, prefix) then CarbonColour(attributes) else attributes
  }

  /** What the slot-change handler does to one node's class attribute. */
  function RecolouredClassName(n: Node, prefix: string, className: string): string
    requires NoWhitespace(prefix)
  {
    if IsReactTag(n, className, prefix) then ReactColour(className, prefix) else className
  }

  /** Recolouring keeps a React tag a React tag. */
  lemma RecolouringKeepsReactTag(n: Node, prefix: string, className: string)
    requires NoWhitespace(prefix)
    ensures IsReactTag(n, RecolouredClassName(n, prefix, className), prefix) <==> IsReactTag(n, className, prefix)
  {
    if IsReactTag(n, className, prefix) && !HasColourClass(className) {
      ReactColourClasses(className, prefix);
      assert Contains(ReactColour(className, prefix), SelectorReactTag(prefix));
    }
  }

  /** Running the handler twice over a node leaves it as running it once. */
  lemma RecolouringIdempotent(n: Node, prefix: string, attributes: map<string, string>, className: string)
    requires NoWhitespace(prefix)
    ensures RecolouredAttributes(n, prefix, RecolouredAttributes(n, prefix, attributes))
            == RecolouredAttributes(n, prefix, attributes)
    ensures RecolouredClassName(n, prefix, RecolouredClassName(n, prefix, className))
            == RecolouredClassName(n, prefix, className)
  {
    RecolouringKeepsReactTag(n, prefix, className);
    if IsReactTag(n, className, prefix) {
      ReactColourIdempotent(className, prefix);
    }
  }

  /** After the handler every Carbon tag has a `type`, and it is not `gray`. */
  lemma CarbonTagsColoured(n: Node, prefix: string, attributes: map<string, string>)
    requires IsCarbonTag(n, prefix)
    ensures var r := RecolouredAttributes(n, prefix, attributes); "type" in r && r["type"] != "gray"
  {
  }

  class TagGroup {
    const prefix: string
    var attributes: map<string, string>

    constructor (prefix: string, attributes: map<string, string>)
      ensures this.prefix == prefix && this.attributes == attributes
    {
      this.prefix := prefix;
      this.attributes := attributes;
    }

    /** `connectedCallback`: the group is a list. */
    method ConnectedCallback()
      modifies this`attributes
      ensures attributes == old(attributes)["role" := "list"]
    {
      attributes := attributes["role" := "list"];
    }

    /** `_handleSlotChange`: recolours the Carbon tags, then the React tags, among the
        assigned nodes. */
    method HandleSlotChange(assignedNodes: seq<Node>)
      requires NoWhitespace(prefix)
      modifies assignedNodes
      ensures forall j :: 0 <= j < |assignedNodes| ==>
        && assignedNodes[j].attributes == RecolouredAttributes(assignedNodes[j], prefix, old(assignedNodes[j].attributes))
        && assignedNodes[j].className == RecolouredClassName(assignedNodes[j], prefix, old(assignedNodes[j].className))
        && assignedNodes[j].open == old(assignedNodes[j].open)
    {
      RecolourCarbonTags(assignedNodes);
      RecolourReactTags(assignedNodes);
    }

    /** `carbonTags.forEach(...)`. A node listed twice ends as if listed once, as
        recolouring is idempotent. */
    method RecolourCarbonTags(nodes: seq<Node>)
      modifies nodes
      ensures forall j :: 0 <= j < |nodes| ==>
        && nodes[j].attributes == RecolouredAttributes(nodes[j], prefix, old(nodes[j].attributes))
        && nodes[j].className == old(nodes[j].className) && nodes[j].open == old(nodes[j].open)
    {
      var i := 0;
      while i < |nodes|
        invariant 0 <= i <= |nodes|
        invariant forall j :: 0 <= j < |nodes| ==>
          || nodes[j].attributes == old(nodes[j].attributes)
          || nodes[j].attributes == RecolouredAttributes(nodes[j], prefix, old(nodes[j].attributes))
        invariant forall j :: 0 <= j < i ==>
          nodes[j].attributes == RecolouredAttributes(nodes[j], prefix, old(nodes[j].attributes))
        invariant forall j :: 0 <= j < |nodes| ==>
          nodes[j].className == old(nodes[j].className) && nodes[j].open == old(nodes[j].open)
      {
        var elem := nodes[i];
        CarbonColourIdempotent(old(elem.attributes));
        RecolourCarbonTag(elem);
        i := i + 1;
      }
    }

    /** `carbonReactTags.forEach(...)`. The filter is evaluated node by node; that
        agrees with filtering first, as the Carbon pass leaves classes alone and
        recolouring keeps a React tag a React tag. */
    method RecolourReactTags(nodes: seq<Node>)
      requires NoWhitespace(prefix)
      modifies nodes
      ensures forall j :: 0 <= j < |nodes| ==>
        && nodes[j].className == RecolouredClassName(nodes[j], prefix, old(nodes[j].className))
        && nodes[j].attributes == old(nodes[j].attributes) && nodes[j].open == old(nodes[j].open)
    {
      var i := 0;
      while i < |nodes|
        invariant 0 <= i <= |nodes|
        invariant forall j :: 0 <= j < |nodes| ==>
          || nodes[j].className == old(nodes[j].className)
          || nodes[j].className == RecolouredClassName(nodes[j], prefix, old(nodes[j].className))
        invariant forall j :: 0 <= j < i ==>
          nodes[j].className == RecolouredClassName(nodes[j], prefix, old(nodes[j].className))
        invariant forall j :: 0 <= j < |nodes| ==>
          nodes[j].attributes == old(nodes[j].attributes) && nodes[j].open == old(nodes[j].open)
      {
        var elem := nodes[i];
        RecolouringIdempotent(elem, prefix, old(elem.attributes), old(elem.className));
        RecolourReactTag(elem);
        i := i + 1;
      }
    }

    /** The Carbon-tag callback on one element. */
    method RecolourCarbonTag(elem: Node)
      modifies elem
      ensures elem.attributes == RecolouredAttributes(elem, prefix, old(elem.attributes))
      ensures elem.className == old(elem.className) && elem.open == old(elem.open)
    {
      if IsCarbonTag(elem, prefix) {
        if "type" !in elem.attributes || elem.attributes["type"] == "gray" {
          elem.attributes := elem.attributes["type" := "green"];
        }
      }
    }

    /** The React-tag callback on one element: the filter's test, then the colour check. */
    method RecolourReactTag(elem: Node)
      requires NoWhitespace(prefix)
      modifies elem
      ensures elem.className == RecolouredClassName(elem, prefix, old(elem.className))
      ensures elem.attributes == old(elem.attributes) && elem.open == old(elem.open)
    {
      if elem.nodeType == ElementNode && Contains(elem.className, SelectorReactTag(prefix)) {
        if !HasColourClass(elem.className) {
          SuffixedToken(prefix, "--tag--green");
          elem.className := Add(elem.className, GreenClass(prefix));
        }
      }
    }
  }
}
