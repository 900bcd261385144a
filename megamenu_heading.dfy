/** The megamenu heading (`c4d-megamenu-heading`): an `h2` to `h6` chosen from
    `headingLevel`, holding a link when `href` is set and plain text otherwise, and a
    `has-content` class that follows whether the slot holds any text. */
module MegaMenuHeading {
  import opened Dom

  datatype HeadingTag = H2 | H3 | H4 | H5 | H6 {
    function Level(): int {
      match this
      case H2 => 2
      case H3 => 3
      case H4 => 4
      case H5 => 5
      case H6 => 6
    }

    function Name(): string {
      match this
      case H2 => "h2"
      case H3 => "h3"
      case H4 => "h4"
      case H5 => "h5"
      case H6 => "h6"
    }
  }

  /** The heading's content: the link template or the plain title. */
  datatype Inner =
    | Link(href: string, attribute1: string, attribute2: string, attribute3: string, text: string)
    | Plain(text: string)

  /** A rendered heading element: its tag, its `part`, whether `data-has-href` is set,
      and its content. */
  datatype Heading = Heading(tag: HeadingTag, part: string, hasHref: bool, inner: Inner)

  /** `renderLink`. */
  function RenderLink(href: string, title: string): Inner {
    Link(href, "headerNav", "FlatHdline", title, title)
  }

  /** `renderPlain`. */
  function RenderPlain(title: string): Inner {
    Plain(title)
  }

  /** `renderHeadingInner`: the link exactly when `href` is non-empty; the link points
      at `href` and is tagged with the title. */
  function RenderHeadingInner(href: string, title: string): (r: Inner)
    ensures r.Link? <==> href != ""
    ensures r.Link? ==> r.href == href && r.attribute3 == title && r.text == title
    ensures r.Plain? ==> r.text == title
  {
    if href != "" then RenderLink(href, title) else RenderPlain(title)
  }

  function HeadingOf(tag: HeadingTag, href: string, title: string): Heading {
    Heading(tag, "heading-" + tag.Name(), href != "", RenderHeadingInner(href, title))
  }

  /** `renderHeading`: levels 3 to 6 give `h3` to `h6`, every other level `h2`; the
      `part` names the tag, and `data-has-href` is set exactly when `href` is non-empty. */
  function RenderHeading(headingLevel: int, href: string, title: string): (r: Heading)
    ensures r.tag.Level() == if 3 <= headingLevel <= 6 then headingLevel else 2
    ensures r.part == "heading-" + r.tag.Name()
    ensures r.hasHref <==> href != ""
    ensures r.inner == RenderHeadingInner(href, title)
  {
    match headingLevel
    case 3 => HeadingOf(H3, href, title)
    case 4 => HeadingOf(H4, href, title)
    case 5 => HeadingOf(H5, href, title)
    case 6 => HeadingOf(H6, href, title)
    case _ => HeadingOf(H2, href, title)
  }

  /** `assignedNodes().filter(child => child?.textContent?.trim())`: the nodes whose
      text is not blank, in order; it is empty exactly when every node is blank. */
  function NodesWithText(nodes: seq<Node>): (r: seq<Node>)
    ensures |r| <= |nodes|
    ensures forall i :: 0 <= i < |r| ==> r[i] in nodes && Trim(r[i].textContent) != ""
    ensures |r| > 0 <==> exists i :: 0 <= i < |nodes| && Trim(nodes[i].textContent) != ""
    decreases |nodes|
  {
    if |nodes| == 0 then []
    else
      var rest := NodesWithText(nodes[1..]);
      assert forall i :: 0 <= i < |rest| ==> rest[i] in nodes;
      assert (exists i :: 0 <= i < |nodes[1..]| && Trim(nodes[1..][i].textContent) != "")
         ==> exists i :: 0 <= i < |nodes| && Trim(nodes[i].textContent) != "" by {
        if exists i :: 0 <= i < |nodes[1..]| && Trim(nodes[1..][i].textContent) != "" {
          var i :| 0 <= i < |nodes[1..]| && Trim(nodes[1..][i].textContent) != "";
          assert nodes[i + 1] == nodes[1..][i];
        }
      }
      assert (exists i :: 1 <= i < |nodes| && Trim(nodes[i].textContent) != "")
         ==> exists i :: 0 <= i < |nodes[1..]| && Trim(nodes[1..][i].textContent) != "" by {
        if exists i :: 1 <= i < |nodes| && Trim(nodes[i].textContent) != "" {
          var i :| 1 <= i < |nodes| && Trim(nodes[i].textContent) != "";
          assert nodes[1..][i - 1] == nodes[i];
        }
      }
      if Trim(nodes[0].textContent) != "" then [nodes[0]] + rest else rest
  }

  /** The class the heading toggles. */
  const HasContentClass := "has-content"

  class MegaMenuHeading {
    var href: string
    var title: string
    var headingLevel: int
    var className: string

    constructor (className: string)
      ensures href == "" && title == "" && headingLevel == 2
      ensures this.className == className
    {
      href := "";
      title := "";
      headingLevel := 2;
      this.className := className;
    }

    /** `_handleSlotChange`: `has-content` is on the element exactly when some
        assigned node has text that is not blank; no other class changes. */
    method HandleSlotChange(assignedNodes: seq<Node>)
      modifies this`className
      ensures className == Toggle(old(className), HasContentClass, |NodesWithText(assignedNodes)| > 0)
      ensures Contains(className, HasContentClass) <==>
        exists i :: 0 <= i < |assignedNodes| && Trim(assignedNodes[i].textContent) != ""
      ensures forall u :: u != HasContentClass ==> (Contains(className, u) <==> Contains(old(className), u))
    {
      var hasContent := |NodesWithText(assignedNodes)| > 0;
      assert ValidToken(HasContentClass);
      forall u ensures Contains(Toggle(className, HasContentClass, hasContent), u)
                       <==> if u == HasContentClass then hasContent else Contains(className, u) {
        ToggleContains(className, HasContentClass, hasContent, u);
      }
      className := Toggle(className, HasContentClass, hasContent);
    }
  }
}
