/** The tooltip trigger (`bx-tooltip`): an `open` flag driven by click, key and
    focus-out events, mirrored after each update into `aria-expanded` and into the
    `open` property of the floating menu found among its children. */
module Tooltip {
  import opened Wrappers
  import opened Dom

  /** What `_handleClick` receives as `forceState`: nothing, a boolean, or (when the
      host listener calls it) the DOM event object, which `Boolean` casts to `true`. */
  datatype ClickArgument = NoArgument | Flag(b: bool) | EventObject

  /** The host events the tooltip listens to. */
  datatype Event = Click | Keydown(key: string) | Focusout

  /** The keys that toggle the tooltip. */
  predicate IsToggleKey(key: string) {
    key == " " || key == "Enter"
  }

  predicate IsToggle(e: Event) {
    e == Click || (e.Keydown? && IsToggleKey(e.key))
  }

  predicate IsClosing(e: Event) {
    e == Focusout || e == Keydown("Escape")
  }

  /** `open` after `_handleClick(arg)`: no argument flips it, any other argument
      sets it to `Boolean(arg)`. */
  function AfterClick(open: bool, arg: ClickArgument): bool {
    match arg
    case NoArgument => !open
    case Flag(b) => b
    case EventObject => true
  }

  /** The `_handleClick` call each event makes AS WRITTEN: the host listener calls the
      click handler with the event itself, as it calls the keydown handler. */
  function ClickCallAsWritten(e: Event): Option<ClickArgument> {
    match e
    case Click => Some(EventObject)
    case Keydown(key) =>
      if IsToggleKey(key) then Some(NoArgument)
      else if key == "Escape" then Some(Flag(false))
      else None
    case Focusout => Some(Flag(false))
  }

  /** The `_handleClick` call each event makes with the click listener corrected to
      pass no argument; the keydown and focus-out calls are as written. */
  function ClickCall(e: Event): Option<ClickArgument> {
    if e == Click then Some(NoArgument) else ClickCallAsWritten(e)
  }

  function OpenAsWritten(open: bool, e: Event): bool {
    match ClickCallAsWritten(e)
    case None => open
    case Some(arg) => AfterClick(open, arg)
  }

  /** The tooltip's state machine: a click, Space or Enter flips `open`, Escape and
      focus-out close it, and every other key leaves it alone. */
  function Open(open: bool, e: Event): (r: bool)
    ensures IsToggle(e) ==> r == !open
    ensures IsClosing(e) ==> !r
    ensures !IsToggle(e) && !IsClosing(e) ==> r == open
  {
    match ClickCall(e)
    case None => open
    case Some(arg) => AfterClick(open, arg)
  }

  /** As written, a mouse click can only open the tooltip: clicking an open tooltip
      leaves it open, where the corrected listener closes it. */
  lemma ClickAsWrittenNeverCloses(open: bool)
    ensures OpenAsWritten(open, Click)
    ensures OpenAsWritten(true, Click) != Open(true, Click)
  {
  }

  /** Two closing events in a row act as one; `RunOfClosing` extends this to any run of them. */
  lemma ClosingIdempotent(open: bool, e: Event, e': Event)
    requires IsClosing(e) && IsClosing(e')
    ensures Open(Open(open, e), e') == Open(open, e)
  {
  }

  /** `open` after a sequence of events, starting from `open`. */
  function Run(open: bool, events: seq<Event>): bool
    decreases |events|
  {
    if |events| == 0 then open else Run(Open(open, events[0]), events[1..])
  }

  function Toggles(events: seq<Event>): nat
    decreases |events|
  {
    if |events| == 0 then 0 else (if IsToggle(events[0]) then 1 else 0) + Toggles(events[1..])
  }

  predicate Odd(n: nat) {
    n % 2 == 1
  }

  lemma {:induction false} RunAppend(open: bool, a: seq<Event>, b: seq<Event>)
    ensures Run(open, a + b) == Run(Run(open, a), b)
    decreases |a|
  {
    if |a| > 0 {
      assert (a + b)[1..] == a[1..] + b;
      RunAppend(Open(open, a[0]), a[1..], b);
    } else {
      assert a + b == b;
    }
  }

  /** Without a closing event, the tooltip ends open exactly when it started open
      and was toggled an even number of times, or started closed and was toggled
      an odd number of times. */
  lemma {:induction false} RunWithoutClosing(open: bool, events: seq<Event>)
    requires forall i :: 0 <= i < |events| ==> !IsClosing(events[i])
    ensures Run(open, events) == (open != Odd(Toggles(events)))
    decreases |events|
  {
    if |events| > 0 {
      RunWithoutClosing(Open(open, events[0]), events[1..]);
    }
  }

  /** After the last closing event only the toggles that follow it matter: the
      tooltip is open exactly when there was an odd number of them. */
  lemma RunAfterClosing(open: bool, before: seq<Event>, c: Event, after: seq<Event>)
    requires IsClosing(c)
    requires forall i :: 0 <= i < |after| ==> !IsClosing(after[i])
    ensures Run(open, before + [c] + after) == Odd(Toggles(after))
  {
    RunAppend(open, before + [c], after);
    RunAppend(open, before, [c]);
    RunWithoutClosing(false, after);
  }

  /** Any non-empty run of closing events leaves the tooltip closed, whatever its
      start state, so repeating such a run changes nothing. */
  lemma {:induction false} RunOfClosing(open: bool, events: seq<Event>)
    requires |events| > 0
    requires forall i :: 0 <= i < |events| ==> IsClosing(events[i])
    ensures !Run(open, events)
    ensures Run(Run(open, events), events) == Run(open, events)
    decreases |events|
  {
    if |events| > 1 {
      RunOfClosing(Open(open, events[0]), events[1..]);
      RunOfClosing(Open(Run(open, events), events[0]), events[1..]);
    }
  }

  /** `open` after a sequence of events as the listeners are written. */
  function RunAsWritten(open: bool, events: seq<Event>): bool
    decreases |events|
  {
    if |events| == 0 then open else RunAsWritten(OpenAsWritten(open, events[0]), events[1..])
  }

  /** The listeners as written and the corrected click listener differ only on
      mouse clicks: over any sequence of key and focus events they agree. */
  lemma {:induction false} RunAsWrittenWithoutClick(open: bool, events: seq<Event>)
    requires forall i :: 0 <= i < |events| ==> events[i] != Click
    ensures RunAsWritten(open, events) == Run(open, events)
    decreases |events|
  {
    if |events| > 0 {
      assert OpenAsWritten(open, events[0]) == Open(open, events[0]);
      RunAsWrittenWithoutClick(Open(open, events[0]), events[1..]);
    }
  }

  /** The first child whose class is a floating menu, as the `find` helper returns it. */
  function FindFloatingMenu(nodes: seq<Node>): (r: Node?)
    ensures r == null <==> forall i :: 0 <= i < |nodes| ==> !nodes[i].floatingMenu
    ensures r != null ==> exists i :: 0 <= i < |nodes| && nodes[i] == r && r.floatingMenu
                                    && forall j :: 0 <= j < i ==> !nodes[j].floatingMenu
    decreases |nodes|
  {
    if |nodes| == 0 then null
    else if nodes[0].floatingMenu then nodes[0]
    else
      var r := FindFloatingMenu(nodes[1..]);
      assert r != null ==> exists i :: 1 <= i < |nodes| && nodes[i] == r && r.floatingMenu
                                       && forall j :: 0 <= j < i ==> !nodes[j].floatingMenu by {
        if r != null {
          var i :| 0 <= i < |nodes[1..]| && nodes[1..][i] == r && r.floatingMenu
                   && forall j :: 0 <= j < i ==> !nodes[1..][j].floatingMenu;
          assert nodes[i + 1] == r;
          assert forall j :: 1 <= j < i + 1 ==> !nodes[j].floatingMenu by {
            forall j | 1 <= j < i + 1 ensures !nodes[j].floatingMenu {
              assert nodes[j] == nodes[1..][j - 1];
            }
          }
        }
      }
      r
  }

  function SetIfAbsent(attributes: map<string, string>, name: string, value: string): map<string, string> {
    if name in attributes then attributes else attributes[name := value]
  }

  /** The attributes after `connectedCallback`: `role`, `tabindex`, `aria-haspopup`
      and `aria-expanded` are present, those that were absent have their defaults,
      and every attribute that was already present keeps its value. */
  function ConnectedAttributes(attributes: map<string, string>): (r: map<string, string>)
    ensures r.Keys == attributes.Keys + {"role", "tabindex", "aria-haspopup", "aria-expanded"}
    ensures forall name :: name in attributes ==> r[name] == attributes[name]
    ensures "role" !in attributes ==> r["role"] == "button"
    ensures "tabindex" !in attributes ==> r["tabindex"] == "0"
    ensures "aria-haspopup" !in attributes ==> r["aria-haspopup"] == "true"
    ensures "aria-expanded" !in attributes ==> r["aria-expanded"] == "false"
  {
    var a := SetIfAbsent(attributes, "role", "button");
    var b := SetIfAbsent(a, "tabindex", "0");
    var c := SetIfAbsent(b, "aria-haspopup", "true");
    SetIfAbsent(c, "aria-expanded", "false")
  }

  /** `String(Boolean(open))`. */
  function BooleanString(b: bool): string {
    if b then "true" else "false"
  }

  class Tooltip {
    var open: bool
    var attributes: map<string, string>
    /** The cached floating menu; `null` until one is found. */
    var menuBody: Node?
    var childNodes: seq<Node>

    constructor (attributes: map<string, string>, childNodes: seq<Node>)
      ensures !open && menuBody == null
      ensures this.attributes == attributes && this.childNodes == childNodes
    {
      open := false;
      menuBody := null;
      this.attributes := attributes;
      this.childNodes := childNodes;
    }

    /** `_handleClick(forceState)`, up to its first `await`. */
    method HandleClick(arg: ClickArgument)
      modifies this`open
      ensures open == AfterClick(old(open), arg)
      ensures arg == NoArgument ==> open == !old(open)
      ensures arg.Flag? ==> open == arg.b
    {
      if arg == NoArgument {
        open := !open;
      } else {
        open := if arg.Flag? then arg.b else true;
      }
    }

    /** `_handleKeydown`. */
    method HandleKeydown(key: string)
      modifies this`open
      ensures open == Open(old(open), Keydown(key))
    {
      if IsToggleKey(key) {
        HandleClick(NoArgument);
      } else if key == "Escape" {
        HandleClick(Flag(false));
      }
    }

    /** `_handleFocusout`. */
    method HandleFocusout()
      modifies this`open
      ensures open == Open(old(open), Focusout) && !open
    {
      HandleClick(Flag(false));
    }

    /** The host `click` listener as written: it receives the event. */
    method HandleClickEventAsWritten()
      modifies this`open
      ensures open == OpenAsWritten(old(open), Click) && open
    {
      HandleClick(EventObject);
    }

    /** The host `click` listener, corrected to call `_handleClick` with no argument. */
    method HandleClickEvent()
      modifies this`open
      ensures open == Open(old(open), Click) && open == !old(open)
    {
      HandleClick(NoArgument);
    }

    /** `connectedCallback`: fills in the accessibility attributes that are missing. */
    method ConnectedCallback()
      modifies this`attributes
      ensures attributes == ConnectedAttributes(old(attributes))
    {
      if "role" !in attributes {
        attributes := attributes["role" := "button"];
      }
      if "tabindex" !in attributes {
        attributes := attributes["tabindex" := "0"];
      }
      if "aria-haspopup" !in attributes {
        attributes := attributes["aria-haspopup" := "true"];
      }
      if "aria-expanded" !in attributes {
        attributes := attributes["aria-expanded" := "false"];
      }
    }

    /** `updated(changedProperties)`: when `open` changed, looks the menu body up once
        and caches it, copies `open` into it and reflects `open` in `aria-expanded`. */
    method Updated(changed: set<string>)
      modifies this`menuBody, this`attributes, menuBody, childNodes
      ensures "open" !in changed ==> menuBody == old(menuBody) && attributes == old(attributes)
      ensures "open" in changed ==>
        && menuBody == (if old(menuBody) != null then old(menuBody) else FindFloatingMenu(childNodes))
        && (menuBody != null ==> menuBody.open == open)
        && attributes == old(attributes)["aria-expanded" := BooleanString(open)]
      ensures forall n :: n in childNodes && n != menuBody ==> n.open == old(n.open)
      ensures forall n :: n in childNodes ==> n.attributes == old(n.attributes) && n.className == old(n.className)
      ensures "open" !in changed && old(menuBody) != null ==> old(menuBody).open == old(menuBody.open)
      ensures old(menuBody) != null ==>
        old(menuBody).attributes == old(menuBody.attributes) && old(menuBody).className == old(menuBody.className)
    {
      if "open" in changed {
        if menuBody == null {
          menuBody := FindFloatingMenu(childNodes);
        }
        if menuBody != null {
          menuBody.open := open;
        }
        attributes := attributes["aria-expanded" := BooleanString(open)];
      }
    }
  }
}
