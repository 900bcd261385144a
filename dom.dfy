/** The slice of the browser's DOM that the components read and write: nodes with
    attributes, a class attribute seen through `classList`, slotted text, and the
    JavaScript string operations (`trim`, `split`) the components apply to them. */
module Dom {

  datatype NodeType = ElementNode | TextNode | CommentNode

  /** A node of the light DOM. What never changes during the modelled operations is
      `const`; what the components assign is `var`. */
  class Node {
    const nodeType: NodeType
    /** Tag name in lower case; empty for text and comment nodes. */
    const localName: string
    /** `textContent`: the text of a text node, the data of a comment, and the
        concatenated descendant text of an element. */
    const textContent: string
    /** `true` when the element's class carries the static `FLOATING_MENU` flag. */
    const floatingMenu: bool
    /** Every attribute other than `class`, which `className` holds; `attributes`
        has no `"class"` key. */
    var attributes: map<string, string>
    /** The `class` attribute as a string (`className`); `classList` is a view of it. */
    var className: string
    /** The `open` property that floating menus and side navs expose. */
    var open: bool

    constructor (nodeType: NodeType, localName: string, textContent: string, floatingMenu: bool,
                 attributes: map<string, string>, className: string, open: bool)
      ensures this.nodeType == nodeType && this.localName == localName
      ensures this.textContent == textContent && this.floatingMenu == floatingMenu
      ensures this.attributes == attributes && this.className == className && this.open == open
    {
      this.nodeType := nodeType;
      this.localName := localName;
      this.textContent := textContent;
      this.floatingMenu := floatingMenu;
      this.attributes := attributes;
      this.className := className;
      this.open := open;
    }
  }

  /** A type selector such as `bx-tag` matches an element with that local name. */
  predicate MatchesTag(n: Node, selector: string) {
    n.nodeType == ElementNode && n.localName == selector
  }

  // ---------------------------------------------------------------------------
  // String.prototype.trim

  /** ECMAScript WhiteSpace and LineTerminator code points, which `trim` removes. */
  predicate IsJsWhitespace(c: char) {
    || c == '\t' || c == '\U{B}' || c == '\U{C}' || c == ' ' || c == '\U{A0}' || c == '\U{FEFF}'
    || c == '\U{1680}' || ('\U{2000}' <= c <= '\U{200A}') || c == '\U{202F}' || c == '\U{205F}'
    || c == '\U{3000}' || c == '\n' || c == '\r' || c == '\U{2028}' || c == '\U{2029}'
  }

  predicate AllJsWhitespace(s: string) {
    forall i :: 0 <= i < |s| ==> IsJsWhitespace(s[i])
  }

  function TrimStart(s: string): string {
    if |s| > 0 && IsJsWhitespace(s[0]) then TrimStart(s[1..]) else s
  }

  function TrimEnd(s: string): string {
    if |s| > 0 && IsJsWhitespace(s[|s| - 1]) then TrimEnd(s[..|s| - 1]) else s
  }

  /** `s.trim()`. */
  function Trim(s: string): string {
    TrimEnd(TrimStart(s))
  }

  lemma {:induction false} TrimEndEmpty(s: string)
    ensures TrimEnd(s) == "" <==> AllJsWhitespace(s)
    decreases |s|
  {
    if |s| > 0 && IsJsWhitespace(s[|s| - 1]) {
      var init := s[..|s| - 1];
      TrimEndEmpty(init);
      assert AllJsWhitespace(s) <==> AllJsWhitespace(init) by {
        if AllJsWhitespace(init) {
          forall i | 0 <= i < |s| ensures IsJsWhitespace(s[i]) {
            if i < |s| - 1 { assert s[i] == init[i]; }
          }
        }
      }
    }
  }

  lemma {:induction false} TrimStartEmpty(s: string)
    ensures TrimStart(s) == "" ==> AllJsWhitespace(s)
    ensures TrimStart(s) != "" ==> !IsJsWhitespace(TrimStart(s)[0]) && exists i :: 0 <= i < |s| && !IsJsWhitespace(s[i])
    decreases |s|
  {
    if |s| > 0 && IsJsWhitespace(s[0]) {
      TrimStartEmpty(s[1..]);
      if TrimStart(s) != "" {
        var i :| 0 <= i < |s[1..]| && !IsJsWhitespace(s[1..][i]);
        assert !IsJsWhitespace(s[i + 1]);
      } else {
        forall i | 0 <= i < |s| ensures IsJsWhitespace(s[i]) {
          if i > 0 { assert s[i] == s[1..][i - 1]; }
        }
      }
    } else if |s| > 0 {
      assert !IsJsWhitespace(s[0]);
    }
  }

  /** `s.trim()` is truthy (non-empty) exactly when `s` holds a character that is
      not JavaScript whitespace. */
  lemma TrimNonEmpty(s: string)
    ensures Trim(s) != "" <==> exists i :: 0 <= i < |s| && !IsJsWhitespace(s[i])
  {
    TrimStartEmpty(s);
    var t := TrimStart(s);
    TrimEndEmpty(t);
    if t != "" {
      assert !IsJsWhitespace(t[0]);
    }
  }

  // ---------------------------------------------------------------------------
  // String.prototype.split with a one-character separator, and its inverse

  /** `s.split(sep)`: the pieces between separators, always at least one
      (`"".split(" ")` is `[""]`). */
  function Split(s: string, sep: char): (r: seq<string>)
    ensures |r| >= 1
    decreases |s|
  {
    if |s| == 0 then [""]
    else
      var rest := Split(s[1..], sep);
      if s[0] == sep then [""] + rest else [[s[0]] + rest[0]] + rest[1..]
  }

  /** `parts.join(sep)`. */
  function Join(parts: seq<string>, sep: string): string
    decreases |parts|
  {
    if |parts| == 0 then ""
    else if |parts| == 1 then parts[0]
    else parts[0] + sep + Join(parts[1..], sep)
  }

  /** Appending a part to a non-empty join appends the separator and the part. */
  lemma {:induction false} JoinSnoc(parts: seq<string>, sep: string, last: string)
    requires |parts| > 0
    ensures Join(parts + [last], sep) == Join(parts, sep) + sep + last
    decreases |parts|
  {
    if |parts| == 1 {
      assert (parts + [last])[1..] == [last];
    } else {
      assert (parts + [last])[1..] == parts[1..] + [last];
      JoinSnoc(parts[1..], sep, last);
    }
  }

  lemma {:induction false} SplitPiece(t: string, sep: char, rest: string)
    requires sep !in t
    ensures Split(t + [sep] + rest, sep) == [t] + Split(rest, sep)
    decreases |t|
  {
    if |t| == 0 {
      assert t + [sep] + rest == [sep] + rest;
      assert ([sep] + rest)[1..] == rest;
    } else {
      var s := t + [sep] + rest;
      assert s[1..] == t[1..] + [sep] + rest;
      SplitPiece(t[1..], sep, rest);
      assert [t[0]] + t[1..] == t;
    }
  }

  lemma {:induction false} SplitWord(t: string, sep: char)
    requires sep !in t
    ensures Split(t, sep) == [t]
    decreases |t|
  {
    if |t| > 0 {
      SplitWord(t[1..], sep);
      assert [t[0]] + t[1..] == t;
    }
  }

  /** Splitting a join on the same one-character separator gives the parts back,
      provided no part contains the separator. */
  lemma {:induction false} SplitJoin(parts: seq<string>, sep: char)
    requires |parts| > 0
    requires forall i :: 0 <= i < |parts| ==> sep !in parts[i]
    ensures Split(Join(parts, [sep]), sep) == parts
    decreases |parts|
  {
    if |parts| == 1 {
      SplitWord(parts[0], sep);
    } else {
      SplitJoin(parts[1..], sep);
      SplitPiece(parts[0], sep, Join(parts[1..], [sep]));
      assert [parts[0]] + parts[1..] == parts;
    }
  }

  // ---------------------------------------------------------------------------
  // DOMTokenList over the class attribute

  /** ASCII whitespace of the DOM standard, which separates class tokens. */
  predicate IsAsciiWhitespace(c: char) {
    c == '\t' || c == '\n' || c == '\U{C}' || c == '\r' || c == ' '
  }

  /** A token that `classList.add`, `remove` and `toggle` accept without throwing. */
  predicate ValidToken(t: string) {
    |t| > 0 && forall i :: 0 <= i < |t| ==> !IsAsciiWhitespace(t[i])
  }

  /** A string with no ASCII whitespace, such as a class-name prefix. */
  predicate NoWhitespace(s: string) {
    forall i :: 0 <= i < |s| ==> !IsAsciiWhitespace(s[i])
  }

  /** A prefix without whitespace followed by a valid suffix is a valid token, and
      holds no space. */
  lemma SuffixedToken(prefix: string, suffix: string)
    requires NoWhitespace(prefix) && ValidToken(suffix)
    ensures ValidToken(prefix + suffix) && ' ' !in prefix + suffix
  {
    var s := prefix + suffix;
    forall i | 0 <= i < |s| ensures !IsAsciiWhitespace(s[i]) {
      if i < |prefix| { assert s[i] == prefix[i]; } else { assert s[i] == suffix[i - |prefix|]; }
    }
    assert forall k :: 0 <= k < |s| ==> s[k] != ' ';
  }

  predicate Distinct(s: seq<string>) {
    forall i, j :: 0 <= i < j < |s| ==> s[i] != s[j]
  }

  /** Length of the run of non-whitespace characters at the start of `s`. */
  function WordLength(s: string): (n: nat)
    ensures n <= |s|
    ensures forall i :: 0 <= i < n ==> !IsAsciiWhitespace(s[i])
    ensures n < |s| ==> IsAsciiWhitespace(s[n])
    decreases |s|
  {
    if |s| == 0 || IsAsciiWhitespace(s[0]) then 0 else 1 + WordLength(s[1..])
  }

  /** The tokens of an attribute value split on ASCII whitespace, in order. */
  function Tokens(s: string): (r: seq<string>)
    ensures forall i :: 0 <= i < |r| ==> ValidToken(r[i])
    decreases |s|
  {
    if |s| == 0 then []
    else if IsAsciiWhitespace(s[0]) then Tokens(s[1..])
    else
      var n := WordLength(s);
      [s[..n]] + Tokens(s[n..])
  }

  /** The ordered set of a token sequence: first occurrences, in order. */
  function Dedup(toks: seq<string>): (r: seq<string>)
    ensures forall t :: t in r <==> t in toks
    ensures Distinct(r)
    decreases |toks|
  {
    if |toks| == 0 then []
    else
      var init := Dedup(toks[..|toks| - 1]);
      var last := toks[|toks| - 1];
      assert forall t :: t in toks <==> t in toks[..|toks| - 1] || t == last;
      if last in init then init else init + [last]
  }

  /** The token set behind `classList` for a class attribute value. */
  function TokenSet(className: string): seq<string> {
    Dedup(Tokens(className))
  }

  /** `classList.contains(t)`. */
  predicate Contains(className: string, t: string) {
    t in TokenSet(className)
  }

  /** The serialisation the DOM's update steps write back to the class attribute. */
  function Serialize(toks: seq<string>): string {
    Join(toks, " ")
  }

  function RemoveToken(toks: seq<string>, t: string): (r: seq<string>)
    ensures forall u :: u in r <==> u in toks && u != t
    ensures Distinct(toks) ==> Distinct(r)
    decreases |toks|
  {
    if |toks| == 0 then []
    else
      assert forall u :: u in toks <==> u == toks[0] || u in toks[1..];
      assert Distinct(toks) ==> Distinct(toks[1..]) && toks[0] !in toks[1..];
      if toks[0] == t then RemoveToken(toks[1..], t) else [toks[0]] + RemoveToken(toks[1..], t)
  }

  /** `classList.add(t)`: appends `t` when absent and always serialises. */
  function Add(className: string, t: string): string
    requires ValidToken(t)
  {
    var toks := TokenSet(className);
    Serialize(if t in toks then toks else toks + [t])
  }

  /** `classList.toggle(t, force)`: when the token set already agrees with `force`
      the attribute is left exactly as it was; otherwise `t` is appended or removed
      and the set is serialised. */
  function Toggle(className: string, t: string, force: bool): string
    requires ValidToken(t)
  {
    var toks := TokenSet(className);
    if t in toks then
      (if force then className else Serialize(RemoveToken(toks, t)))
    else
      (if force then Serialize(toks + [t]) else className)
  }

  lemma {:induction false} WordLengthOfWord(t: string, rest: string)
    requires ValidToken(t)
    requires rest == [] || IsAsciiWhitespace(rest[0])
    ensures WordLength(t + rest) == |t|
  {
    assert forall i :: 0 <= i < |t| ==> (t + rest)[i] == t[i];
    assert rest != [] ==> (t + rest)[|t|] == rest[0];
  }

  /** Tokenising a space-separated serialisation gives the tokens back. */
  lemma {:induction false} TokensSerialize(toks: seq<string>)
    requires forall i :: 0 <= i < |toks| ==> ValidToken(toks[i])
    ensures Tokens(Serialize(toks)) == toks
    decreases |toks|
  {
    if |toks| == 1 {
      var t := toks[0];
      WordLengthOfWord(t, []);
      assert t + [] == t;
      assert t[|t|..] == [];
      assert t[..|t|] == t;
    } else if |toks| > 1 {
      var t, rest := toks[0], Join(toks[1..], " ");
      var s := t + " " + rest;
      assert s == t + (" " + rest);
      WordLengthOfWord(t, " " + rest);
      assert s[..|t|] == t;
      assert s[|t|..] == " " + rest;
      assert (" " + rest)[1..] == rest;
      TokensSerialize(toks[1..]);
      assert [toks[0]] + toks[1..] == toks;
    }
  }

  /** A valid token on its own tokenises to itself. */
  lemma TokensWord(t: string)
    requires ValidToken(t)
    ensures Tokens(t) == [t]
  {
    WordLengthOfWord(t, []);
    assert t + [] == t;
    assert t[|t|..] == [];
    assert t[..|t|] == t;
  }

  /** A space separates tokens: the tokens of `x + " " + y` are those of `x`
      followed by those of `y`. */
  lemma {:induction false} TokensSpaceConcat(x: string, y: string)
    ensures Tokens(x + " " + y) == Tokens(x) + Tokens(y)
    decreases |x|
  {
    var s := x + " " + y;
    if |x| == 0 {
      assert s == " " + y;
      assert s[1..] == y;
    } else if IsAsciiWhitespace(x[0]) {
      assert s[1..] == x[1..] + " " + y;
      TokensSpaceConcat(x[1..], y);
    } else {
      var n := WordLength(x);
      assert forall i :: 0 <= i < |x| ==> s[i] == x[i];
      assert s[|x|] == ' ';
      assert WordLength(s) == n;
      assert s[..n] == x[..n];
      assert s[n..] == x[n..] + " " + y;
      TokensSpaceConcat(x[n..], y);
    }
  }

  lemma {:induction false} DedupOfDistinct(toks: seq<string>)
    requires Distinct(toks)
    ensures Dedup(toks) == toks
    decreases |toks|
  {
    if |toks| > 0 {
      var init := toks[..|toks| - 1];
      DedupOfDistinct(init);
      assert toks[|toks| - 1] !in init;
      assert init + [toks[|toks| - 1]] == toks;
    }
  }

  /** Reading the token set back from what the update steps wrote gives the same
      ordered set: serialisation loses no token and adds none. */
  lemma TokenSetSerialize(toks: seq<string>)
    requires Distinct(toks)
    requires forall i :: 0 <= i < |toks| ==> ValidToken(toks[i])
    ensures TokenSet(Serialize(toks)) == toks
  {
    TokensSerialize(toks);
    DedupOfDistinct(toks);
  }

  /** Every token of a class attribute is valid and holds no space. */
  lemma TokenSetValid(className: string)
    ensures forall i :: 0 <= i < |TokenSet(className)| ==>
      ValidToken(TokenSet(className)[i]) && ' ' !in TokenSet(className)[i]
  {
    var toks := TokenSet(className);
    forall i | 0 <= i < |toks| ensures ValidToken(toks[i]) && ' ' !in toks[i] {
      assert toks[i] in Tokens(className);
      var t := toks[i];
      assert forall k :: 0 <= k < |t| ==> t[k] != ' ';
    }
  }

  /** After `add(t)` the list holds `t` and every token it held before, and no other. */
  lemma AddContains(className: string, t: string, u: string)
    requires ValidToken(t)
    ensures Contains(Add(className, t), u) <==> u == t || Contains(className, u)
  {
    var toks := TokenSet(className);
    var next := if t in toks then toks else toks + [t];
    assert forall i :: 0 <= i < |toks| ==> ValidToken(toks[i]) by {
      forall i | 0 <= i < |toks| ensures ValidToken(toks[i]) {
        var tk := Tokens(className);
        assert toks[i] in tk;
      }
    }
    assert Distinct(next);
    TokenSetSerialize(next);
  }

  /** After `toggle(t, force)` the list holds `t` exactly when `force` holds, and
      every other token exactly when it held it before. */
  lemma ToggleContains(className: string, t: string, force: bool, u: string)
    requires ValidToken(t)
    ensures Contains(Toggle(className, t, force), u) <==> if u == t then force else Contains(className, u)
  {
    var toks := TokenSet(className);
    assert forall i :: 0 <= i < |toks| ==> ValidToken(toks[i]) by {
      forall i | 0 <= i < |toks| ensures ValidToken(toks[i]) {
        assert toks[i] in Tokens(className);
      }
    }
    if t in toks {
      if !force {
        var next := RemoveToken(toks, t);
        assert forall i :: 0 <= i < |next| ==> ValidToken(next[i]) by {
          forall i | 0 <= i < |next| ensures ValidToken(next[i]) {
            assert next[i] in toks;
          }
        }
        TokenSetSerialize(next);
      }
    } else if force {
      TokenSetSerialize(toks + [t]);
    }
  }

  /** Whether `s` begins with `p` (the regular expression `^p` on a literal `p`). */
  predicate StartsWith(s: string, p: string) {
    |p| <= |s| && s[..|p|] == p
  }
}
