/** What the printer's layout comes to: compact text is the plain nesting of tags, pretty text of
    pure markup is an outline with one line for each tag, and every angle bracket in either is
    the printer's own or stands in a leaf that is written as it is. */
module XmlMarkup {
  import opened XmlText
  import opened XmlEscape
  import opened XmlDoc
  import opened XmlLayout

  // --- Compact text ---

  /** A node without any white space of the printer's. */
  function Compact(n: Node): string {
    match n
    case Element(name, attrs, children) =>
      if children == [] then "<" + name + AttrsText(attrs) + "/>"
      else "<" + name + AttrsText(attrs) + ">" + CompactAll(children) + "</" + name + ">"
    case Text(t, cdata) => if cdata then "<![CDATA[" + t + "]]>" else Escape(true, t)
    case Comment(t) => "<!--" + t + "-->"
    case Declaration(t) => "<?" + t + "?>"
    case Unknown(t) => "<!" + t + ">"
  }

  function CompactAll(ns: seq<Node>): string {
    if ns == [] then "" else Compact(ns[0]) + CompactAll(ns[1..])
  }

  /** Compact mode writes the nodes one after the other, whatever came before. */
  lemma {:induction false} CompactText(first: bool, ns: seq<Node>, depth: nat, text: int)
    ensures NodesText(false, first, ns, depth, text) == CompactAll(ns)
    decreases ns
  {
    hide Escape, TextDepth, TextDepths, AttrsText, Spaces;
    if ns != [] {
      var n := ns[0];
      CompactText(first && n.Text?, ns[1..], depth, TextDepth(n, depth, text));
      if n.Element? { CompactText(false, n.children, depth + 1, text); }
      CompactNode(first, n, depth, text);
    }
  }

  lemma CompactNode(first: bool, n: Node, depth: nat, text: int)
    requires n.Element? ==> NodesText(false, false, n.children, depth + 1, text) == CompactAll(n.children)
    ensures NodeText(false, first, n, depth, text) == Compact(n)
  {
    hide Escape, TextDepth, TextDepths, AttrsText, NodesText, CompactAll, Spaces;
    assert NodeText(false, first, n, depth, text) == Body(false, n, depth, text);
    if n.Element? && n.children != [] {
      var a, c := AttrsText(n.attrs), CompactAll(n.children);
      assert "" + EndTagText(n.name) == "</" + n.name + ">";
      assert "<" + (n.name + (a + (">" + (c + ("</" + n.name + ">"))))) == "<" + n.name + a + ">" + c + "</" + n.name + ">";
    }
  }

  // --- Pretty text ---

  /** No text in it, plain or CDATA. */
  predicate Textless(n: Node) {
    !n.Text? && (n.Element? ==> AllTextless(n.children))
  }

  predicate AllTextless(ns: seq<Node>) {
    ns == [] || (Textless(ns[0]) && AllTextless(ns[1..]))
  }

  /** One line for each tag and each leaf, indented by four spaces for each level. */
  function Outline(n: Node, depth: nat): (lines: seq<string>)
    ensures lines != []
  {
    match n
    case Element(name, attrs, children) =>
      if children == [] then [Spaces(depth) + Compact(n)]
      else [Spaces(depth) + ("<" + name + AttrsText(attrs) + ">")] + OutlineAll(children, depth + 1)
           + [Spaces(depth) + ("</" + name + ">")]
    case _ => [Spaces(depth) + Compact(n)]
  }

  function OutlineAll(ns: seq<Node>, depth: nat): seq<string> {
    if ns == [] then [] else Outline(ns[0], depth) + OutlineAll(ns[1..], depth)
  }

  function Lined(lines: seq<string>): string {
    if lines == [] then "" else "\n" + lines[0] + Lined(lines[1..])
  }

  lemma {:induction false} LinedConcat(a: seq<string>, b: seq<string>)
    ensures Lined(a + b) == Lined(a) + Lined(b)
  {
    if a == [] {
      assert a + b == b;
    } else {
      assert (a + b)[1..] == a[1..] + b;
      LinedConcat(a[1..], b);
    }
  }

  lemma LinedTail(l: string, lines: seq<string>)
    ensures Lined([l] + lines) == "\n" + l + Lined(lines)
  {
    assert ([l] + lines)[1..] == lines;
  }

  lemma LinedNothing()
    ensures Lined([]) == ""
  {
  }

  lemma OneLine(l: string)
    ensures Lined([l]) == "\n" + l
  {
    assert [l][1..] == [];
    assert "\n" + l + "" == "\n" + l;
  }

  lemma {:induction false} TextlessDepth(ns: seq<Node>, depth: nat)
    requires AllTextless(ns)
    ensures TextDepths(ns, depth, -1) == -1
    decreases ns
  {
    if ns != [] {
      if ns[0].Element? { TextlessDepth(ns[0].children, depth + 1); }
      TextlessDepth(ns[1..], depth);
    }
  }

  /** Pretty mode writes markup below the root as an outline. */
  lemma {:induction false} PrettyText(ns: seq<Node>, depth: nat)
    requires AllTextless(ns) && depth > 0
    ensures NodesText(true, false, ns, depth, -1) == Lined(OutlineAll(ns, depth))
    decreases ns
  {
    hide Outline, TextDepth, AttrsText, Spaces, Lined, NodeText;
    if ns == [] {
      assert OutlineAll(ns, depth) == [];
      LinedNothing();
    } else {
      var n := ns[0];
      LinedConcat(Outline(n, depth), OutlineAll(ns[1..], depth));
      if n.Element? { PrettyText(n.children, depth + 1); }
      PrettyNode(false, n, depth);
      NodeDepth(n, depth);
      PrettyText(ns[1..], depth);
    }
  }

  lemma NodeDepth(n: Node, depth: nat)
    requires Textless(n)
    ensures TextDepth(n, depth, -1) == -1
  {
    if n.Element? { TextlessDepth(n.children, depth + 1); }
  }

  /** A node behind other markup starts on a new line. */
  lemma PrettyNode(first: bool, n: Node, depth: nat)
    requires Textless(n) && (first ==> depth == 0)
    requires n.Element? ==> NodesText(true, false, n.children, depth + 1, -1) == Lined(OutlineAll(n.children, depth + 1))
    ensures var t := NodeText(true, first, n, depth, -1);
      (if first then "\n" + t else t) == Lined(Outline(n, depth)) + if depth == 0 && n.Element? then "\n" else ""
    ensures depth > 0 ==> NodeText(true, first, n, depth, -1) == Lined(Outline(n, depth))
  {
    hide Escape, TextDepth, TextDepths, AttrsText, NodesText, OutlineAll, Spaces, Lined, Compact, Body;
    var sp, trail := Spaces(depth), if depth == 0 && n.Element? then "\n" else "";
    assert depth == 0 ==> sp == "" by { NoSpaces(); }
    var body, t := Body(true, n, depth, -1), NodeText(true, first, n, depth, -1);
    assert (if first then "\n" + t else t) == "\n" + sp + body + trail;
    if n.Element? && n.children != [] {
      TextlessDepth(n.children, depth + 1);
      PrettyElement(n, depth);
    } else {
      LeafCompact(n, depth);
      OneLine(sp + Compact(n));
      assert "\n" + sp + Compact(n) == "\n" + (sp + Compact(n));
    }
  }

  lemma NoSpaces()
    ensures Spaces(0) == ""
  {
  }

  lemma LeafCompact(n: Node, depth: nat)
    requires !n.Text? && (n.Element? ==> n.children == [])
    ensures Body(true, n, depth, -1) == Compact(n) && Outline(n, depth) == [Spaces(depth) + Compact(n)]
  {
    hide AttrsText, Spaces;
  }

  lemma PrettyElement(n: Node, depth: nat)
    requires n.Element? && n.children != [] && TextDepths(n.children, depth + 1, -1) == -1
    requires NodesText(true, false, n.children, depth + 1, -1) == Lined(OutlineAll(n.children, depth + 1))
    ensures "\n" + Spaces(depth) + Body(true, n, depth, -1) == Lined(Outline(n, depth))
  {
    hide AttrsText, NodesText, OutlineAll, Spaces, Lined, TextDepths, Compact;
    var sp, c, ls := Spaces(depth), Lined(OutlineAll(n.children, depth + 1)), OutlineAll(n.children, depth + 1);
    var open, end := "<" + n.name + AttrsText(n.attrs) + ">", "</" + n.name + ">";
    assert Body(true, n, depth, -1) == open + c + ("\n" + sp + end) by {
      assert "<" + (n.name + (AttrsText(n.attrs) + (">" + (c + (("\n" + sp) + end))))) == open + c + ("\n" + sp + end);
    }
    OneLine(sp + end);
    LinedTail(sp + open, ls + [sp + end]);
    LinedConcat(ls, [sp + end]);
    assert Outline(n, depth) == [sp + open] + (ls + [sp + end]);
    assert "\n" + sp + (open + c + ("\n" + sp + end)) == "\n" + (sp + open) + (c + ("\n" + (sp + end)));
  }

  /** The outline of a document: root nodes on lines of their own, with an empty line behind
      every root element. */
  function TopOutline(ns: seq<Node>): string {
    if ns == [] then "" else Lined(Outline(ns[0], 0)) + (if ns[0].Element? then "\n" else "") + TopOutline(ns[1..])
  }

  lemma {:induction false} PrettyTop(first: bool, ns: seq<Node>)
    requires AllTextless(ns)
    ensures var t := NodesText(true, first, ns, 0, -1); (if first && ns != [] then "\n" + t else t) == TopOutline(ns)
  {
    hide Outline, TextDepth, AttrsText, Spaces, Lined, NodeText;
    if ns != [] {
      var n := ns[0];
      if n.Element? { PrettyText(n.children, 1); }
      PrettyNode(first, n, 0);
      NodeDepth(n, 0);
      PrettyTop(false, ns[1..]);
    }
  }

  // --- Angle brackets ---

  function Count(s: string, c: char): nat {
    if s == "" then 0 else (if s[0] == c then 1 else 0) + Count(s[1..], c)
  }

  lemma {:induction false} CountConcat(a: string, b: string, c: char)
    ensures Count(a + b, c) == Count(a, c) + Count(b, c)
  {
    if a == "" {
      assert a + b == b;
    } else {
      assert (a + b)[1..] == a[1..] + b;
      CountConcat(a[1..], b, c);
    }
  }

  lemma {:induction false} CountNone(s: string, c: char)
    requires c !in s
    ensures Count(s, c) == 0
  {
    if s != "" { CountNone(s[1..], c); }
  }

  /** Element and attribute names are names. */
  predicate Named(n: Node) {
    n.Element? ==> IsName(n.name) && (forall i :: 0 <= i < |n.attrs| ==> IsName(n.attrs[i].name)) && AllNamed(n.children)
  }

  predicate AllNamed(ns: seq<Node>) {
    ns == [] || (Named(ns[0]) && AllNamed(ns[1..]))
  }

  /** An element has one bracket of each kind for each of its tags; plain text has none; the other
      leaves have one, and those in their contents. */
  function Brackets(n: Node, c: char): nat {
    match n
    case Element(_, _, children) => (if children == [] then 1 else 2) + BracketsAll(children, c)
    case Text(t, cdata) => if cdata then 1 + Count(t, c) else 0
    case Comment(t) => 1 + Count(t, c)
    case Declaration(t) => 1 + Count(t, c)
    case Unknown(t) => 1 + Count(t, c)
  }

  function BracketsAll(ns: seq<Node>, c: char): nat {
    if ns == [] then 0 else Brackets(ns[0], c) + BracketsAll(ns[1..], c)
  }

  predicate Bracket(c: char) {
    c == '<' || c == '>'
  }

  lemma NameFree(name: string, c: char)
    requires IsName(name) && Bracket(c)
    ensures Count(name, c) == 0
  {
    CountNone(name, c);
  }

  lemma {:induction false} AttrsFree(attrs: seq<Attr>, c: char)
    requires (forall i :: 0 <= i < |attrs| ==> IsName(attrs[i].name)) && Bracket(c)
    ensures Count(AttrsText(attrs), c) == 0
  {
    hide IsName, Escape, AttrText;
    if attrs != [] {
      AttrFree(attrs[0], c);
      AttrsFree(attrs[1..], c);
      CountConcat(AttrText(attrs[0]), AttrsText(attrs[1..]), c);
    }
  }

  lemma AttrFree(a: Attr, c: char)
    requires IsName(a.name) && Bracket(c)
    ensures Count(AttrText(a), c) == 0
  {
    EscapeFree(false, a.value, c);
    CountNone(AttrText(a), c);
  }

  /** Every angle bracket of the written text is part of a tag, or of a leaf that is written as it
      is; so the brackets of plain text and attribute values have all been escaped. */
  lemma {:induction false} BracketCount(pretty: bool, first: bool, ns: seq<Node>, depth: nat, text: int, c: char)
    requires AllNamed(ns) && Bracket(c)
    ensures Count(NodesText(pretty, first, ns, depth, text), c) == BracketsAll(ns, c)
    decreases ns
  {
    hide NodeText, Brackets, TextDepth, Bracket, Named;
    if ns != [] {
      var n := ns[0];
      if n.Element? {
        NamedKids(n);
        BracketCount(pretty, false, n.children, depth + 1, text, c);
      }
      NodeBrackets(pretty, first, n, depth, text, c);
      BracketCount(pretty, first && n.Text?, ns[1..], depth, TextDepth(n, depth, text), c);
      CountConcat(NodeText(pretty, first, n, depth, text), NodesText(pretty, first && n.Text?, ns[1..], depth, TextDepth(n, depth, text)), c);
    }
  }

  lemma NamedKids(n: Node)
    requires Named(n) && n.Element?
    ensures IsName(n.name) && AllNamed(n.children)
    ensures forall i :: 0 <= i < |n.attrs| ==> IsName(n.attrs[i].name)
  {
  }

  lemma NodeBrackets(pretty: bool, first: bool, n: Node, depth: nat, text: int, c: char)
    requires Named(n) && Bracket(c)
    requires n.Element? ==> Count(NodesText(pretty, false, n.children, depth + 1, text), c) == BracketsAll(n.children, c)
    ensures Count(NodeText(pretty, first, n, depth, text), c) == Brackets(n, c)
  {
    hide Lead, Body, Trail, Brackets, Bracket, Named;
    var lead, body, trail := Lead(pretty, first, n, depth, text), Body(pretty, n, depth, text), Trail(pretty, n, depth);
    LeadFree(pretty, first, n, depth, text, c);
    CountConcat(lead, body + trail, c);
    CountConcat(body, trail, c);
    if n.Element? { ElementBrackets(pretty, n, depth, text, c); } else { LeafBrackets(pretty, n, depth, text, c); }
  }

  lemma LeadFree(pretty: bool, first: bool, n: Node, depth: nat, text: int, c: char)
    requires Bracket(c)
    ensures Count(Lead(pretty, first, n, depth, text), c) == 0 && Count(Trail(pretty, n, depth), c) == 0
  {
    CountNone(Lead(pretty, first, n, depth, text), c);
    CountNone(Trail(pretty, n, depth), c);
  }

  /** A text between two marks that have one bracket of either kind. */
  lemma MarkedCount(open: string, t: string, end: string, c: char)
    requires Bracket(c) && open != "" && end != "" && open[0] == '<' && end[|end| - 1] == '>'
    requires '<' !in open[1..] && '>' !in open && '>' !in end[..|end| - 1] && '<' !in end
    ensures Count(open + t + end, c) == 1 + Count(t, c)
  {
    CountConcat(open + t, end, c);
    CountConcat(open, t, c);
    var n := |end| - 1;
    assert open == ['<'] + open[1..] && end == end[..n] + ['>'];
    CountConcat(['<'], open[1..], c);
    CountConcat(end[..n], ['>'], c);
    assert '<' in end[..n] ==> '<' in end;
    assert '>' in open[1..] ==> '>' in open;
    CountNone(open[1..], c);
    CountNone(end[..n], c);
    CountOne('<', c);
    CountOne('>', c);
  }

  lemma CountOne(d: char, c: char)
    ensures Count([d], c) == if d == c then 1 else 0
  {
  }

  lemma LeafBrackets(pretty: bool, n: Node, depth: nat, text: int, c: char)
    requires !n.Element? && Bracket(c)
    ensures Count(Body(pretty, n, depth, text), c) == Brackets(n, c)
  {
    hide Escape, Count, Bracket;
    match n
    case Text(t, cdata) =>
      if cdata {
        MarkedCount("<![CDATA[", t, "]]>", c);
      } else {
        PlainBrackets(t, c);
      }
    case Comment(t) => MarkedCount("<!--", t, "-->", c);
    case Declaration(t) => MarkedCount("<?", t, "?>", c);
    case Unknown(t) => MarkedCount("<!", t, ">", c);
  }

  lemma PlainBrackets(t: string, c: char)
    requires Bracket(c)
    ensures Count(Escape(true, t), c) == 0
  {
    EscapeFree(true, t, c);
    CountNone(Escape(true, t), c);
  }

  lemma ElementBrackets(pretty: bool, n: Node, depth: nat, text: int, c: char)
    requires n.Element? && Named(n) && Bracket(c)
    requires Count(NodesText(pretty, false, n.children, depth + 1, text), c) == BracketsAll(n.children, c)
    ensures Count(Body(pretty, n, depth, text), c) == Brackets(n, c)
  {
    hide NodesText, AttrsText, TextDepths, NewLine, Count, Bracket, BracketsAll;
    NamedKids(n);
    var head := n.name + AttrsText(n.attrs);
    CountConcat(n.name, AttrsText(n.attrs), c);
    NameFree(n.name, c);
    AttrsFree(n.attrs, c);
    if n.children == [] {
      EmptyBrackets(c);
      assert Body(pretty, n, depth, text) == "<" + head + "/>";
      MarkedCount("<", head, "/>", c);
    } else {
      var k, nl := NodesText(pretty, false, n.children, depth + 1, text), NewLine(pretty, TextDepths(n.children, depth + 1, text) >= 0, depth);
      assert Body(pretty, n, depth, text) == ("<" + head + ">") + (k + (nl + ("</" + n.name + ">")));
      CountConcat("<" + head + ">", k + (nl + ("</" + n.name + ">")), c);
      CountConcat(k, nl + ("</" + n.name + ">"), c);
      CountConcat(nl, "</" + n.name + ">", c);
      MarkedCount("<", head, ">", c);
      MarkedCount("</", n.name, ">", c);
      LineFree(pretty, TextDepths(n.children, depth + 1, text) >= 0, depth, c);
    }
  }

  lemma EmptyBrackets(c: char)
    ensures BracketsAll([], c) == 0
  {
  }

  lemma LineFree(pretty: bool, quiet: bool, depth: nat, c: char)
    requires Bracket(c)
    ensures Count(NewLine(pretty, quiet, depth), c) == 0
  {
    CountNone(NewLine(pretty, quiet, depth), c);
  }
}
