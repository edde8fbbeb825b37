/** XMLPrinter as it runs: the pending start tag, the depth of open text and the buffer,
    proved against the text of XmlLayout. */
module XmlPrinter {
  import opened XmlText
  import opened XmlEscape
  import opened XmlDoc
  import opened XmlLayout
  import opened XmlMarkup

  const ENTITY_RANGE: nat := 64

  lemma EscapePlain(restricted: bool, a: string)
    requires forall i :: 0 <= i < |a| ==> !Flagged(restricted, a[i])
    ensures Escape(restricted, a) == a
  {
    EscapeSplit(restricted, a, |a|);
    assert a[..|a|] == a && a[|a|..] == "";
  }

  function Seal(open: bool): string {
    if open then ">" else ""
  }

  lemma Assoc(a: string, x: string, y: string)
    ensures a + x + y == a + (x + y)
  {
  }

  lemma Nothing(a: string)
    ensures a + "" == a
  {
  }

  class XMLPrinter {
    var buffer: string
    var stack: seq<string>
    var elementJustOpened: bool
    var firstElement: bool
    var depth: nat
    var textDepth: int
    const compactMode: bool

    constructor (compact: bool)
      ensures buffer == "" && stack == [] && !elementJustOpened && firstElement && depth == 0 && textDepth == -1
      ensures compactMode == compact
    {
      buffer, stack, elementJustOpened, firstElement, depth, textDepth, compactMode := "", [], false, true, 0, -1, compact;
    }

    method Write(data: string)
      modifies this`buffer
      ensures buffer == old(buffer) + data
    {
      buffer := buffer + data;
    }

    method PrintSpace(count: nat)
      modifies this`buffer
      ensures buffer == old(buffer) + Spaces(count)
    {
      var i := 0;
      while i < count
        invariant 0 <= i <= count && buffer + Spaces(count - i) == old(buffer) + Spaces(count)
      {
        assert buffer + Spaces(count - i) == (buffer + "    ") + Spaces(count - i - 1);
        Write("    ");
        i := i + 1;
      }
    }

    /** Runs of bytes between entities are written at once. */
    method PrintString(s: string, restricted: bool)
      modifies this`buffer
      ensures buffer == old(buffer) + Escape(restricted, s)
      ensures exists w :: buffer == old(buffer) + w && '<' !in w && '>' !in w && (!restricted ==> '\"' !in w && '\'' !in w)
    {
      hide Flagged, Escape, EscapeChar;
      var p, q := 0, 0;
      assert s[..0] == "";
      EscapePlain(restricted, "");
      while q < |s|
        invariant 0 <= p <= q <= |s|
        invariant buffer == old(buffer) + Escape(restricted, s[..p])
        invariant forall i :: p <= i < q ==> !Flagged(restricted, s[i])
      {
        var c := s[q];
        FlagRange(restricted, c);
        if 0 < c as int < ENTITY_RANGE && Flagged(restricted, c) {
          if p < q {
            Run(restricted, s, p, q);
            Write(s[p..q]);
            p := q;
          }
          EscapeOne(restricted, s, q);
          var k := EntityOf(c);
          Write("&");
          Write(ENTITIES[k].pattern);
          Write(";");
          p := p + 1;
        }
        q := q + 1;
      }
      Run(restricted, s, p, q);
      if p < q {
        Write(s[p..q]);
      }
      assert s[..q] == s;
      NoBrackets(restricted, s);
    }

    method SealElementIfJustOpened()
      modifies this`buffer, this`elementJustOpened
      ensures buffer == old(buffer) + Seal(old(elementJustOpened)) && !elementJustOpened
    {
      if elementJustOpened {
        elementJustOpened := false;
        Write(">");
      }
    }

    method WriteAll(a: string, b: string, c: string)
      modifies this`buffer
      ensures buffer == old(buffer) + (a + b + c)
    {
      Write(a);
      Write(b);
      Assoc(old(buffer), a, b);
      Write(c);
      Assoc(old(buffer), a + b, c);
    }

    method WriteLine(quiet: bool)
      modifies this`buffer
      ensures buffer == old(buffer) + NewLine(!compactMode, quiet, depth)
    {
      Nothing(buffer);
      if !quiet && !compactMode {
        Write("\n");
        PrintSpace(depth);
        Assoc(old(buffer), "\n", Spaces(depth));
      }
    }

    method OpenElement(name: string)
      modifies this
      ensures buffer == old(buffer) + Seal(old(elementJustOpened))
        + (Lead(!compactMode, old(firstElement), Element(name, [], []), old(depth), old(textDepth)) + ("<" + name))
      ensures stack == old(stack) + [name] && elementJustOpened && !firstElement
      ensures depth == old(depth) + 1 && textDepth == old(textDepth)
    {
      hide Lead;
      ghost var lead := Lead(!compactMode, firstElement, Element(name, [], []), depth, textDepth);
      SealElementIfJustOpened();
      stack := stack + [name];
      ghost var sealed := buffer;
      OpenLead(!compactMode, firstElement, Element(name, [], []), depth, textDepth);
      Nothing(sealed);
      if textDepth < 0 && !firstElement && !compactMode {
        Write("\n");
      }
      if !compactMode {
        ghost var line := buffer;
        PrintSpace(depth);
        Assoc(sealed, "\n", Spaces(depth));
      }
      assert buffer == sealed + lead;
      Write("<");
      Write(name);
      Assoc(sealed + lead, "<", name);
      Assoc(sealed, lead, "<" + name);
      elementJustOpened := true;
      firstElement := false;
      depth := depth + 1;
    }

    method PushAttribute(name: string, value: string)
      requires elementJustOpened
      modifies this`buffer
      ensures buffer == old(buffer) + AttrText(Attr(name, value))
      ensures buffer == old(buffer) + " " + name + "=\"" + Escape(false, value) + "\""
    {
      hide Escape;
      Write(" ");
      Write(name);
      Write("=\"");
      PrintString(value, false);
      Write("\"");
    }

    method CloseElement()
      requires stack != [] && depth > 0
      modifies this
      ensures depth == old(depth) - 1 && stack == old(stack[..|stack| - 1])
      ensures !elementJustOpened && firstElement == old(firstElement)
      ensures textDepth == if old(textDepth) == depth then -1 else old(textDepth)
      ensures buffer == old(buffer)
        + (if old(elementJustOpened) then "/>"
           else NewLine(!compactMode, old(textDepth) >= 0, depth) + EndTagText(old(stack[|stack| - 1])))
        + (if !compactMode && depth == 0 then "\n" else "")
    {
      hide NewLine;
      depth := depth - 1;
      var name := stack[|stack| - 1];
      stack := stack[..|stack| - 1];
      if elementJustOpened {
        Write("/>");
      } else {
        WriteLine(textDepth >= 0);
        WriteAll("</", name, ">");
        Assoc(old(buffer), NewLine(!compactMode, textDepth >= 0, depth), EndTagText(name));
      }
      Nothing(buffer);
      if textDepth == depth {
        textDepth := -1;
      }
      if depth == 0 && !compactMode {
        Write("\n");
      }
      elementJustOpened := false;
    }

    method PushText(text: string, cdata: bool)
      modifies this
      ensures buffer == old(buffer) + Seal(old(elementJustOpened)) + LeafText(Text(text, cdata))
      ensures textDepth == depth - 1 && !elementJustOpened
      ensures depth == old(depth) && stack == old(stack) && firstElement == old(firstElement)
    {
      textDepth := depth - 1;
      SealElementIfJustOpened();
      if cdata {
        WriteAll("<![CDATA[", text, "]]>");
      } else {
        PrintString(text, true);
      }
    }

    /** PushComment, PushDeclaration and PushUnknown. */
    method PushLeaf(n: Node)
      requires n.Comment? || n.Declaration? || n.Unknown?
      modifies this
      ensures buffer == old(buffer) + Seal(old(elementJustOpened))
        + (Lead(!compactMode, old(firstElement), n, depth, textDepth) + LeafText(n))
      ensures !elementJustOpened && !firstElement
      ensures depth == old(depth) && stack == old(stack) && textDepth == old(textDepth)
    {
      hide NewLine;
      SealElementIfJustOpened();
      ghost var sealed := buffer;
      WriteLine(textDepth >= 0 || firstElement);
      firstElement := false;
      match n {
        case Comment(t) =>
          WriteAll("<!--", t, "-->");
        case Declaration(t) =>
          WriteAll("<?", t, "?>");
        case Unknown(t) =>
          WriteAll("<!", t, ">");
        case _ =>
      }
      Assoc(sealed, NewLine(!compactMode, textDepth >= 0 || old(firstElement), depth), LeafText(n));
    }

    method PushAttributes(attrs: seq<Attr>)
      requires elementJustOpened
      modifies this`buffer
      ensures buffer == old(buffer) + AttrsText(attrs)
    {
      hide AttrText;
      var i := 0;
      assert attrs[0..] == attrs;
      while i < |attrs|
        invariant 0 <= i <= |attrs| && buffer + AttrsText(attrs[i..]) == old(buffer) + AttrsText(attrs)
      {
        assert attrs[i..][0] == attrs[i] && attrs[i..][1..] == attrs[i + 1..];
        assert buffer + AttrsText(attrs[i..]) == buffer + AttrText(attrs[i]) + AttrsText(attrs[i + 1..]);
        PushAttribute(attrs[i].name, attrs[i].value);
        i := i + 1;
      }
    }

    /** XMLNode::Accept: the node is entered, its children accepted, and left. */
    method Accept(n: Node)
      modifies this
      ensures buffer == old(buffer) + Seal(old(elementJustOpened))
        + NodeText(!compactMode, old(firstElement), n, depth, old(textDepth))
      ensures depth == old(depth) && stack == old(stack) && !elementJustOpened
      ensures firstElement == (old(firstElement) && n.Text?)
      ensures textDepth == TextDepth(n, depth, old(textDepth))
      decreases n, 0
    {
      hide Escape, NodesText, AttrsText, NewLine, Lead, Trail, TextDepths, LeafText, Spaces;
      ghost var b0, open := buffer, elementJustOpened;
      ghost var lead := Lead(!compactMode, firstElement, n, depth, textDepth);
      match n {
        case Element(name, attrs, children) =>
          ghost var first, text := firstElement, textDepth;
          SameLead(!compactMode, first, n, depth, text);
          OpenElement(name);
          PushAttributes(attrs);
          AcceptAll(children);
          CloseElement();
          NoChildren(!compactMode, depth + 1, text);
          ElementText(!compactMode, first, n, depth, text, b0 + Seal(open), buffer);
        case Text(t, cdata) =>
          PushText(t, cdata);
          TextNode(!compactMode, old(firstElement), n, depth, old(textDepth));
        case _ =>
          PushLeaf(n);
          OtherNode(!compactMode, old(firstElement), n, depth, old(textDepth));
      }
    }

    method AcceptAll(ns: seq<Node>)
      modifies this
      ensures buffer == old(buffer) + Seal(old(elementJustOpened) && ns != [])
        + NodesText(!compactMode, old(firstElement), ns, depth, old(textDepth))
      ensures depth == old(depth) && stack == old(stack)
      ensures elementJustOpened == (old(elementJustOpened) && ns == [])
      ensures old(!firstElement) ==> !firstElement
      ensures textDepth == TextDepths(ns, depth, old(textDepth))
      decreases ns, 1
    {
      hide NodeText, TextDepth, NodesText, TextDepths;
      var i := 0;
      assert ns[0..] == ns;
      while i < |ns|
        invariant 0 <= i <= |ns| && depth == old(depth) && stack == old(stack)
        invariant elementJustOpened == (old(elementJustOpened) && i == 0)
        invariant old(!firstElement) ==> !firstElement
        invariant TextDepths(ns[i..], depth, textDepth) == TextDepths(ns, depth, old(textDepth))
        invariant buffer + Seal(elementJustOpened && i < |ns|) + NodesText(!compactMode, firstElement, ns[i..], depth, textDepth)
          == old(buffer) + Seal(old(elementJustOpened) && ns != [])
             + NodesText(!compactMode, old(firstElement), ns, depth, old(textDepth))
      {
        NodesNext(!compactMode, firstElement, ns, i, depth, textDepth);
        Accept(ns[i]);
        i := i + 1;
      }
      NodesOver(!compactMode, firstElement, ns, depth, textDepth);
    }

    /** XMLDocument::Print */
    method Print(bom: bool, ns: seq<Node>)
      requires buffer == "" && !elementJustOpened && firstElement && depth == 0 && textDepth == -1
      modifies this
      ensures buffer == DocumentText(!compactMode, bom, ns)
      ensures compactMode ==> buffer == (if bom then BOM else "") + CompactAll(ns)
      ensures !compactMode && ns != [] && AllTextless(ns) ==>
        exists t :: "\n" + t == TopOutline(ns) && buffer == (if bom then BOM else "") + t
      ensures AllNamed(ns) ==> forall c :: Bracket(c) ==> Count(buffer, c) == BracketsAll(ns, c)
    {
      hide NodesText, CompactAll, AllTextless, TopOutline, AllNamed, BracketsAll, Count, Bracket;
      if bom {
        Write(BOM);
      }
      AcceptAll(ns);
      DocumentForm(!compactMode, bom, ns);
    }
  }

  lemma NoBrackets(restricted: bool, s: string)
    ensures var w := Escape(restricted, s);
      '<' !in w && '>' !in w && (!restricted ==> '\"' !in w && '\'' !in w)
  {
    EscapeFree(restricted, s, '<');
    EscapeFree(restricted, s, '>');
    if !restricted {
      EscapeFree(restricted, s, '\"');
      EscapeFree(restricted, s, '\'');
    }
  }

  lemma DocumentForm(pretty: bool, bom: bool, ns: seq<Node>)
    ensures var d := DocumentText(pretty, bom, ns);
      && (!pretty ==> d == (if bom then BOM else "") + CompactAll(ns))
      && (pretty && ns != [] && AllTextless(ns) ==>
            exists t :: "\n" + t == TopOutline(ns) && d == (if bom then BOM else "") + t)
      && (AllNamed(ns) ==> forall c :: Bracket(c) ==> Count(d, c) == BracketsAll(ns, c))
  {
    hide NodesText, CompactAll, AllTextless, TopOutline, AllNamed, BracketsAll, Count, Bracket;
    var mark, text := if bom then BOM else "", NodesText(pretty, true, ns, 0, -1);
    if !pretty { CompactText(true, ns, 0, -1); }
    if pretty && ns != [] && AllTextless(ns) { PrettyTop(true, ns); }
    if AllNamed(ns) {
      forall c | Bracket(c) ensures Count(mark + text, c) == BracketsAll(ns, c) {
        BracketCount(pretty, true, ns, 0, -1, c);
        CountConcat(mark, text, c);
        MarkFree(bom, c);
      }
    }
  }

  lemma MarkFree(bom: bool, c: char)
    requires Bracket(c)
    ensures Count(if bom then BOM else "", c) == 0
  {
    CountNone(if bom then BOM else "", c);
  }

  lemma NodesNext(pretty: bool, first: bool, ns: seq<Node>, i: nat, depth: nat, text: int)
    requires i < |ns|
    ensures NodesText(pretty, first, ns[i..], depth, text)
         == NodeText(pretty, first, ns[i], depth, text)
            + NodesText(pretty, first && ns[i].Text?, ns[i + 1..], depth, TextDepth(ns[i], depth, text))
    ensures TextDepths(ns[i..], depth, text) == TextDepths(ns[i + 1..], depth, TextDepth(ns[i], depth, text))
  {
    hide NodeText, TextDepth;
    assert ns[i..][0] == ns[i] && ns[i..][1..] == ns[i + 1..];
  }

  lemma NodesOver(pretty: bool, first: bool, ns: seq<Node>, depth: nat, text: int)
    ensures NodesText(pretty, first, ns[|ns|..], depth, text) == "" && TextDepths(ns[|ns|..], depth, text) == text
  {
  }

  lemma OpenLead(pretty: bool, first: bool, n: Node, depth: nat, text: int)
    requires n.Element?
    ensures Lead(pretty, first, n, depth, text)
         == if !pretty then "" else if text < 0 && !first then "\n" + Spaces(depth) else Spaces(depth)
  {
  }

  lemma SameLead(pretty: bool, first: bool, n: Node, depth: nat, text: int)
    requires n.Element?
    ensures Lead(pretty, first, n, depth, text) == Lead(pretty, first, Element(n.name, [], []), depth, text)
  {
  }

  lemma NoChildren(pretty: bool, depth: nat, text: int)
    ensures NodesText(pretty, false, [], depth, text) == ""
  {
  }

  lemma TextNode(pretty: bool, first: bool, n: Node, depth: nat, text: int)
    requires n.Text?
    ensures NodeText(pretty, first, n, depth, text) == LeafText(n)
  {
    hide LeafText;
  }

  lemma OtherNode(pretty: bool, first: bool, n: Node, depth: nat, text: int)
    requires !n.Text? && !n.Element?
    ensures NodeText(pretty, first, n, depth, text) == Lead(pretty, first, n, depth, text) + LeafText(n)
  {
    hide LeafText;
    Nothing(LeafText(n));
  }

  /** The pieces that entering, printing the children and leaving write make up the element. */
  lemma ElementText(pretty: bool, first: bool, n: Node, depth: nat, text: int, b: string, after: string)
    requires n.Element?
    requires var c := NodesText(pretty, false, n.children, depth + 1, text);
      after == b + (Lead(pretty, first, n, depth, text) + ("<" + n.name)) + AttrsText(n.attrs)
        + Seal(n.children != []) + c
        + (if n.children == [] then "/>"
           else NewLine(pretty, TextDepths(n.children, depth + 1, text) >= 0, depth) + EndTagText(n.name))
        + (if pretty && depth == 0 then "\n" else "")
    requires n.children == [] ==> NodesText(pretty, false, n.children, depth + 1, text) == ""
    ensures after == b + NodeText(pretty, first, n, depth, text)
  {
    hide NodesText, AttrsText, NewLine, Lead, TextDepths, EndTagText;
    var lead, at, c := Lead(pretty, first, n, depth, text), AttrsText(n.attrs),
      NodesText(pretty, false, n.children, depth + 1, text);
    var nl := NewLine(pretty, TextDepths(n.children, depth + 1, text) >= 0, depth);
    var tr := Trail(pretty, n, depth);
    if n.children == [] {
      Pieces(b, lead, n.name, at, "", "", "/>", tr);
    } else {
      Pieces(b, lead, n.name, at, ">", c, nl + EndTagText(n.name), tr);
    }
  }

  lemma Pieces(b: string, lead: string, name: string, at: string, open: string, c: string, end: string, trail: string)
    ensures b + (lead + ("<" + name)) + at + open + c + end + trail
         == b + (lead + ("<" + (name + (at + (open + (c + end)))) + trail))
  {
    var x := "<" + name;
    calc {
      b + (lead + x) + at + open + c + end + trail;
      { Assoc(b + (lead + x) + at + open, c, end); }
      b + (lead + x) + at + open + (c + end) + trail;
      { Assoc(b + (lead + x) + at, open, c + end); }
      b + (lead + x) + at + (open + (c + end)) + trail;
      { Assoc(b + (lead + x), at, open + (c + end)); }
      b + (lead + x) + (at + (open + (c + end))) + trail;
      { Assoc(b, lead, x); Assoc(b + lead, x, at + (open + (c + end))); }
      b + lead + (x + (at + (open + (c + end)))) + trail;
      { Assoc("<", name, at + (open + (c + end))); }
      b + lead + ("<" + (name + (at + (open + (c + end))))) + trail;
      { Assoc(b + lead, "<" + (name + (at + (open + (c + end)))), trail); }
      b + lead + ("<" + (name + (at + (open + (c + end)))) + trail);
      { Assoc(b, lead, "<" + (name + (at + (open + (c + end)))) + trail); }
      b + (lead + ("<" + (name + (at + (open + (c + end)))) + trail));
    }
  }

  lemma FlagRange(restricted: bool, c: char)
    ensures Flagged(restricted, c) ==> 0 < c as int < ENTITY_RANGE && Flagged(false, c)
  {
  }

  lemma Run(restricted: bool, s: string, p: nat, q: nat)
    requires p <= q <= |s| && forall i :: p <= i < q ==> !Flagged(restricted, s[i])
    ensures Escape(restricted, s[..q]) == Escape(restricted, s[..p]) + s[p..q]
  {
    assert s[..q] == s[..p] + s[p..q];
    EscapeConcat(restricted, s[..p], s[p..q]);
    EscapePlain(restricted, s[p..q]);
  }

  lemma EscapeOne(restricted: bool, s: string, q: nat)
    requires q < |s| && Flagged(restricted, s[q])
    ensures Flagged(false, s[q])
    ensures Escape(restricted, s[..q + 1])
         == Escape(restricted, s[..q]) + "&" + ENTITIES[EntityOf(s[q])].pattern + ";"
  {
    assert s[..q + 1] == s[..q] + [s[q]];
    EscapeConcat(restricted, s[..q], [s[q]]);
    assert [s[q]][1..] == "";
  }
}
