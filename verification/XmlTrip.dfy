/** The round trip of documents: what the printer writes, compact or pretty, is one of the texts
    that the parser accepts, and it means the tree that was printed, padded. */
module XmlTrip {
  import opened XmlText
  import opened XmlEscape
  import opened XmlDoc
  import opened XmlLayout
  import opened XmlRound
  import opened XmlForms
  import opened XmlGrammar

  // --- The printed text as items ---

  function KindOf(n: Node): Kind {
    match n
    case Element(_, _, _) => IsElement
    case Text(_, cdata) => if cdata then IsCData else IsText
    case Comment(_) => IsComment
    case Declaration(_) => IsDeclaration
    case Unknown(_) => IsUnknown
  }

  function AttrFormsOf(attrs: seq<Attr>): (fs: seq<AttrForm>)
    ensures |fs| == |attrs|
    ensures forall i :: 0 <= i < |fs| ==> fs[i] == AttrForm(" ", attrs[i].name, "", "", '\"', Escape(false, attrs[i].value))
  {
    if attrs == [] then [] else [AttrForm(" ", attrs[0].name, "", "", '\"', Escape(false, attrs[0].value))] + AttrFormsOf(attrs[1..])
  }

  /** A node that is no plain text, behind the white space `lead`. */
  function FormOf(pretty: bool, lead: string, n: Node, depth: nat, text: int): (i: Item)
    requires !PlainText(n)
    ensures !i.Plain? && i.lead == lead && (i.Mark? ==> LeafKind(i.kind)) && (i.Open? ==> Legible(i.items))
    decreases n, 0
  {
    match n
    case Element(name, attrs, children) =>
      var tag := TagForm("", name, AttrFormsOf(attrs), "");
      if children == [] then Sealed(lead, tag)
      else Open(lead, tag, FormsOf(pretty, Lead(pretty, false, children[0], depth + 1, text), false, children, depth + 1, text),
                NewLine(pretty, TextDepths(children, depth + 1, text) >= 0, depth), TagForm("", name, [], ""))
    case Text(t, _) => Mark(lead, IsCData, t)
    case Comment(t) => Mark(lead, IsComment, t)
    case Declaration(t) => Mark(lead, IsDeclaration, t)
    case Unknown(t) => Mark(lead, IsUnknown, t)
  }

  /** A list of nodes; the white space before the first one is given. What pretty printing writes
      behind plain text belongs to that text. */
  function FormsOf(pretty: bool, lead: string, first: bool, ns: seq<Node>, depth: nat, text: int): (r: seq<Item>)
    requires ns != []
    ensures |r| == |ns| && Legible(r) && forall i :: 0 <= i < |r| ==> (r[i].Plain? <==> PlainText(ns[i]))
    ensures !r[0].Plain? ==> r[0].lead == lead
    decreases ns, 1
  {
    var n, rest, first', t := ns[0], ns[1..], first && ns[0].Text?, TextDepth(ns[0], depth, text);
    if PlainText(n) then
      [Plain(Escape(true, n.text) + Padding(pretty, rest, depth))]
      + if rest == [] then [] else FormsOf(pretty, "", first', rest, depth, t)
    else
      [FormOf(pretty, lead, n, depth, text)]
      + if rest == [] then [] else FormsOf(pretty, Trail(pretty, n, depth) + Lead(pretty, first', rest[0], depth, t), first', rest, depth, t)
  }

  /** No plain text stands next to plain text, nor at the root. */
  predicate Spaced(ns: seq<Node>, depth: nat) {
    ns == [] ||
    (Spaced(ns[1..], depth) && (ns[0].Element? ==> Spaced(ns[0].children, depth + 1))
     && (PlainText(ns[0]) ==> depth > 0 && (|ns| > 1 ==> !PlainText(ns[1]))))
  }

  lemma {:induction false} AttrsForm(attrs: seq<Attr>)
    ensures AttrFormsText(AttrFormsOf(attrs)) == AttrsText(attrs)
  {
    hide Escape;
    if attrs != [] {
      AttrsForm(attrs[1..]);
      var a := attrs[0];
      assert AttrFormText(AttrForm(" ", a.name, "", "", '\"', Escape(false, a.value))) == AttrText(a);
    }
  }

  /** Behind text only an element is indented, and on the same line. */
  lemma QuietLead(pretty: bool, first: bool, n: Node, rest: seq<Node>, depth: nat)
    requires rest != [] && depth > 0 && n == rest[0] && !PlainText(n)
    ensures Lead(pretty, first, n, depth, depth - 1) == Padding(pretty, rest, depth)
  {
  }

  lemma SpacedHead(ns: seq<Node>, depth: nat, text: int)
    requires ns != [] && Spaced(ns, depth)
    ensures Spaced(ns[1..], depth) && (ns[0].Element? ==> Spaced(ns[0].children, depth + 1))
    ensures PlainText(ns[0]) ==> depth > 0 && (|ns| > 1 ==> !PlainText(ns[1])) && TextDepth(ns[0], depth, text) == depth - 1
  {
  }

  lemma PlainForm(pretty: bool, n: Node, depth: nat, text: int)
    requires PlainText(n)
    ensures Body(pretty, n, depth, text) == Escape(true, n.text) && Trail(pretty, n, depth) == ""
  {
  }

  lemma PlainItem(raw: string)
    ensures ItemText(Plain(raw)) == raw
  {
  }

  lemma OneForm(fs: seq<Item>)
    requires |fs| == 1 && Legible(fs)
    ensures ItemsText(fs) == ItemText(fs[0])
  {
    assert ItemText(fs[0]) + "" == ItemText(fs[0]);
  }

  lemma ManyForms(fs: seq<Item>, rest: seq<Item>)
    requires fs != [] && fs[1..] == rest && Legible(fs)
    ensures ItemsText(fs) == ItemText(fs[0]) + ItemsText(rest)
  {
  }

  lemma NoPadding(pretty: bool, depth: nat)
    ensures Padding(pretty, [], depth) == ""
  {
  }

  lemma NodesCons(pretty: bool, first: bool, ns: seq<Node>, depth: nat, text: int)
    requires ns != []
    ensures NodesText(pretty, first, ns, depth, text)
         == Lead(pretty, first, ns[0], depth, text) + (Body(pretty, ns[0], depth, text) + (Trail(pretty, ns[0], depth)
            + NodesText(pretty, first && ns[0].Text?, ns[1..], depth, TextDepth(ns[0], depth, text))))
  {
    hide Lead, Body, Trail, TextDepth;
    var a, b, c := Lead(pretty, first, ns[0], depth, text), Body(pretty, ns[0], depth, text), Trail(pretty, ns[0], depth);
    var d := NodesText(pretty, first && ns[0].Text?, ns[1..], depth, TextDepth(ns[0], depth, text));
    assert (a + (b + c)) + d == a + (b + (c + d));
  }

  /** The items spell what is printed, the line break behind a root element aside. */
  lemma {:induction false} FormsText(pretty: bool, lead: string, first: bool, ns: seq<Node>, depth: nat, text: int)
    requires ns != [] && Spaced(ns, depth) && (PlainText(ns[0]) ==> lead == "")
    ensures ItemsText(FormsOf(pretty, lead, first, ns, depth, text)) + Trail(pretty, ns[|ns| - 1], depth)
         == lead + (Body(pretty, ns[0], depth, text) + (Trail(pretty, ns[0], depth)
            + NodesText(pretty, first && ns[0].Text?, ns[1..], depth, TextDepth(ns[0], depth, text))))
    decreases ns, 1
  {
    hide Escape, ItemText, ItemsText, NodesText, FormOf, FormsOf, Body, TextDepth, Lead, Trail, Padding, Spaces, Spaced;
    var n, rest, first', t := ns[0], ns[1..], first && ns[0].Text?, TextDepth(ns[0], depth, text);
    FormsCons(pretty, lead, first, ns, depth, text);
    SpacedHead(ns, depth, text);
    if PlainText(n) {
      PlainForm(pretty, n, depth, text);
      PlainItem(Escape(true, n.text) + Padding(pretty, rest, depth));
    } else {
      FormText(pretty, lead, n, depth, text);
    }
    var fs := FormsOf(pretty, lead, first, ns, depth, text);
    var body, trail := Body(pretty, n, depth, text), Trail(pretty, n, depth);
    if rest == [] {
      OneForm(fs);
      NoPadding(pretty, depth);
      NoNodes(pretty, first', depth, t);
      assert ns[|ns| - 1] == n;
    } else {
      var l1 := Lead(pretty, first', rest[0], depth, t);
      var lead' := if PlainText(n) then "" else trail + l1;
      if PlainText(n) { QuietLead(pretty, first', rest[0], rest, depth); }
      if PlainText(rest[0]) { PlainLead(pretty, first', rest, n, depth, t); }
      FormsText(pretty, lead', first', rest, depth, t);
      NodesCons(pretty, first', rest, depth, t);
      assert rest[|rest| - 1] == ns[|ns| - 1];
      ManyForms(fs, fs[1..]);
      var head, end := ItemText(fs[0]), Trail(pretty, ns[|ns| - 1], depth);
      var more := Body(pretty, rest[0], depth, t) + (Trail(pretty, rest[0], depth)
                  + NodesText(pretty, first' && rest[0].Text?, rest[1..], depth, TextDepth(rest[0], depth, t)));
      Linked(lead, body, trail, l1, more, head, lead', ItemsText(fs[1..]), end);
    }
  }

  lemma PlainLead(pretty: bool, first: bool, rest: seq<Node>, n: Node, depth: nat, text: int)
    requires rest != [] && PlainText(rest[0]) && Spaced(rest, depth)
    ensures Lead(pretty, first, rest[0], depth, text) == "" && Trail(pretty, n, depth) == ""
  {
    hide Spaces;
  }

  lemma FormsCons(pretty: bool, lead: string, first: bool, ns: seq<Node>, depth: nat, text: int)
    requires ns != []
    ensures var fs, first', t := FormsOf(pretty, lead, first, ns, depth, text), first && ns[0].Text?, TextDepth(ns[0], depth, text);
      && fs[0] == (if PlainText(ns[0]) then Plain(Escape(true, ns[0].text) + Padding(pretty, ns[1..], depth))
                   else FormOf(pretty, lead, ns[0], depth, text))
      && fs[1..] == (if |ns| == 1 then []
                     else FormsOf(pretty, if PlainText(ns[0]) then "" else Trail(pretty, ns[0], depth) + Lead(pretty, first', ns[1], depth, t),
                                  first', ns[1..], depth, t))
  {
    hide Escape, Body, TextDepth, Lead, Trail, Padding, Spaces;
  }

  lemma NoNodes(pretty: bool, first: bool, depth: nat, text: int)
    ensures NodesText(pretty, first, [], depth, text) == ""
  {
  }

  lemma Linked(lead: string, body: string, trail: string, l1: string, more: string, head: string, lead': string, forms: string, end: string)
    requires forms + end == lead' + more
    requires (head == lead + body && lead' == trail + l1) || (head == body + l1 && lead == "" && trail == "" && lead' == "")
    ensures (head + forms) + end == lead + (body + (trail + (l1 + more)))
  {
    assert (head + forms) + end == head + (lead' + more);
    if lead' == "" && lead == "" && trail == "" && head == body + l1 {
      assert lead' + more == more;
      assert (body + l1) + more == body + (l1 + more);
      assert trail + (l1 + more) == l1 + more;
      assert lead + (body + (l1 + more)) == body + (l1 + more);
    } else {
      assert (lead + body) + ((trail + l1) + more) == lead + (body + (trail + (l1 + more)));
    }
  }

  lemma FormText(pretty: bool, lead: string, n: Node, depth: nat, text: int)
    requires !PlainText(n) && (n.Element? ==> Spaced(n.children, depth + 1))
    ensures ItemText(FormOf(pretty, lead, n, depth, text)) == lead + Body(pretty, n, depth, text)
    decreases n, 0
  {
    hide Escape, NodesText, AttrsText, AttrFormsText, AttrFormsOf, FormsOf, ItemsText, TextDepths, NewLine, Trail, Lead;
    if n.Element? {
      AttrsForm(n.attrs);
      var a := AttrsText(n.attrs);
      if n.children == [] {
        assert a + ("" + "/>") == a + "/>";
        assert "" + (n.name + (a + "/>")) == n.name + (a + "/>");
      } else {
        ChildForms(pretty, n, depth, text);
        NoAttrForms();
        ElementForm(lead, n.name, a, NodesText(pretty, false, n.children, depth + 1, text),
                    NewLine(pretty, TextDepths(n.children, depth + 1, text) >= 0, depth));
      }
    }
  }

  lemma NoAttrForms()
    ensures AttrFormsOf([]) == [] && AttrFormsText([]) == ""
  {
  }

  lemma ElementForm(lead: string, name: string, a: string, c: string, nl: string)
    ensures lead + ("<" + ("" + ((name + (a + ("" + ">"))) + (c + (nl + ("<" + ("" + ("/" + (name + ("" + ("" + ">")))))))))))
         == lead + ("<" + (name + (a + (">" + (c + (nl + ("</" + name + ">")))))))
  {
    assert "" + ("/" + (name + ("" + ("" + ">")))) == "/" + name + ">";
    assert "<" + ("/" + name + ">") == "</" + name + ">";
    assert "" + ">" == ">";
    var r := c + (nl + ("</" + name + ">"));
    assert (name + (a + ">")) + r == name + (a + (">" + r));
    assert "" + (name + (a + (">" + r))) == name + (a + (">" + r));
  }

  lemma ChildForms(pretty: bool, n: Node, depth: nat, text: int)
    requires n.Element? && n.children != [] && Spaced(n.children, depth + 1)
    ensures ItemsText(FormsOf(pretty, Lead(pretty, false, n.children[0], depth + 1, text), false, n.children, depth + 1, text))
         == NodesText(pretty, false, n.children, depth + 1, text)
    decreases n.children, 2
  {
    hide Escape, NodesText, FormsOf, ItemsText, Body, TextDepth, Spaces;
    var c := n.children;
    FormsText(pretty, Lead(pretty, false, c[0], depth + 1, text), false, c, depth + 1, text);
    NodesCons(pretty, false, c, depth + 1, text);
    var forms := ItemsText(FormsOf(pretty, Lead(pretty, false, c[0], depth + 1, text), false, c, depth + 1, text));
    assert Trail(pretty, c[|c| - 1], depth + 1) == "" && forms + "" == forms;
  }

  // --- They are well formed ---

  predicate NormalAll(ns: seq<Node>) {
    ns == [] || (Normal(ns[0]) && NormalAll(ns[1..]))
  }

  /** Declarations stand before everything else, if at all. */
  predicate Declarable(ns: seq<Node>, decls: bool) {
    ns == [] || ((ns[0].Declaration? ==> decls) && Declarable(ns[1..], decls && ns[0].Declaration?))
  }

  lemma {:induction false} KidsNormal(ns: seq<Node>, depth: nat)
    requires NormalKids(ns) && depth > 0
    ensures NormalAll(ns) && Spaced(ns, depth) && Declarable(ns, false)
    decreases ns
  {
    if ns != [] {
      KidsNormal(ns[1..], depth);
      if ns[0].Element? { KidsNormal(ns[0].children, depth + 1); }
    }
  }

  lemma {:induction false} TopNormal(decls: bool, ns: seq<Node>)
    requires NormalTop(decls, ns)
    ensures NormalAll(ns) && Spaced(ns, 0) && Declarable(ns, decls)
    decreases ns
  {
    if ns != [] {
      TopNormal(decls && ns[0].Declaration?, ns[1..]);
      if ns[0].Element? { KidsNormal(ns[0].children, 1); }
    }
  }

  lemma {:induction false} LastText(ns: seq<Node>, depth: nat, text: int)
    requires ns != [] && PlainText(ns[|ns| - 1])
    ensures TextDepths(ns, depth, text) == depth - 1
  {
    if |ns| > 1 {
      LastText(ns[1..], depth, TextDepth(ns[0], depth, text));
    }
  }

  lemma TagFormOk(name: string, attrs: seq<Attr>)
    requires IsName(name) && NormalAttrs(attrs)
    ensures TagOk(TagForm("", name, AttrFormsOf(attrs), ""))
  {
    hide Escape, IsName, Clean;
    forall i | 0 <= i < |attrs| ensures AttrOk(AttrFormsOf(attrs)[i]) {
      EscapeFree(false, attrs[i].value, '\"');
    }
  }

  lemma PlainOk(t: string, pad: string)
    requires !Blank(t) && forall i :: 0 <= i < |pad| ==> pad[i] == ' '
    ensures ItemOk(Plain(Escape(true, t) + pad))
  {
    hide Escape;
    EscapeNotBlank(t);
    EscapeFree(true, t, '<');
    var e := Escape(true, t);
    var i :| 0 <= i < |e| && !IsWhite(e[i]);
    assert (e + pad)[i] == e[i];
  }

  lemma PaddingSpaces(pretty: bool, rest: seq<Node>, depth: nat)
    ensures var pad := Padding(pretty, rest, depth); forall i :: 0 <= i < |pad| ==> pad[i] == ' '
  {
  }

  lemma BlankLead(pretty: bool, first: bool, n: Node, m: Node, depth: nat, text: int)
    ensures Blank(Trail(pretty, m, depth) + Lead(pretty, first, n, depth, text)) && Blank(Lead(pretty, first, n, depth, text))
    ensures Blank(NewLine(pretty, first, depth)) && Blank("")
  {
  }

  lemma QuietLine(pretty: bool, depth: nat)
    ensures NewLine(pretty, true, depth) == ""
  {
  }

  lemma {:induction false} FormsOk(pretty: bool, lead: string, first: bool, ns: seq<Node>, depth: nat, text: int)
    requires ns != [] && NormalAll(ns) && Spaced(ns, depth) && Blank(lead)
    ensures ItemsOk(FormsOf(pretty, lead, first, ns, depth, text))
    decreases ns, 1
  {
    hide Escape, FormOf, FormsOf, ItemOk, TextDepth, Lead, Trail, Padding, Spaces, Blank, Normal;
    var n, rest, first', t := ns[0], ns[1..], first && ns[0].Text?, TextDepth(ns[0], depth, text);
    FormsCons(pretty, lead, first, ns, depth, text);
    SpacedHead(ns, depth, text);
    if PlainText(n) {
      PaddingSpaces(pretty, rest, depth);
      NotBlank(n);
      PlainOk(n.text, Padding(pretty, rest, depth));
    } else {
      FormOk(pretty, lead, n, depth, text);
    }
    if rest != [] {
      BlankLead(pretty, first', rest[0], n, depth, t);
      FormsOk(pretty, if PlainText(n) then "" else Trail(pretty, n, depth) + Lead(pretty, first', rest[0], depth, t), first', rest, depth, t);
    }
  }

  lemma NotBlank(n: Node)
    requires PlainText(n) && Normal(n)
    ensures !Blank(n.text) && Clean(n.text)
  {
  }

  lemma FormOk(pretty: bool, lead: string, n: Node, depth: nat, text: int)
    requires !PlainText(n) && Normal(n) && Blank(lead)
    ensures ItemOk(FormOf(pretty, lead, n, depth, text))
    decreases n, 0
  {
    hide Escape, FormsOf, TextDepth, TextDepths, Lead, NewLine, Spaces, Blank, AttrFormsOf, TagOk, Free, Clean, NormalAttrs, ItemsOk, IsName;
    if n.Element? {
      TagFormOk(n.name, n.attrs);
      BareTag(n.name);
      if n.children != [] {
        KidsNormal(n.children, depth + 1);
        BlankLead(pretty, false, n.children[0], n, depth + 1, text);
        FormsOk(pretty, Lead(pretty, false, n.children[0], depth + 1, text), false, n.children, depth + 1, text);
        BlankLead(pretty, TextDepths(n.children, depth + 1, text) >= 0, n, n, depth, text);
        if PlainText(n.children[|n.children| - 1]) {
          LastText(n.children, depth + 1, text);
          QuietLine(pretty, depth);
        }
      }
    }
  }

  lemma BareTag(name: string)
    requires IsName(name)
    ensures TagOk(TagForm("", name, [], ""))
  {
  }

  // --- They mean the tree ---

  lemma SameAttrs(attrs: seq<Attr>)
    requires NormalAttrs(attrs)
    ensures AttrsOf(AttrFormsOf(attrs)) == attrs && Distinct(attrs)
  {
    hide Escape, Value, IsName, Clean;
    forall i | 0 <= i < |attrs| ensures AttrsOf(AttrFormsOf(attrs))[i] == attrs[i] {
      ValueOf(false, attrs[i].value);
    }
  }

  lemma PlainMeant(t: string, pad: string, depth: nat, top: bool, kids: seq<Node>)
    requires Clean(t) && forall i :: 0 <= i < |pad| ==> pad[i] == ' '
    ensures MeantOne(Plain(Escape(true, t) + pad), depth, top, kids) == Fine(kids + [Text(t + pad, false)])
  {
    hide Escape, Value;
    EscapeSpaces(t, pad);
    ValueOf(true, t + pad);
  }

  lemma {:induction false} FormsMean(pretty: bool, lead: string, first: bool, ns: seq<Node>, depth: nat, text: int, top: bool, kids: seq<Node>)
    requires ns != [] && NormalAll(ns) && Declarable(ns, top && AllDeclarations(kids)) && depth + 1 < MAX_ELEMENT_DEPTH
    ensures Meant(FormsOf(pretty, lead, first, ns, depth, text), depth + 1, top, kids)
         == if AllFit(ns, depth + 1) then Fine(kids + AllPadded(pretty, ns, depth)) else Wrong(ErrorDepth)
    decreases ns, 1
  {
    hide Escape, FormOf, FormsOf, MeantOne, Fits, Padded, TextDepth, Lead, Trail, Padding, Spaces, Normal, AllDeclarations;
    var n, rest, first', t := ns[0], ns[1..], first && ns[0].Text?, TextDepth(ns[0], depth, text);
    var x := Padded(pretty, n, rest, depth);
    FormsCons(pretty, lead, first, ns, depth, text);
    if PlainText(n) {
      PaddingSpaces(pretty, rest, depth);
      NotBlank(n);
      PlainMeant(n.text, Padding(pretty, rest, depth), depth + 1, top, kids);
      PlainPadded(pretty, n, rest, depth);
    } else {
      FormMeans(pretty, lead, n, rest, depth, text, top, kids);
    }
    PaddedAll(pretty, ns, depth, kids);
    if rest != [] && Fits(n, depth + 1) {
      DeclaredOn(pretty, n, rest, depth, top, kids);
      FormsMean(pretty, if PlainText(n) then "" else Trail(pretty, n, depth) + Lead(pretty, first', rest[0], depth, t),
                first', rest, depth, t, top, kids + [x]);
    }
  }

  lemma PlainPadded(pretty: bool, n: Node, rest: seq<Node>, depth: nat)
    requires PlainText(n)
    ensures Padded(pretty, n, rest, depth) == Text(n.text + Padding(pretty, rest, depth), false) && Fits(n, depth + 1)
  {
  }

  lemma PaddedAll(pretty: bool, ns: seq<Node>, depth: nat, kids: seq<Node>)
    requires ns != []
    ensures kids + AllPadded(pretty, ns, depth) == kids + [Padded(pretty, ns[0], ns[1..], depth)] + AllPadded(pretty, ns[1..], depth)
    ensures |ns| == 1 ==> kids + AllPadded(pretty, ns, depth) == kids + [Padded(pretty, ns[0], ns[1..], depth)]
  {
    hide Padded;
  }

  lemma DeclaredOn(pretty: bool, n: Node, rest: seq<Node>, depth: nat, top: bool, kids: seq<Node>)
    ensures AllDeclarations(kids + [Padded(pretty, n, rest, depth)]) <==> AllDeclarations(kids) && n.Declaration?
  {
    hide AllPadded;
    var all := kids + [Padded(pretty, n, rest, depth)];
    assert all[|kids|].Declaration? <==> n.Declaration?;
    assert forall i :: 0 <= i < |kids| ==> all[i] == kids[i];
  }

  lemma FormMeans(pretty: bool, lead: string, n: Node, rest: seq<Node>, depth: nat, text: int, top: bool, kids: seq<Node>)
    requires !PlainText(n) && Normal(n) && (n.Declaration? ==> top && AllDeclarations(kids)) && depth + 1 < MAX_ELEMENT_DEPTH
    ensures MeantOne(FormOf(pretty, lead, n, depth, text), depth + 1, top, kids)
         == if Fits(n, depth + 1) then Fine(kids + [Padded(pretty, n, rest, depth)]) else Wrong(ErrorDepth)
    decreases n, 0
  {
    hide Escape, FormsOf, TextDepths, Lead, NewLine, Spaces, AttrFormsOf, Free, NormalAttrs, IsName, AllDeclarations, AttrsOf, Distinct, AllPadded, AllFit, Clean;
    if n.Element? {
      SameAttrs(n.attrs);
      BareMeans();
      if n.children == [] {
        NoPadded(pretty, depth + 1);
      } else if depth + 2 < MAX_ELEMENT_DEPTH {
        KidsNormal(n.children, depth + 1);
        FormsMean(pretty, Lead(pretty, false, n.children[0], depth + 1, text), false, n.children, depth + 1, text, false, []);
        assert [] + AllPadded(pretty, n.children, depth + 1) == AllPadded(pretty, n.children, depth + 1);
      }
    } else {
      RawValueOf(n.text);
    }
  }

  lemma BareMeans()
    ensures Distinct(AttrsOf([]))
  {
  }

  lemma NoPadded(pretty: bool, depth: nat)
    ensures AllPadded(pretty, [], depth) == []
  {
  }

  // --- Documents ---

  lemma {:induction false} TopPadded(pretty: bool, decls: bool, ns: seq<Node>)
    requires NormalTop(decls, ns)
    ensures AllPadded(pretty, ns, 0) == ns <==> !pretty || Unmixed(ns)
  {
    if ns != [] {
      var rest := ns[1..];
      TopPadded(pretty, decls && ns[0].Declaration?, rest);
      if ns[0].Element? {
        PaddedSame(pretty, ns[0].children, 1);
      }
      var a := AllPadded(pretty, ns, 0);
      assert a[0] == Padded(pretty, ns[0], rest, 0) && a[1..] == AllPadded(pretty, rest, 0);
      assert a == ns <==> a[0] == ns[0] && a[1..] == rest;
    }
  }

  lemma FirstLead(pretty: bool, n: Node)
    ensures Lead(pretty, true, n, 0, -1) == "" && Blank(Trail(pretty, n, 0))
  {
  }

  /** Printing a document in normal form, in either mode, and parsing the text gives the
      document with the padding that pretty printing adds, or the depth error, or the error for a
      document without nodes. */
  lemma Reparsed(pretty: bool, bom: bool, ns: seq<Node>)
    requires NormalTop(true, ns)
    ensures Parse(DocumentText(pretty, bom, ns))
         == if ns == [] then Rejected(ErrorEmpty)
            else if AllFit(ns, 1) then Parsed(bom, AllPadded(pretty, ns, 0))
            else Rejected(ErrorDepth)
  {
    hide NodesText, Parse, FormsOf, Meant, AllFit, AllPadded, NormalTop, Lead, Trail, ItemsText, Blank, Body, TextDepth, NormalAll, Declarable, Spaced;
    var mark := if bom then BOM else "";
    NoBlank();
    if ns == [] {
      NoNodes(pretty, true, 0, -1);
      NothingRead("", bom, "");
      assert DocumentText(pretty, bom, ns) == "" + (mark + "");
    } else {
      TopNormal(true, ns);
      NotPlain(ns);
      var last := ns[|ns| - 1];
      FirstLead(pretty, ns[0]);
      FirstLead(pretty, last);
      var fs, tail := FormsOf(pretty, "", true, ns, 0, -1), Trail(pretty, last, 0);
      FormsOk(pretty, "", true, ns, 0, -1);
      FormsText(pretty, "", true, ns, 0, -1);
      NodesCons(pretty, true, ns, 0, -1);
      assert DocumentText(pretty, bom, ns) == "" + (mark + (ItemsText(fs) + tail));
      DocumentRead("", bom, fs, tail);
      NothingDeclared();
      FormsMean(pretty, "", true, ns, 0, -1, true, []);
      assert [] + AllPadded(pretty, ns, 0) == AllPadded(pretty, ns, 0);
    }
  }

  lemma NothingDeclared()
    ensures AllDeclarations([])
  {
  }

  lemma {:induction false} NotPlain(ns: seq<Node>)
    requires ns != [] && Spaced(ns, 0)
    ensures !PlainText(ns[0]) && !PlainText(ns[|ns| - 1])
  {
    if |ns| > 1 { NotPlain(ns[1..]); }
  }

  /** The round trip: it holds exactly when there is a node at all, no element with children is
      nested too deep and, in pretty mode, no element stands right after plain text. */
  lemma RoundTrip(pretty: bool, bom: bool, ns: seq<Node>)
    requires NormalTop(true, ns)
    ensures Parse(DocumentText(pretty, bom, ns)) == Parsed(bom, ns)
       <==> ns != [] && AllFit(ns, 1) && (!pretty || Unmixed(ns))
  {
    Reparsed(pretty, bom, ns);
    TopPadded(pretty, true, ns);
  }

  /** <a>x<b/></a> */
  function MixedDocument(text: string): seq<Node> {
    [Element("a", [], [Text(text, false), Element("b", [], [])])]
  }

  lemma MixedNormal()
    ensures NormalTop(true, MixedDocument("x")) && AllFit(MixedDocument("x"), 1)
    ensures AllPadded(true, MixedDocument("x"), 0) == MixedDocument("x    ")
  {
    var b := Element("b", [], []);
    var kids := [Text("x", false), b];
    var a := Element("a", [], kids);
    assert Normal(b) && NormalKids([b]) && kids[1..] == [b];
    assert !Blank("x") by { assert !IsWhite("x"[0]); }
    assert NormalKids(kids) && Normal(a);
    assert MixedDocument("x") == [a] && [a][1..] == [];
    assert AllFit([b], 2) && AllFit(kids, 2) && Fits(a, 1);
    assert Spaces(1) == "    " + Spaces(0) == "    ";
    assert AllPadded(true, [b], 1) == [b];
    assert Padded(true, kids[0], kids[1..], 1) == Text("x    ", false);
    assert AllPadded(true, kids, 1) == [Text("x    ", false), b];
    assert AllPadded(true, [a], 0) == [Padded(true, a, [], 0)];
  }

  /** Printed in pretty mode and read again, <a>x<b/></a> has four spaces more in its text. */
  lemma MixedChanged()
    ensures Parse(DocumentText(true, false, MixedDocument("x"))) == Parsed(false, MixedDocument("x    "))
    ensures MixedDocument("x    ") != MixedDocument("x")
  {
    MixedNormal();
    Reparsed(true, false, MixedDocument("x"));
    assert MixedDocument("x    ")[0].children[0].text != MixedDocument("x")[0].children[0].text;
  }
}
