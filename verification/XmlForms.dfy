/** The texts that the parser accepts: markup with any white space and either quote, and what it
    means, with the first error if it has one. */
module XmlForms {
  import opened XmlText
  import opened XmlDoc
  import opened XmlLayout
  import opened XmlRound

  // --- Forms ---

  /** An attribute as it is written: white space, name, '=' between white space, quoted value. */
  datatype AttrForm = AttrForm(lead: string, name: string, before: string, after: string, quote: char, raw: string)

  /** What stands between "<" or "</" and ">" or "/>", behind the white space `gap`. */
  datatype TagForm = TagForm(gap: string, name: string, attrs: seq<AttrForm>, tail: string)

  datatype Item =
    | Mark(lead: string, kind: Kind, raw: string)
    | Plain(raw: string)
    | Sealed(lead: string, tag: TagForm)
    | Open(lead: string, tag: TagForm, items: seq<Item>, last: string, end: TagForm)

  function AttrFormText(f: AttrForm): string {
    f.lead + (f.name + (f.before + ("=" + ValueText(f))))
  }

  function ValueText(f: AttrForm): string {
    f.after + ([f.quote] + (f.raw + [f.quote]))
  }

  function AttrFormsText(fs: seq<AttrForm>): string {
    if fs == [] then "" else AttrFormText(fs[0]) + AttrFormsText(fs[1..])
  }

  function TagText(t: TagForm, end: string): string {
    t.name + (AttrFormsText(t.attrs) + (t.tail + end))
  }

  function Header(kind: Kind): (h: string)
    requires LeafKind(kind)
  {
    match kind
    case IsDeclaration => "<?"
    case IsComment => "<!--"
    case IsCData => "<![CDATA["
    case _ => "<!"
  }

  function Footer(kind: Kind): (h: string)
    requires LeafKind(kind)
    ensures h != ""
  {
    match kind
    case IsDeclaration => "?>"
    case IsComment => "-->"
    case IsCData => "]]>"
    case _ => ">"
  }

  function ItemText(i: Item): string
    requires i.Mark? ==> LeafKind(i.kind)
    requires i.Open? ==> Legible(i.items)
    decreases i, 0
  {
    match i
    case Mark(lead, kind, raw) => lead + (Header(kind) + (raw + Footer(kind)))
    case Plain(raw) => raw
    case Sealed(lead, tag) => lead + ("<" + (tag.gap + TagText(tag, "/>")))
    case Open(lead, tag, items, last, end) =>
      lead + ("<" + (tag.gap + (TagText(tag, ">") + (ItemsText(items) + (last + ("<" + (end.gap + ("/" + TagText(end, ">")))))))))
  }

  function ItemsText(items: seq<Item>): string
    requires Legible(items)
    decreases items, 1
  {
    if items == [] then "" else ItemText(items[0]) + ItemsText(items[1..])
  }

  /** The marks are comments, CDATA sections, declarations and unknowns. */
  predicate Legible(items: seq<Item>) {
    items == [] ||
    ((items[0].Mark? ==> LeafKind(items[0].kind)) && (items[0].Open? ==> Legible(items[0].items)) && Legible(items[1..]))
  }

  // --- Well-formed forms ---

  predicate AttrOk(f: AttrForm) {
    && Blank(f.lead) && IsName(f.name) && Blank(f.before) && Blank(f.after)
    && (f.quote == '\"' || f.quote == '\'') && f.quote !in f.raw
  }

  /** The first attribute is set off from the name of its tag; the others need not be. */
  predicate TagOk(t: TagForm) {
    && Blank(t.gap) && IsName(t.name) && Blank(t.tail) && (forall i :: 0 <= i < |t.attrs| ==> AttrOk(t.attrs[i]))
    && (t.attrs != [] ==> t.attrs[0].lead != "")
  }

  predicate ItemOk(i: Item) {
    match i
    case Mark(lead, kind, raw) =>
      && Blank(lead) && LeafKind(kind) && Free(raw, Footer(kind))
      && (kind == IsUnknown ==> !StartsWith(raw, 0, "--") && !StartsWith(raw, 0, "[CDATA["))
    case Plain(raw) => !Blank(raw) && '<' !in raw
    case Sealed(lead, tag) => Blank(lead) && TagOk(tag)
    case Open(lead, tag, items, last, end) =>
      Blank(lead) && TagOk(tag) && ItemsOk(items) && Blank(last) && TagOk(end) && (EndsPlain(items) ==> last == "")
  }

  /** White space behind plain text is part of it, so no other white space follows. */
  predicate ItemsOk(items: seq<Item>)
    ensures ItemsOk(items) ==> Legible(items)
  {
    items == [] ||
    (ItemOk(items[0]) && ItemsOk(items[1..])
     && (items[0].Plain? && |items| > 1 ==> !items[1].Plain? && items[1].lead == ""))
  }

  predicate EndsPlain(items: seq<Item>) {
    items != [] && items[|items| - 1].Plain?
  }

  // --- Meaning ---

  datatype Verdict = Wrong(error: Error) | Fine(nodes: seq<Node>)

  function AttrsOf(fs: seq<AttrForm>): (r: seq<Attr>)
    ensures |r| == |fs| && forall i :: 0 <= i < |r| ==> r[i] == Attr(fs[i].name, Value(fs[i].raw))
  {
    if fs == [] then [] else [Attr(fs[0].name, Value(fs[0].raw))] + AttrsOf(fs[1..])
  }

  predicate Distinct(attrs: seq<Attr>) {
    forall i, j :: 0 <= i < j < |attrs| ==> attrs[i].name != attrs[j].name
  }

  predicate AllDeclarations(ns: seq<Node>) {
    forall i :: 0 <= i < |ns| ==> ns[i].Declaration?
  }

  function Marked(kind: Kind, v: string): Node
    requires LeafKind(kind)
  {
    match kind
    case IsDeclaration => Declaration(v)
    case IsComment => Comment(v)
    case IsCData => Text(v, true)
    case _ => Unknown(v)
  }

  /** What an item adds to the nodes before it on its level. */
  function MeantOne(i: Item, depth: nat, top: bool, kids: seq<Node>): Verdict
    requires i.Mark? ==> LeafKind(i.kind)
    requires i.Open? ==> Legible(i.items)
    decreases i, 0
  {
    match i
    case Mark(_, kind, raw) =>
      if kind == IsDeclaration && !(top && AllDeclarations(kids)) then Wrong(ErrorDeclaration)
      else Fine(kids + [Marked(kind, RawValue(raw))])
    case Plain(raw) => Fine(kids + [Text(Value(raw), false)])
    case Sealed(_, tag) =>
      if !Distinct(AttrsOf(tag.attrs)) then Wrong(ErrorAttribute)
      else Fine(kids + [Element(tag.name, AttrsOf(tag.attrs), [])])
    case Open(_, tag, items, _, end) =>
      if !Distinct(AttrsOf(tag.attrs)) then Wrong(ErrorAttribute)
      else if depth + 1 == MAX_ELEMENT_DEPTH then Wrong(ErrorDepth)
      else
        match Meant(items, depth + 1, false, [])
        case Wrong(e) => Wrong(e)
        case Fine(ns) =>
          if !Distinct(AttrsOf(end.attrs)) then Wrong(ErrorAttribute)
          else if end.name != tag.name then Wrong(ErrorMismatch)
          else Fine(kids + [Element(tag.name, AttrsOf(tag.attrs), ns)])
  }

  function Meant(items: seq<Item>, depth: nat, top: bool, kids: seq<Node>): Verdict
    requires Legible(items)
    decreases items, 1
  {
    if items == [] then Fine(kids) else
      match MeantOne(items[0], depth, top, kids)
      case Wrong(e) => Wrong(e)
      case Fine(ns) => Meant(items[1..], depth, top, ns)
  }

  // --- Attributes ---

  lemma AttrPieces(s: string, p: nat, f: AttrForm)
    requires StartsWith(s, p, AttrFormText(f))
    ensures var n := p + |f.lead|; var b := n + |f.name|; var q := b + |f.before|;
      && StartsWith(s, p, f.lead) && StartsWith(s, n, f.name) && StartsWith(s, b, f.before) && StartsWith(s, q, "=")
      && StartsWith(s, q + 1, ValueText(f)) && p + |AttrFormText(f)| == q + 1 + |ValueText(f)|
  {
    hide StartsWith, ValueText;
    var n := p + |f.lead|;
    var b := n + |f.name|;
    var q := b + |f.before|;
    Split(s, p, f.lead, f.name + (f.before + ("=" + ValueText(f))));
    Split(s, n, f.name, f.before + ("=" + ValueText(f)));
    Split(s, b, f.before, "=" + ValueText(f));
    Split(s, q, "=", ValueText(f));
  }

  lemma ValuePieces(s: string, a: nat, f: AttrForm)
    requires StartsWith(s, a, ValueText(f))
    ensures var v := a + |f.after|;
      && StartsWith(s, a, f.after) && StartsWith(s, v, [f.quote]) && StartsWith(s, v + 1, f.raw)
      && StartsWith(s, v + 1 + |f.raw|, [f.quote]) && a + |ValueText(f)| == v + 2 + |f.raw|
  {
    hide StartsWith;
    var v := a + |f.after|;
    Split(s, a, f.after, [f.quote] + (f.raw + [f.quote]));
    Split(s, v, [f.quote], f.raw + [f.quote]);
    Split(s, v + 1, f.raw, [f.quote]);
  }

  /** White space and then something else. */
  lemma SkipOver(s: string, p: nat, w: string, c: char)
    requires StartsWith(s, p, w) && Blank(w) && p + |w| < |s| && s[p + |w|] == c && !IsWhite(c)
    ensures SkipWhite(s, p) == p + |w|
  {
    SkipBlank(s, p, w);
    SkipNone(s, p + |w|);
  }

  /** The name and the '='. */
  lemma AttrNameReads(s: string, p: nat, f: AttrForm)
    requires StartsWith(s, p, AttrFormText(f)) && AttrOk(f)
    ensures var n := p + |f.lead|; var b := n + |f.name|; var q := b + |f.before|;
      && q < |s| && SkipWhite(s, p) == n && IsNameStart(s[n]) && NameEnd(s, n) == b && s[n..b] == f.name
      && SkipWhite(s, b) == q && s[q] == '='
  {
    hide SkipWhite, NameEnd, NameRest, StartsWith, AttrFormText, Blank, IsNameChar;
    var n := p + |f.lead|;
    var b := n + |f.name|;
    var q := b + |f.before|;
    AttrPieces(s, p, f);
    CharAt(s, n, f.name);
    CharAt(s, q, "=");
    FirstOfName(f.name);
    SkipOver(s, p, f.lead, f.name[0]);
    NameStops(s, b, f.before, '=');
    NameEndAt(s, n, f.name);
    SkipOver(s, b, f.before, '=');
  }

  lemma FirstOfName(name: string)
    requires IsName(name)
    ensures !IsWhite(name[0]) && IsNameStart(name[0]) && !IsNameChar('=')
  {
  }

  /** The quoted value. */
  lemma AttrValueReads(s: string, a: nat, f: AttrForm)
    requires StartsWith(s, a, ValueText(f)) && AttrOk(f)
    ensures var v := a + |f.after|; var z := v + 1 + |f.raw|;
      && z < |s| && SkipWhite(s, a) == v && s[v] == f.quote && FindTag(s, [f.quote], v + 1) == z && s[v + 1..z] == f.raw
      && a + |ValueText(f)| == z + 1
  {
    hide FindTag, SkipWhite, StartsWith, ValueText, Blank, IsName;
    var v := a + |f.after|;
    var z := v + 1 + |f.raw|;
    ValuePieces(s, a, f);
    CharAt(s, v, [f.quote]);
    CharAt(s, z, [f.quote]);
    SkipOver(s, a, f.after, f.quote);
    FindCharAt(s, f.quote, v + 1, f.raw);
    Slice(s, v + 1, f.raw);
  }

  lemma AttrReads(s: string, p: nat, f: AttrForm)
    requires StartsWith(s, p, AttrFormText(f)) && AttrOk(f)
    ensures var n := p + |f.lead|;
      && n < |s| && SkipWhite(s, p) == n && IsNameStart(s[n])
      && AttrAt(s, n) == OneAttr(Attr(f.name, Value(f.raw)), p + |AttrFormText(f)|)
  {
    hide Value, FindTag, SkipWhite, NameEnd, NameRest, StartsWith, AttrAt, AttrFormText, ValueText, Blank, IsName;
    var n := p + |f.lead|;
    var b := n + |f.name|;
    var q := b + |f.before|;
    var v := q + 1 + |f.after|;
    AttrPieces(s, p, f);
    AttrNameReads(s, p, f);
    AttrValueReads(s, q + 1, f);
    SomeName(f);
    AttrParts(s, n, b, q, v, v + 1 + |f.raw|);
  }

  lemma SomeName(f: AttrForm)
    requires AttrOk(f)
    ensures f.name != "" && (f.quote == '\"' || f.quote == '\'')
  {
    hide Blank;
  }

  /** A name ends before white space, and before any character that belongs to no name. */
  lemma NameStops(s: string, p: nat, w: string, c: char)
    requires StartsWith(s, p, w) && Blank(w) && p + |w| < |s| && s[p + |w|] == c && !IsNameChar(c)
    ensures p < |s| && !IsNameChar(s[p])
  {
    CharAt(s, p, w);
    assert s[p] == (w + [c])[0];
  }

  /** XMLAttribute::ParseDeep once its parts are located. */
  lemma AttrParts(s: string, p: nat, e: nat, q: nat, v: nat, z: nat)
    requires p < e <= q < v < z < |s| && IsNameStart(s[p])
    requires NameEnd(s, p) == e && SkipWhite(s, e) == q && s[q] == '=' && SkipWhite(s, q + 1) == v
    requires (s[v] == '\"' || s[v] == '\'') && FindTag(s, [s[v]], v + 1) == z
    ensures AttrAt(s, p) == OneAttr(Attr(s[p..e], Value(s[v + 1..z])), z + 1)
  {
    hide Value;
  }

  /** The attributes of a tag; a repeated name is an error. */
  lemma {:induction false} AttrsRead(s: string, p: nat, fs: seq<AttrForm>, acc: seq<Attr>)
    requires StartsWith(s, p, AttrFormsText(fs)) && (forall i :: 0 <= i < |fs| ==> AttrOk(fs[i])) && Distinct(acc)
    ensures p + |AttrFormsText(fs)| <= |s|
    ensures Attrs(s, p, acc) == if Distinct(acc + AttrsOf(fs)) then Attrs(s, p + |AttrFormsText(fs)|, acc + AttrsOf(fs))
                                else AttrError(ErrorAttribute)
    decreases |fs|
  {
    hide AttrAt, AttrFormText, AttrFormsText, AttrsOf, SkipWhite, StartsWith, HasAttr, Distinct, AttrOk, Blank, Value, Attrs;
    FormsCons(fs);
    AttrsCons(fs, acc);
    CharAt(s, p, AttrFormsText(fs));
    if fs != [] {
      var f, rest, a := fs[0], fs[1..], Attr(fs[0].name, Value(fs[0].raw));
      Split(s, p, AttrFormText(f), AttrFormsText(rest));
      AttrReads(s, p, f);
      var m := p + |AttrFormText(f)|;
      OneMore(acc, a, AttrsOf(rest));
      AttrNext(s, p, acc, p + |f.lead|, a, m);
      if !HasAttr(acc, a.name) {
        AttrsRead(s, m, rest, acc + [a]);
      }
    }
  }

  lemma FormsCons(fs: seq<AttrForm>)
    ensures fs == [] ==> AttrFormsText(fs) == ""
    ensures fs != [] ==> AttrFormsText(fs) == AttrFormText(fs[0]) + AttrFormsText(fs[1..])
  {
    hide AttrFormText;
  }

  lemma AttrsCons(fs: seq<AttrForm>, acc: seq<Attr>)
    ensures fs == [] ==> acc + AttrsOf(fs) == acc
    ensures fs != [] ==> acc + AttrsOf(fs) == acc + [Attr(fs[0].name, Value(fs[0].raw))] + AttrsOf(fs[1..])
  {
    hide Value;
  }

  lemma AttrNext(s: string, p: nat, acc: seq<Attr>, n: nat, a: Attr, m: nat)
    requires p <= n < |s| && SkipWhite(s, p) == n && IsNameStart(s[n]) && AttrAt(s, n) == OneAttr(a, m)
    ensures m <= |s| && Attrs(s, p, acc) == if HasAttr(acc, a.name) then AttrError(ErrorAttribute) else Attrs(s, m, acc + [a])
  {
    hide AttrAt, SkipWhite, HasAttr;
  }

  lemma OneMore(acc: seq<Attr>, a: Attr, rest: seq<Attr>)
    requires Distinct(acc)
    ensures HasAttr(acc, a.name) ==> !Distinct(acc + [a] + rest)
    ensures !HasAttr(acc, a.name) ==> Distinct(acc + [a])
  {
    var all := acc + [a] + rest;
    if HasAttr(acc, a.name) {
      var i :| 0 <= i < |acc| && acc[i].name == a.name;
      assert all[i] == acc[i] && all[|acc|] == a;
    }
  }

  lemma TagEnds(s: string, p: nat, acc: seq<Attr>, tail: string, end: string)
    requires StartsWith(s, p, tail + end) && Blank(tail) && (end == ">" || end == "/>")
    ensures Attrs(s, p, acc) == AttrList(acc, end == "/>", p + |tail| + |end|)
  {
    hide Blank, StartsWith, SkipWhite;
    Split(s, p, tail, end);
    CharAt(s, p + |tail|, end);
    SkipOver(s, p, tail, end[0]);
  }

  // --- Tags ---

  /** The name and the attributes of a tag, whatever follows at m. */
  lemma HeadRead(s: string, n: nat, t: TagForm, m: nat)
    requires TagOk(t) && m == n + |t.name| + |AttrFormsText(t.attrs)| <= |s|
    requires StartsWith(s, n, t.name) && StartsWith(s, n + |t.name|, AttrFormsText(t.attrs))
    requires t.attrs == [] && m < |s| ==> !IsNameChar(s[m])
    ensures n < |s| && s[n] == t.name[0] && NameEnd(s, n) == n + |t.name| && s[n..n + |t.name|] == t.name
    ensures Attrs(s, n + |t.name|, [])
         == if Distinct(AttrsOf(t.attrs)) then Attrs(s, m, AttrsOf(t.attrs)) else AttrError(ErrorAttribute)
  {
    hide AttrFormsText, Attrs, AttrsOf, NameEnd, NameRest, AttrOk, Blank, Distinct, StartsWith, IsName, IsNameChar;
    NameBegins(t);
    CharAt(s, n, t.name);
    NameSetOff(s, n + |t.name|, t, m);
    NamedTag(t);
    NameEndAt(s, n, t.name);
    NoAttrs();
    AttrsRead(s, n + |t.name|, t.attrs, []);
    assert [] + AttrsOf(t.attrs) == AttrsOf(t.attrs);
  }

  lemma NamedTag(t: TagForm)
    requires TagOk(t)
    ensures IsName(t.name) && forall i :: 0 <= i < |t.attrs| ==> AttrOk(t.attrs[i])
  {
    hide IsName, AttrOk, Blank;
  }

  lemma HeadSplit(s: string, n: nat, name: string, attrs: string, rest: string)
    requires StartsWith(s, n, name + (attrs + rest))
    ensures StartsWith(s, n, name) && StartsWith(s, n + |name|, attrs) && StartsWith(s, n + |name| + |attrs|, rest)
    ensures n + |name| + |attrs| + |rest| <= |s|
  {
    hide StartsWith;
    Split(s, n, name, attrs + rest);
    Split(s, n + |name|, attrs, rest);
    CharAt(s, n + |name| + |attrs|, rest);
  }

  lemma NameSetOff(s: string, e: nat, t: TagForm, m: nat)
    requires TagOk(t) && m == e + |AttrFormsText(t.attrs)| <= |s| && StartsWith(s, e, AttrFormsText(t.attrs))
    requires t.attrs == [] && m < |s| ==> !IsNameChar(s[m])
    ensures e < |s| ==> !IsNameChar(s[e])
  {
    hide StartsWith;
    CharAt(s, e, AttrFormsText(t.attrs));
    if t.attrs != [] {
      assert AttrOk(t.attrs[0]);
      assert AttrFormText(t.attrs[0])[0] == t.attrs[0].lead[0];
    }
  }

  /** The name and the attributes of a tag, up to its end. */
  lemma TagHead(s: string, n: nat, t: TagForm, end: string)
    requires StartsWith(s, n, TagText(t, end)) && TagOk(t) && (end == ">" || end == "/>")
    ensures n < |s| && s[n] == t.name[0] && NameEnd(s, n) == n + |t.name| && s[n..n + |t.name|] == t.name
    ensures n + |TagText(t, end)| <= |s|
    ensures Attrs(s, n + |t.name|, [])
         == if Distinct(AttrsOf(t.attrs)) then AttrList(AttrsOf(t.attrs), end == "/>", n + |TagText(t, end)|)
            else AttrError(ErrorAttribute)
  {
    hide AttrFormsText, Attrs, AttrsOf, NameEnd, NameRest, AttrOk, Blank, Distinct, StartsWith, IsName, IsNameChar, TagText, TagOk;
    TailStops(t, end);
    TagParts(t, end);
    var m := n + |t.name| + |AttrFormsText(t.attrs)|;
    HeadSplit(s, n, t.name, AttrFormsText(t.attrs), t.tail + end);
    CharAt(s, m, t.tail + end);
    HeadRead(s, n, t, m);
    TagEnds(s, m, AttrsOf(t.attrs), t.tail, end);
  }

  lemma TagParts(t: TagForm, end: string)
    ensures TagText(t, end) == t.name + (AttrFormsText(t.attrs) + (t.tail + end))
    ensures |TagText(t, end)| == |t.name| + |AttrFormsText(t.attrs)| + |t.tail| + |end| && |t.tail + end| == |t.tail| + |end|
  {
    hide AttrFormsText;
  }

  lemma TailStops(t: TagForm, end: string)
    requires TagOk(t) && (end == ">" || end == "/>")
    ensures t.tail + end != "" && !IsNameChar((t.tail + end)[0]) && Blank(t.tail)
  {
    if t.tail != "" { assert (t.tail + end)[0] == t.tail[0]; }
  }

  lemma NoAttrs()
    ensures Distinct([])
  {
  }

  /** A start tag opens a level, unless it is sealed or too deep. */
  lemma StartTagAt(s: string, q: nat, t: TagForm, end: string, depth: nat)
    requires StartsWith(s, q, t.gap + TagText(t, end)) && TagOk(t) && (end == ">" || end == "/>")
    requires end == ">" ==> q + |t.gap + TagText(t, end)| < |s|
    ensures q + |t.gap + TagText(t, end)| <= |s|
    ensures TagAt(s, q, depth) ==
      var next := q + |t.gap + TagText(t, end)|;
      if !Distinct(AttrsOf(t.attrs)) then BadTag(ErrorAttribute)
      else if end == "/>" then Tag(t.name, AttrsOf(t.attrs), [], true, "", next)
      else if depth + 1 == MAX_ELEMENT_DEPTH then BadTag(ErrorDepth)
      else TagOf(t.name, AttrsOf(t.attrs), LevelAt(s, next, depth + 1, false, []))
  {
    hide SkipWhite, LevelAt, NameEnd, Attrs, TagText, TagOk, Blank, Distinct, StartsWith, TagOf;
    var n := q + |t.gap|;
    Split(s, q, t.gap, TagText(t, end));
    TagHead(s, n, t, end);
    NameBegins(t);
    SkipOver(s, q, t.gap, t.name[0]);
  }

  lemma NameBegins(t: TagForm)
    requires TagOk(t)
    ensures t.name != "" && !IsWhite(t.name[0]) && t.name[0] != '/' && t.name[0] != '?' && t.name[0] != '!' && Blank(t.gap)
  {
    hide Blank;
  }

  /** An end tag closes the level. */
  lemma EndTagAt(s: string, q: nat, t: TagForm, depth: nat)
    requires StartsWith(s, q, t.gap + ("/" + TagText(t, ">"))) && TagOk(t)
    ensures q + |t.gap + ("/" + TagText(t, ">"))| <= |s|
    ensures TagAt(s, q, depth)
         == if Distinct(AttrsOf(t.attrs)) then EndTag(t.name, q + |t.gap + ("/" + TagText(t, ">"))|) else BadTag(ErrorAttribute)
  {
    hide SkipWhite, LevelAt, NameEnd, Attrs, TagText, TagOk, Blank, Distinct, StartsWith, TagOf;
    var n := q + |t.gap|;
    Split(s, q, t.gap, "/" + TagText(t, ">"));
    Split(s, n, "/", TagText(t, ">"));
    CharAt(s, n, "/");
    NameBegins(t);
    SkipOver(s, q, t.gap, '/');
    TagHead(s, n + 1, t, ">");
  }

  // --- What stands at a place ---

  /** Nothing but white space, or markup after white space. */
  predicate Tagged(s: string, q: nat)
    requires q <= |s|
  {
    SkipWhite(s, q) == |s| || s[SkipWhite(s, q)] == '<'
  }

  /** Markup after white space. */
  predicate Begins(s: string, q: nat)
    requires q <= |s|
  {
    SkipWhite(s, q) < |s| && s[SkipWhite(s, q)] == '<'
  }

  lemma StartsTag(s: string, b: nat)
    requires b <= |s| && (b < |s| ==> s[b] == '<')
    ensures b < |s| ==> StartsWith(s, b, "<")
  {
    if b < |s| { assert s[b..b + 1] == "<"; }
  }

  /** The first bytes of a header tell the headers apart. */
  lemma HeaderBytes(s: string, b: nat, h: string)
    requires |h| >= 1
    ensures StartsWith(s, b, h) ==> b + |h| <= |s| && s[b] == h[0]
    ensures StartsWith(s, b, h) && |h| > 1 ==> s[b + 1] == h[1]
    ensures StartsWith(s, b, h) && |h| > 2 ==> s[b + 2] == h[2]
  {
    if StartsWith(s, b, h) {
      CharAt(s, b, h);
    }
  }

  lemma SameIdentified(s: string, p: nat, q: nat)
    requires p <= q <= |s| && SkipWhite(s, p) == SkipWhite(s, q) && Tagged(s, q)
    ensures Identify(s, p) == Identify(s, q) && Identify(s, q).0 != IsText
  {
    hide SkipWhite;
    StartsTag(s, SkipWhite(s, q));
  }

  /** White space before markup does not matter. */
  lemma SkipLevel(s: string, p: nat, w: string, depth: nat, top: bool, kids: seq<Node>)
    requires StartsWith(s, p, w) && Blank(w) && Tagged(s, p + |w|)
    ensures LevelAt(s, p, depth, top, kids) == LevelAt(s, p + |w|, depth, top, kids)
  {
    hide TagAt, LeafAt, LevelAt, Identify, SkipWhite;
    var q := p + |w|;
    SkipBlank(s, p, w);
    SameIdentified(s, p, q);
    var (kind, c) := Identify(s, q);
    if kind == NoNode {
      StepEnd(s, p, c, depth, top, kids);
      StepEnd(s, q, c, depth, top, kids);
    } else if kind == IsElement {
      StepTag(s, p, c, depth, top, kids);
      StepTag(s, q, c, depth, top, kids);
    } else {
      StepLeaf(s, p, c, kind, depth, top, kids);
      StepLeaf(s, q, c, kind, depth, top, kids);
    }
  }

  /** A tag that is no header of another kind. */
  lemma TagIdentified(s: string, p: nat)
    requires p <= |s| && SkipWhite(s, p) + 1 < |s|
    requires s[SkipWhite(s, p)] == '<' && s[SkipWhite(s, p) + 1] != '?' && s[SkipWhite(s, p) + 1] != '!'
    ensures Identify(s, p) == (IsElement, SkipWhite(s, p) + 1)
  {
    hide SkipWhite, StartsWith;
    var b := SkipWhite(s, p);
    StartsTag(s, b);
    HeaderBytes(s, b, "<?");
    HeaderBytes(s, b, "<!--");
    HeaderBytes(s, b, "<![CDATA[");
    HeaderBytes(s, b, "<!");
  }

  lemma NoTag(s: string, p: nat)
    requires p <= |s| && SkipWhite(s, p) < |s| && s[SkipWhite(s, p)] != '<'
    ensures Identify(s, p) == (IsText, p)
  {
    hide SkipWhite, StartsWith;
    var b := SkipWhite(s, p);
    HeaderBytes(s, b, "<?");
    HeaderBytes(s, b, "<!--");
    HeaderBytes(s, b, "<![CDATA[");
    HeaderBytes(s, b, "<!");
    HeaderBytes(s, b, "<");
  }

  // --- Marks ---

  lemma KindFacts(kind: Kind)
    requires LeafKind(kind)
    ensures Footer(kind) == Closing(kind) && Closer(Footer(kind)) && Header(kind) != "" && Header(kind)[0] == '<'
    ensures forall v :: LeafOf(kind, v) == Marked(kind, v)
  {
  }

  /** "<!" and a text that does not start with h is not the header "<!" + h. */
  lemma NotHeader(s: string, b: nat, t: string, h: string)
    requires StartsWith(s, b, "<!" + (t + ">")) && '>' !in h
    ensures StartsWith(s, b, "<!" + h) ==> StartsWith(t, 0, h)
  {
    if StartsWith(s, b, "<!" + h) {
      Split(s, b, "<!", h);
      Split(s, b, "<!", t + ">");
      CharAt(s, b + 2, h);
      CharAt(s, b + 2, t + ">");
      assert forall i :: 0 <= i < |h| && i <= |t| ==> h[i] == s[b + 2 + i] == (t + ">")[i];
      Aligned(h, t, t + ">");
    }
  }

  lemma Aligned(h: string, t: string, u: string)
    requires u == t + ">" && '>' !in h
    requires forall i :: 0 <= i < |h| && i <= |t| ==> h[i] == u[i]
    ensures StartsWith(t, 0, h)
  {
    assert u[|t|] == '>';
    assert |h| <= |t|;
    assert t[0..|h|] == h;
  }

  lemma UnknownHeader(s: string, b: nat, t: string)
    requires StartsWith(s, b, "<!" + (t + ">")) && !StartsWith(t, 0, "--") && !StartsWith(t, 0, "[CDATA[")
    ensures !StartsWith(s, b, "<!--") && !StartsWith(s, b, "<![CDATA[")
  {
    assert "<!" + "--" == "<!--" && "<!" + "[CDATA[" == "<![CDATA[";
    NotHeader(s, b, t, "--");
    NotHeader(s, b, t, "[CDATA[");
  }

  /** The header of a mark is recognized. */
  lemma MarkIdentified(s: string, p: nat, kind: Kind, raw: string)
    requires p <= |s| && LeafKind(kind) && StartsWith(s, SkipWhite(s, p), Header(kind) + (raw + Footer(kind)))
    requires kind == IsUnknown ==> !StartsWith(raw, 0, "--") && !StartsWith(raw, 0, "[CDATA[")
    ensures Identify(s, p) == (kind, SkipWhite(s, p) + |Header(kind)|)
  {
    hide SkipWhite, StartsWith;
    var b := SkipWhite(s, p);
    Split(s, b, Header(kind), raw + Footer(kind));
    HeaderBytes(s, b, Header(kind));
    HeaderBytes(s, b, "<?");
    HeaderBytes(s, b, "<!--");
    if kind == IsUnknown { UnknownHeader(s, b, raw); }
  }

  lemma MarkParsed(s: string, b: nat, kind: Kind, raw: string)
    requires LeafKind(kind) && Free(raw, Footer(kind)) && StartsWith(s, b, Header(kind) + (raw + Footer(kind)))
    ensures var e := b + |Header(kind) + (raw + Footer(kind))|;
      && e <= |s| && LeafAt(s, b + |Header(kind)|, kind) == OneLeaf(Marked(kind, RawValue(raw)), e)
  {
    hide Free, FindTag, RawValue, Closing, LeafOf, Marked, Header, Footer, Closer, StartsWith;
    KindFacts(kind);
    var q := b + |Header(kind)|;
    Split(s, b, Header(kind), raw + Footer(kind));
    FindCloser(s, q, raw, Footer(kind));
    Split(s, q, raw, Footer(kind));
    Slice(s, q, raw);
    Slice(s, q + |raw|, Footer(kind));
  }

  // --- Items ---

  /** How the level goes on at e after a verdict on what stands before. */
  function GoesOn(s: string, v: Verdict, e: nat, depth: nat, top: bool): Level
    requires e <= |s|
  {
    match v
    case Wrong(error) => Failed(error)
    case Fine(ns) => LevelAt(s, e, depth, top, ns)
  }

  predicate DeclarationsFirst(ns: seq<Node>) {
    forall i, j :: 0 <= i < j < |ns| && ns[j].Declaration? ==> ns[i].Declaration?
  }

  lemma LocatedWell(top: bool, kids: seq<Node>)
    requires DeclarationsFirst(kids)
    ensures WellLocated(top, kids) <==> top && AllDeclarations(kids)
  {
    if kids != [] && kids[|kids| - 1].Declaration? {
      assert forall i :: 0 <= i < |kids| - 1 ==> kids[i].Declaration?;
    }
  }

  lemma StillFirst(i: Item, depth: nat, top: bool, kids: seq<Node>)
    requires (i.Mark? ==> LeafKind(i.kind)) && (i.Open? ==> Legible(i.items)) && DeclarationsFirst(kids)
    ensures var v := MeantOne(i, depth, top, kids); v.Fine? ==> DeclarationsFirst(v.nodes)
  {
    hide Meant, Distinct, Legible, Value, RawValue;
    var v := MeantOne(i, depth, top, kids);
    if v.Fine? {
      var n := v.nodes[|kids|];
      assert v.nodes == kids + [n];
      assert n.Declaration? ==> AllDeclarations(kids);
    }
  }

  /** Behind plain text markup stands at once. */
  predicate Ends(s: string, e: nat, plain: bool)
    requires e <= |s|
  {
    plain ==> e + 1 < |s| && s[e] == '<'
  }

  lemma MarkReads(s: string, p: nat, lead: string, kind: Kind, raw: string, depth: nat, top: bool, kids: seq<Node>)
    requires ItemOk(Mark(lead, kind, raw)) && StartsWith(s, p, ItemText(Mark(lead, kind, raw))) && DeclarationsFirst(kids)
    ensures var e := p + |ItemText(Mark(lead, kind, raw))|;
      e <= |s| && LevelAt(s, p, depth, top, kids) == GoesOn(s, MeantOne(Mark(lead, kind, raw), depth, top, kids), e, depth, top)
  {
    hide SkipWhite, LevelAt, LeafAt, Identify, WellLocated, AllDeclarations, DeclarationsFirst, Free, Header, Footer, Blank, StartsWith, RawValue;
    var b := p + |lead|;
    Split(s, p, lead, Header(kind) + (raw + Footer(kind)));
    CharAt(s, b, Header(kind) + (raw + Footer(kind)));
    KindFacts(kind);
    assert (Header(kind) + (raw + Footer(kind)))[0] == '<';
    SkipOver(s, p, lead, '<');
    MarkIdentified(s, p, kind, raw);
    MarkParsed(s, b, kind, raw);
    StepLeaf(s, p, b + |Header(kind)|, kind, depth, top, kids);
    LocatedWell(top, kids);
  }

  lemma PlainReads(s: string, p: nat, raw: string, depth: nat, top: bool, kids: seq<Node>)
    requires ItemOk(Plain(raw)) && StartsWith(s, p, raw) && p + |raw| + 1 < |s| && s[p + |raw|] == '<'
    ensures LevelAt(s, p, depth, top, kids) == LevelAt(s, p + |raw|, depth, top, kids + [Text(Value(raw), false)])
  {
    hide LevelAt, Identify, FindTag, Value, SkipWhite;
    PlainFound(s, p, raw);
    Slice(s, p, raw);
    StepText(s, p, depth, top, kids);
  }

  lemma PlainFound(s: string, p: nat, raw: string)
    requires ItemOk(Plain(raw)) && StartsWith(s, p, raw) && p + |raw| < |s| && s[p + |raw|] == '<'
    ensures TextStarts(s, p) && Identify(s, p) == (IsText, p) && FindTag(s, "<", p) == p + |raw|
  {
    hide Identify, FindTag;
    FindCharAt(s, '<', p, raw);
    CharAt(s, p, raw);
    var i :| 0 <= i < |raw| && !IsWhite(raw[i]);
    assert !IsWhite(s[p + i]) && s[p + i] == raw[i];
    var b := SkipWhite(s, p);
    assert s[b] == raw[b - p];
    NoTag(s, p);
  }

  /** The '<' of a tag and what stands behind it. */
  lemma TagStands(s: string, p: nat, lead: string, gap: string, rest: string)
    requires StartsWith(s, p, lead + ("<" + (gap + rest))) && Blank(lead) && Blank(gap)
    requires rest != "" && rest[0] != '?' && rest[0] != '!'
    ensures var b := p + |lead|;
      && SkipWhite(s, p) == b && b + 1 < |s| && s[b] == '<' && StartsWith(s, b + 1, gap + rest)
      && Identify(s, p) == (IsElement, b + 1) && Tagged(s, p)
  {
    hide SkipWhite, StartsWith, Identify, Blank;
    var b := p + |lead|;
    Split(s, p, lead, "<" + (gap + rest));
    Split(s, b, "<", gap + rest);
    CharAt(s, b, "<");
    CharAt(s, b + 1, gap + rest);
    SkipOver(s, p, lead, '<');
    GapStarts(gap, rest);
    TagIdentified(s, p);
  }

  lemma GapStarts(gap: string, rest: string)
    requires Blank(gap) && rest != "" && rest[0] != '?' && rest[0] != '!'
    ensures gap + rest != "" && (gap + rest)[0] != '?' && (gap + rest)[0] != '!'
  {
    if gap != "" { assert IsWhite(gap[0]); }
  }

  lemma TagTextStarts(t: TagForm, end: string)
    requires TagOk(t)
    ensures TagText(t, end) != "" && TagText(t, end)[0] == t.name[0] && t.name[0] != '?' && t.name[0] != '!'
  {
    hide AttrFormsText, Blank;
    NameBegins(t);
  }

  lemma SealedReads(s: string, p: nat, lead: string, tag: TagForm, depth: nat, top: bool, kids: seq<Node>)
    requires ItemOk(Sealed(lead, tag)) && StartsWith(s, p, ItemText(Sealed(lead, tag)))
    ensures var e := p + |ItemText(Sealed(lead, tag))|;
      e <= |s| && LevelAt(s, p, depth, top, kids) == GoesOn(s, MeantOne(Sealed(lead, tag), depth, top, kids), e, depth, top)
  {
    hide SkipWhite, LevelAt, TagAt, Identify, TagText, TagOk, Blank, Distinct, StartsWith, AttrsOf, Tagged;
    TagTextStarts(tag, "/>");
    NameBegins(tag);
    TagStands(s, p, lead, tag.gap, TagText(tag, "/>"));
    StartTagAt(s, p + |lead| + 1, tag, "/>", depth);
    StepTag(s, p, p + |lead| + 1, depth, top, kids);
  }

  /** The pieces of an element with an end tag. */
  lemma OpenPieces(s: string, p: nat, i: Item)
    requires i.Open? && Legible(i.items) && StartsWith(s, p, ItemText(i))
    ensures var b := p + |i.lead|; var head := i.tag.gap + TagText(i.tag, ">"); var c := b + 1 + |head|;
      var l := c + |ItemsText(i.items)|; var tail := i.end.gap + ("/" + TagText(i.end, ">"));
      && StartsWith(s, p, i.lead + ("<" + head)) && StartsWith(s, c, ItemsText(i.items)) && StartsWith(s, l, i.last + ("<" + tail))
      && p + |ItemText(i)| == l + |i.last| + 1 + |tail|
  {
    hide StartsWith, TagText, ItemsText;
    var head, tail := i.tag.gap + TagText(i.tag, ">"), i.end.gap + ("/" + TagText(i.end, ">"));
    var rest := ItemsText(i.items) + (i.last + ("<" + tail));
    Regrouped(i.lead, i.tag.gap, TagText(i.tag, ">"), rest);
    assert ItemText(i) == (i.lead + ("<" + head)) + rest;
    Split(s, p, i.lead + ("<" + head), rest);
    Split(s, p + |i.lead| + 1 + |head|, ItemsText(i.items), i.last + ("<" + tail));
  }

  lemma Regrouped(a: string, b: string, c: string, d: string)
    ensures a + ("<" + (b + (c + d))) == (a + ("<" + (b + c))) + d
  {
  }

  /** The level inside an element, up to its end tag. */
  lemma InsideReads(s: string, p: nat, i: Item, depth: nat)
    requires i.Open? && ItemOk(i) && StartsWith(s, p, ItemText(i)) && depth + 1 < MAX_ELEMENT_DEPTH
    ensures var c := p + |i.lead| + 1 + |i.tag.gap + TagText(i.tag, ">")|;
      && c < |s| && p + |ItemText(i)| <= |s|
      && LevelAt(s, c, depth + 1, false, []) ==
         match Meant(i.items, depth + 1, false, [])
         case Wrong(error) => Failed(error)
         case Fine(ns) =>
           if Distinct(AttrsOf(i.end.attrs)) then Ended(ns, i.end.name, p + |ItemText(i)|) else Failed(ErrorAttribute)
    decreases i, 0
  {
    hide SkipWhite, LevelAt, TagAt, Identify, TagText, TagOk, Blank, Distinct, StartsWith, AttrsOf, Tagged, ItemText, ItemsText, ItemsOk, Meant;
    OpenPieces(s, p, i);
    var c := p + |i.lead| + 1 + |i.tag.gap + TagText(i.tag, ">")|;
    var l := c + |ItemsText(i.items)|;
    var tail := i.end.gap + ("/" + TagText(i.end, ">"));
    NameBegins(i.end);
    TagStands(s, l, i.last, i.end.gap, "/" + TagText(i.end, ">"));
    OpenEnd(s, p, i);
    NothingYet();
    ItemsRead(s, c, i.items, depth + 1, false, []);
    var v := Meant(i.items, depth + 1, false, []);
    if v.Fine? {
      EndTagAt(s, l + |i.last| + 1, i.end, depth + 1);
      StepTag(s, l, l + |i.last| + 1, depth + 1, false, v.nodes);
    }
  }

  lemma NothingYet()
    ensures DeclarationsFirst([])
  {
  }

  lemma OpenReads(s: string, p: nat, i: Item, depth: nat, top: bool, kids: seq<Node>)
    requires i.Open? && ItemOk(i) && StartsWith(s, p, ItemText(i)) && depth < MAX_ELEMENT_DEPTH
    ensures var e := p + |ItemText(i)|;
      e <= |s| && LevelAt(s, p, depth, top, kids) == GoesOn(s, MeantOne(i, depth, top, kids), e, depth, top)
    decreases i, 1
  {
    hide SkipWhite, LevelAt, TagAt, Identify, TagText, TagOk, Blank, Distinct, StartsWith, AttrsOf, Tagged, ItemText, ItemsText, ItemsOk, Meant;
    OpenPieces(s, p, i);
    NameBegins(i.tag);
    TagTextStarts(i.tag, ">");
    TagStands(s, p, i.lead, i.tag.gap, TagText(i.tag, ">"));
    OpenEnd(s, p, i);
    StartTagAt(s, p + |i.lead| + 1, i.tag, ">", depth);
    StepTag(s, p, p + |i.lead| + 1, depth, top, kids);
    if depth + 1 < MAX_ELEMENT_DEPTH { InsideReads(s, p, i, depth); }
  }

  lemma OpenEnd(s: string, p: nat, i: Item)
    requires i.Open? && Legible(i.items) && StartsWith(s, p, ItemText(i))
    ensures p + |i.lead| + 1 + |i.tag.gap + TagText(i.tag, ">")| < p + |ItemText(i)| <= |s|
  {
    hide StartsWith, TagText, ItemsText, ItemText;
    OpenPieces(s, p, i);
    CharAt(s, p, ItemText(i));
  }

  /** One item. */
  lemma ItemRead(s: string, p: nat, i: Item, depth: nat, top: bool, kids: seq<Node>)
    requires ItemOk(i) && StartsWith(s, p, ItemText(i)) && depth < MAX_ELEMENT_DEPTH && DeclarationsFirst(kids)
    requires i.Plain? ==> p + |ItemText(i)| + 1 < |s| && s[p + |ItemText(i)|] == '<'
    ensures var e := p + |ItemText(i)|;
      e <= |s| && LevelAt(s, p, depth, top, kids) == GoesOn(s, MeantOne(i, depth, top, kids), e, depth, top)
    decreases i, 2
  {
    hide LevelAt, ItemOk, MeantOne, StartsWith, DeclarationsFirst;
    match i
    case Mark(lead, kind, raw) => MarkReads(s, p, lead, kind, raw, depth, top, kids);
    case Plain(raw) =>
      PlainReads(s, p, raw, depth, top, kids);
      PlainMeans(raw, depth, top, kids);
    case Sealed(lead, tag) => SealedReads(s, p, lead, tag, depth, top, kids);
    case Open(_, _, _, _, _) => OpenReads(s, p, i, depth, top, kids);
  }

  lemma PlainMeans(raw: string, depth: nat, top: bool, kids: seq<Node>)
    ensures MeantOne(Plain(raw), depth, top, kids) == Fine(kids + [Text(Value(raw), false)])
  {
  }

  /** Markup stands where an item starts that is no plain text; at once, if it has no white space
      before it. */
  lemma ItemStarts(s: string, p: nat, i: Item)
    requires ItemOk(i) && !i.Plain? && StartsWith(s, p, ItemText(i))
    ensures p <= |s| && Begins(s, p) && (i.lead == "" ==> p + 1 < |s| && s[p] == '<')
  {
    hide SkipWhite, TagText, TagOk, Blank, StartsWith, ItemsText, ItemsOk, Free, Identify;
    CharAt(s, p, ItemText(i));
    match i
    case Mark(lead, kind, raw) =>
      var rest := Header(kind) + (raw + Footer(kind));
      Split(s, p, lead, rest);
      CharAt(s, p + |lead|, rest);
      KindFacts(kind);
      assert rest[0] == '<' && |rest| > 1;
      SkipOver(s, p, lead, '<');
    case Sealed(lead, tag) =>
      NameBegins(tag);
      TagTextStarts(tag, "/>");
      TagStands(s, p, lead, tag.gap, TagText(tag, "/>"));
    case Open(lead, tag, _, _, _) =>
      OpenPieces(s, p, i);
      NameBegins(tag);
      TagTextStarts(tag, ">");
      TagStands(s, p, lead, tag.gap, TagText(tag, ">"));
  }

  /** A list of items means what it says: its nodes, or its first error. */
  lemma {:induction false} ItemsRead(s: string, p: nat, items: seq<Item>, depth: nat, top: bool, kids: seq<Node>)
    requires ItemsOk(items) && StartsWith(s, p, ItemsText(items)) && depth < MAX_ELEMENT_DEPTH && DeclarationsFirst(kids)
    requires Ends(s, p + |ItemsText(items)|, EndsPlain(items))
    ensures LevelAt(s, p, depth, top, kids)
         == GoesOn(s, Meant(items, depth, top, kids), p + |ItemsText(items)|, depth, top)
    decreases items, 3
  {
    hide LevelAt, ItemOk, ItemText, MeantOne, StartsWith, DeclarationsFirst, Tagged;
    if items != [] {
      var i, rest := items[0], items[1..];
      Split(s, p, ItemText(i), ItemsText(rest));
      var m := p + |ItemText(i)|;
      RestEnds(s, m, items);
      ItemRead(s, p, i, depth, top, kids);
      StillFirst(i, depth, top, kids);
      var v := MeantOne(i, depth, top, kids);
      if v.Fine? { ItemsRead(s, m, rest, depth, top, v.nodes); }
    }
  }

  /** What follows the first item, and what follows the rest. */
  lemma RestEnds(s: string, m: nat, items: seq<Item>)
    requires items != [] && ItemsOk(items) && StartsWith(s, m, ItemsText(items[1..]))
    requires Ends(s, m + |ItemsText(items[1..])|, EndsPlain(items))
    ensures Ends(s, m + |ItemsText(items[1..])|, EndsPlain(items[1..]))
    ensures items[0].Plain? ==> m + 1 < |s| && s[m] == '<'
  {
    hide ItemOk, ItemText, StartsWith, Tagged;
    var rest := items[1..];
    if rest != [] {
      assert rest[|rest| - 1] == items[|items| - 1];
      Split(s, m, ItemText(rest[0]), ItemsText(rest[1..]));
      if items[0].Plain? { ItemStarts(s, m, rest[0]); }
    }
  }
}
