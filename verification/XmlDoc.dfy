/** The document tree of TinyXML-2 and its parser as functions of the text:
    XMLDocument::Identify and the ParseDeep family. */
module XmlDoc {
  import opened XmlText

  datatype Attr = Attr(name: string, value: string)

  datatype Node =
    | Element(name: string, attrs: seq<Attr>, children: seq<Node>)
    | Text(text: string, cdata: bool)
    | Comment(text: string)
    | Declaration(text: string)
    | Unknown(text: string)

  datatype Error =
    | NoError
    | ErrorElement | ErrorAttribute | ErrorText | ErrorCData | ErrorComment | ErrorDeclaration
    | ErrorUnknown | ErrorEmpty | ErrorMismatch | ErrorParsing | ErrorDepth

  datatype Document = Parsed(bom: bool, nodes: seq<Node>) | Rejected(error: Error)

  const MAX_ELEMENT_DEPTH: nat := 100

  const BOM: string := [0xEF as char, 0xBB as char, 0xBF as char]

  // --- Characters ---

  predicate IsWhite(c: char) {
    c == ' ' || 9 <= c as int <= 13
  }

  predicate IsNameStart(c: char) {
    c as int >= 128 || 'a' <= c <= 'z' || 'A' <= c <= 'Z' || c == ':' || c == '_'
  }

  predicate IsNameChar(c: char) {
    IsNameStart(c) || '0' <= c <= '9' || c == '.' || c == '-'
  }

  // --- Scanning ---

  function SkipWhite(s: string, p: nat): (q: nat)
    requires p <= |s|
    ensures p <= q <= |s| && (q < |s| ==> !IsWhite(s[q]))
    ensures forall i :: p <= i < q ==> IsWhite(s[i])
    decreases |s| - p
  {
    if p < |s| && IsWhite(s[p]) then SkipWhite(s, p + 1) else p
  }

  /** StrPair::ParseText: the first place at or after p where the tag stands, or |s|. */
  function FindTag(s: string, tag: string, p: nat): (q: nat)
    requires p <= |s| && tag != ""
    ensures p <= q <= |s| && (q < |s| ==> StartsWith(s, q, tag))
    ensures forall i :: p <= i < q ==> !StartsWith(s, i, tag)
    decreases |s| - p
  {
    if p == |s| || StartsWith(s, p, tag) then p else FindTag(s, tag, p + 1)
  }

  function NameRest(s: string, p: nat): (q: nat)
    requires p <= |s|
    ensures p <= q <= |s| && (q < |s| ==> !IsNameChar(s[q]))
    ensures forall i :: p <= i < q ==> IsNameChar(s[i])
    decreases |s| - p
  {
    if p < |s| && IsNameChar(s[p]) then NameRest(s, p + 1) else p
  }

  /** StrPair::ParseName: the end of the name at p, or p where none starts. */
  function NameEnd(s: string, p: nat): (q: nat)
    requires p <= |s|
    ensures p <= q <= |s| && (q > p <==> p < |s| && IsNameStart(s[p]))
  {
    if p < |s| && IsNameStart(s[p]) then NameRest(s, p + 1) else p
  }

  // --- Values, as GetStr returns them ---

  function Value(raw: string): string {
    UpToNul(InPlace(true, true, raw, 0, ""))
  }

  function RawValue(raw: string): string {
    UpToNul(InPlace(false, true, raw, 0, ""))
  }

  // --- Attributes ---

  datatype AttrStep = NoAttr | OneAttr(attr: Attr, next: nat)

  /** XMLAttribute::ParseDeep */
  function AttrAt(s: string, p: nat): (r: AttrStep)
    requires p < |s| && IsNameStart(s[p])
    ensures r.OneAttr? ==> p < r.next <= |s|
  {
    var e := NameEnd(s, p);
    if e == |s| then NoAttr else
      var q := SkipWhite(s, e);
      if q == |s| || s[q] != '=' then NoAttr else
        var v := SkipWhite(s, q + 1);
        if v == |s| || (s[v] != '\"' && s[v] != '\'') then NoAttr else
          var z := FindTag(s, [s[v]], v + 1);
          if z == |s| then NoAttr else OneAttr(Attr(s[p..e], Value(s[v + 1..z])), z + 1)
  }

  predicate HasAttr(attrs: seq<Attr>, name: string) {
    exists i :: 0 <= i < |attrs| && attrs[i].name == name
  }

  datatype AttrList = AttrError(error: Error) | AttrList(attrs: seq<Attr>, closed: bool, next: nat)

  /** XMLElement::ParseAttributes, with the attributes linked so far. */
  function Attrs(s: string, p: nat, attrs: seq<Attr>): (r: AttrList)
    requires p <= |s|
    ensures r.AttrList? ==> p < r.next <= |s|
    ensures r.AttrError? ==> r.error != NoError
    decreases |s| - p
  {
    var p := SkipWhite(s, p);
    if p == |s| then AttrError(ErrorElement)
    else if IsNameStart(s[p]) then
      match AttrAt(s, p)
      case NoAttr => AttrError(ErrorAttribute)
      case OneAttr(a, q) => if HasAttr(attrs, a.name) then AttrError(ErrorAttribute) else Attrs(s, q, attrs + [a])
    else if s[p] == '>' then AttrList(attrs, false, p + 1)
    else if s[p] == '/' && p + 1 < |s| && s[p + 1] == '>' then AttrList(attrs, true, p + 2)
    else AttrError(ErrorElement)
  }

  // --- Nodes ---

  datatype Kind = NoNode | IsDeclaration | IsComment | IsCData | IsUnknown | IsElement | IsText

  /** XMLDocument::Identify: what stands at p and where its content starts. */
  function Identify(s: string, p: nat): (r: (Kind, nat))
    requires p <= |s|
    ensures p <= r.1 <= |s|
    ensures r.0 == NoNode <==> SkipWhite(s, p) == |s|
    ensures r.0 != NoNode && r.0 != IsText ==> p < r.1
    ensures r.0 == IsText ==> r.1 == p && s[SkipWhite(s, p)] != '<'
  {
    var q := SkipWhite(s, p);
    if q == |s| then (NoNode, q)
    else if StartsWith(s, q, "<?") then (IsDeclaration, q + 2)
    else if StartsWith(s, q, "<!--") then (IsComment, q + 4)
    else if StartsWith(s, q, "<![CDATA[") then (IsCData, q + 9)
    else if StartsWith(s, q, "<!") then (IsUnknown, q + 2)
    else if StartsWith(s, q, "<") then (IsElement, q + 1)
    else (IsText, p)
  }

  datatype Leaf = NoLeaf(error: Error) | OneLeaf(node: Node, next: nat)

  predicate LeafKind(kind: Kind) {
    kind == IsDeclaration || kind == IsComment || kind == IsCData || kind == IsUnknown
  }

  function Closing(kind: Kind): (tag: string)
    requires LeafKind(kind)
    ensures tag != ""
  {
    match kind
    case IsDeclaration => "?>"
    case IsComment => "-->"
    case IsCData => "]]>"
    case _ => ">"
  }

  function LeafError(kind: Kind): (e: Error)
    requires LeafKind(kind)
    ensures e != NoError
  {
    match kind
    case IsDeclaration => ErrorDeclaration
    case IsComment => ErrorComment
    case IsCData => ErrorCData
    case _ => ErrorUnknown
  }

  function LeafOf(kind: Kind, v: string): (n: Node)
    requires LeafKind(kind)
    ensures !n.Element?
  {
    match kind
    case IsDeclaration => Declaration(v)
    case IsComment => Comment(v)
    case IsCData => Text(v, true)
    case _ => Unknown(v)
  }

  /** Comments, unknowns, declarations and CDATA: everything up to the closing tag. */
  function LeafAt(s: string, q: nat, kind: Kind): (r: Leaf)
    requires q <= |s| && LeafKind(kind)
    ensures r.OneLeaf? ==> q < r.next <= |s| && !r.node.Element?
    ensures r.NoLeaf? ==> r.error != NoError
  {
    var z := FindTag(s, Closing(kind), q);
    if z == |s| then NoLeaf(LeafError(kind)) else OneLeaf(LeafOf(kind, RawValue(s[q..z])), z + |Closing(kind)|)
  }

  /** XMLText::ParseDeep for plain text, which hands the '<' back. */
  function TextAt(s: string, p: nat): (r: Leaf)
    requires TextStarts(s, p)
    ensures r.OneLeaf? ==> p < r.next <= |s| && r.node.Text?
    ensures r.NoLeaf? ==> r.error != NoError
  {
    var z := FindTag(s, "<", p);
    if z == |s| then NoLeaf(ErrorText)
    else if z + 1 == |s| then NoLeaf(ErrorParsing)
    else
      assert z != p by { assert StartsWith(s, z, "<"); }
      OneLeaf(Text(Value(s[p..z]), false), z)
  }

  predicate TextStarts(s: string, p: nat) {
    p < |s| && SkipWhite(s, p) < |s| && s[SkipWhite(s, p)] != '<'
  }

  /** Declarations may only open the document. */
  predicate WellLocated(top: bool, kids: seq<Node>) {
    top && (kids == [] || (kids[0].Declaration? && kids[|kids| - 1].Declaration?))
  }

  datatype Tag =
    | BadTag(error: Error)
    | EndTag(name: string, next: nat)
    | Tag(name: string, attrs: seq<Attr>, children: seq<Node>, closed: bool, end: string, next: nat)

  /** XMLElement::ParseDeep after the '<': an end tag, or an element with the end tag that
      its last child has read (`end`, empty if none). */
  function TagAt(s: string, q: nat, depth: nat): (r: Tag)
    requires q <= |s|
    ensures if r.BadTag? then r.error != NoError else q < r.next <= |s|
    ensures r.Tag? ==> r.name != "" && (r.closed ==> r.end == "")
    decreases |s| - q
  {
    var q := SkipWhite(s, q);
    var closing := q < |s| && s[q] == '/';
    var n := if closing then q + 1 else q;
    var e := NameEnd(s, n);
    if e == n then BadTag(ErrorParsing) else
      match Attrs(s, e, [])
      case AttrError(error) => BadTag(error)
      case AttrList(attrs, closed, next) =>
        if closed then Tag(s[n..e], attrs, [], true, "", next)
        else if closing then EndTag(s[n..e], next)
        else if next == |s| then Tag(s[n..e], attrs, [], false, "", next)
        else if depth + 1 == MAX_ELEMENT_DEPTH then BadTag(ErrorDepth)
        else TagOf(s[n..e], attrs, LevelAt(s, next, depth + 1, false, []))
  }

  /** An element around the level that followed its start tag. */
  function TagOf(name: string, attrs: seq<Attr>, level: Level): Tag
  {
    match level
    case Failed(error) => BadTag(error)
    case Exhausted(_) => BadTag(ErrorParsing)
    case Ended(kids, end, next) => Tag(name, attrs, kids, false, end, next)
  }

  datatype Level = Failed(error: Error) | Exhausted(kids: seq<Node>) | Ended(kids: seq<Node>, end: string, next: nat)

  /** The loop of XMLNode::ParseDeep from p on, with the children linked so far. */
  function LevelAt(s: string, p: nat, depth: nat, top: bool, kids: seq<Node>): (r: Level)
    requires p <= |s|
    ensures r.Ended? ==> p < r.next <= |s|
    ensures r.Failed? ==> r.error != NoError
    decreases |s| - p
  {
    var (kind, q) := Identify(s, p);
    if kind == NoNode then Exhausted(kids)
    else if kind == IsElement then
      match TagAt(s, q, depth)
      case BadTag(error) => Failed(error)
      case EndTag(name, next) => Ended(kids, name, next)
      case Tag(name, attrs, children, closed, end, next) =>
        if !closed && end != name then Failed(ErrorMismatch)
        else LevelAt(s, next, depth, top, kids + [Element(name, attrs, children)])
    else
      match (if kind == IsText then TextAt(s, p) else LeafAt(s, q, kind))
      case NoLeaf(error) => Failed(error)
      case OneLeaf(node, next) =>
        if node.Declaration? && !WellLocated(top, kids) then Failed(ErrorDeclaration)
        else LevelAt(s, next, depth, top, kids + [node])
  }

  /** XMLDocument::Parse on a C string.  A stray end tag at the top ends the document. */
  function Parse(s: string): (d: Document)
    ensures d.Rejected? ==> d.error != NoError
  {
    var p := SkipWhite(s, 0);
    var bom := StartsWith(s, p, BOM);
    var q := if bom then p + 3 else p;
    if q == |s| then Rejected(ErrorEmpty) else
      match LevelAt(s, q, 1, true, [])
      case Failed(error) => Rejected(error)
      case Exhausted(nodes) => Parsed(bom, nodes)
      case Ended(nodes, _, _) => Parsed(bom, nodes)
  }

  // --- Single steps of the parsing loop ---

  lemma StepEnd(s: string, p: nat, q: nat, depth: nat, top: bool, kids: seq<Node>)
    requires p <= |s| && Identify(s, p) == (NoNode, q)
    ensures LevelAt(s, p, depth, top, kids) == Exhausted(kids)
  {
  }

  lemma StepLeaf(s: string, p: nat, q: nat, kind: Kind, depth: nat, top: bool, kids: seq<Node>)
    requires p <= |s| && q <= |s| && LeafKind(kind)
    requires Identify(s, p) == (kind, q)
    ensures LevelAt(s, p, depth, top, kids) ==
      match LeafAt(s, q, kind)
      case NoLeaf(error) => Failed(error)
      case OneLeaf(n, m) =>
        if n.Declaration? && !WellLocated(top, kids) then Failed(ErrorDeclaration)
        else LevelAt(s, m, depth, top, kids + [n])
  {
    hide Identify, LeafAt;
  }

  lemma StepText(s: string, p: nat, depth: nat, top: bool, kids: seq<Node>)
    requires TextStarts(s, p) && Identify(s, p).0 == IsText
    ensures TextAt(s, p).NoLeaf? ==> LevelAt(s, p, depth, top, kids) == Failed(TextAt(s, p).error)
    ensures TextAt(s, p).OneLeaf? ==>
      LevelAt(s, p, depth, top, kids) == LevelAt(s, TextAt(s, p).next, depth, top, kids + [TextAt(s, p).node])
  {
    hide Identify;
  }

  lemma StepTag(s: string, p: nat, q: nat, depth: nat, top: bool, kids: seq<Node>)
    requires p < q <= |s| && Identify(s, p) == (IsElement, q)
    ensures LevelAt(s, p, depth, top, kids) ==
      match TagAt(s, q, depth)
      case BadTag(error) => Failed(error)
      case EndTag(name, next) => Ended(kids, name, next)
      case Tag(name, attrs, children, closed, end, next) =>
        if !closed && end != name then Failed(ErrorMismatch)
        else LevelAt(s, next, depth, top, kids + [Element(name, attrs, children)])
  {
    hide Identify, TagAt;
  }
}
