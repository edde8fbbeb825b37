/** What XMLPrinter writes for a tree, compact or pretty, and the trees that survive being
    printed and parsed. */
module XmlLayout {
  import opened XmlText
  import opened XmlEscape
  import opened XmlDoc

  // --- White space ---

  function Spaces(depth: nat): (r: string)
    ensures |r| == 4 * depth && forall i :: 0 <= i < |r| ==> r[i] == ' '
  {
    if depth == 0 then "" else "    " + Spaces(depth - 1)
  }

  function NewLine(pretty: bool, quiet: bool, depth: nat): string {
    if pretty && !quiet then "\n" + Spaces(depth) else ""
  }

  // --- The text of a tree ---

  function AttrText(attr: Attr): string {
    " " + attr.name + "=\"" + Escape(false, attr.value) + "\""
  }

  function AttrsText(attrs: seq<Attr>): string {
    if attrs == [] then "" else AttrText(attrs[0]) + AttrsText(attrs[1..])
  }

  function LeafText(n: Node): string
    requires !n.Element?
  {
    match n
    case Text(t, cdata) => if cdata then "<![CDATA[" + t + "]]>" else Escape(true, t)
    case Comment(t) => "<!--" + t + "-->"
    case Declaration(t) => "<?" + t + "?>"
    case Unknown(t) => "<!" + t + ">"
  }

  /** _textDepth after the node; depth is that of the node, -1 means no text is open. */
  function TextDepth(n: Node, depth: nat, text: int): int {
    match n
    case Text(_, _) => depth - 1
    case Element(_, _, children) =>
      var t := TextDepths(children, depth + 1, text);
      if t == depth then -1 else t
    case _ => text
  }

  function TextDepths(ns: seq<Node>, depth: nat, text: int): int {
    if ns == [] then text else TextDepths(ns[1..], depth, TextDepth(ns[0], depth, text))
  }

  /** The white space before a node; `first` says that no markup was written before. */
  function Lead(pretty: bool, first: bool, n: Node, depth: nat, text: int): string {
    match n
    case Text(_, _) => ""
    case Element(_, _, _) => (if pretty && text < 0 && !first then "\n" else "") + (if pretty then Spaces(depth) else "")
    case _ => NewLine(pretty, text >= 0 || first, depth)
  }

  /** The line break after a root element. */
  function Trail(pretty: bool, n: Node, depth: nat): string {
    if pretty && depth == 0 && n.Element? then "\n" else ""
  }

  function EndTagText(name: string): string {
    "</" + name + ">"
  }

  function Body(pretty: bool, n: Node, depth: nat, text: int): string
    decreases n, 0
  {
    match n
    case Element(name, attrs, children) =>
      "<" + (name + (AttrsText(attrs)
      + if children == [] then "/>"
        else ">" + (NodesText(pretty, false, children, depth + 1, text)
             + (NewLine(pretty, TextDepths(children, depth + 1, text) >= 0, depth) + EndTagText(name)))))
    case _ => LeafText(n)
  }

  /** The node at the given depth. */
  function NodeText(pretty: bool, first: bool, n: Node, depth: nat, text: int): string
    decreases n, 1
  {
    Lead(pretty, first, n, depth, text) + (Body(pretty, n, depth, text) + Trail(pretty, n, depth))
  }

  function NodesText(pretty: bool, first: bool, ns: seq<Node>, depth: nat, text: int): string
    decreases ns
  {
    if ns == [] then "" else
      NodeText(pretty, first, ns[0], depth, text)
      + NodesText(pretty, first && ns[0].Text?, ns[1..], depth, TextDepth(ns[0], depth, text))
  }

  function DocumentText(pretty: bool, bom: bool, ns: seq<Node>): string {
    (if bom then BOM else "") + NodesText(pretty, true, ns, 0, -1)
  }

  // --- Trees in normal form ---

  /** Free of the bytes that end a C string or that reading normalizes. */
  predicate Clean(s: string) {
    NUL !in s && CR !in s
  }

  predicate IsName(s: string) {
    s != "" && IsNameStart(s[0]) && forall i :: 0 <= i < |s| ==> IsNameChar(s[i])
  }

  predicate Free(s: string, tag: string)
    requires tag != ""
  {
    FindTag(s, tag, 0) == |s|
  }

  predicate Blank(s: string) {
    forall i :: 0 <= i < |s| ==> IsWhite(s[i])
  }

  predicate NormalAttrs(attrs: seq<Attr>) {
    && (forall i :: 0 <= i < |attrs| ==> IsName(attrs[i].name) && Clean(attrs[i].value))
    && forall i, j :: 0 <= i < j < |attrs| ==> attrs[i].name != attrs[j].name
  }

  predicate PlainText(n: Node) {
    n.Text? && !n.cdata
  }

  predicate Normal(n: Node) {
    match n
    case Element(name, attrs, children) => IsName(name) && NormalAttrs(attrs) && NormalKids(children)
    case Text(t, cdata) => Clean(t) && if cdata then Free(t, "]]>") else !Blank(t)
    case Comment(t) => Clean(t) && Free(t, "-->")
    case Declaration(t) => Clean(t) && Free(t, "?>")
    case Unknown(t) => Clean(t) && Free(t, ">") && !StartsWith(t, 0, "--") && !StartsWith(t, 0, "[CDATA[")
  }

  /** Children of an element: no declarations, no plain text next to plain text. */
  predicate NormalKids(ns: seq<Node>) {
    ns == [] ||
    (Normal(ns[0]) && !ns[0].Declaration? && NormalKids(ns[1..])
     && !(PlainText(ns[0]) && |ns| > 1 && PlainText(ns[1])))
  }

  /** A document: declarations first, no plain text. */
  predicate NormalTop(decls: bool, ns: seq<Node>) {
    ns == [] ||
    (Normal(ns[0]) && !PlainText(ns[0]) && (ns[0].Declaration? ==> decls)
     && NormalTop(decls && ns[0].Declaration?, ns[1..]))
  }

  /** No element with children is nested deeper than the parser allows. */
  predicate Fits(n: Node, depth: nat) {
    n.Element? && n.children != [] ==> depth + 1 < MAX_ELEMENT_DEPTH && AllFit(n.children, depth + 1)
  }

  predicate AllFit(ns: seq<Node>, depth: nat) {
    ns == [] || (Fits(ns[0], depth) && AllFit(ns[1..], depth))
  }

  // --- What pretty printing changes ---

  /** The indentation of an element that follows plain text ends up in that text. */
  function Padding(pretty: bool, rest: seq<Node>, depth: nat): string {
    if pretty && rest != [] && rest[0].Element? then Spaces(depth) else ""
  }

  function Padded(pretty: bool, n: Node, rest: seq<Node>, depth: nat): Node {
    match n
    case Element(name, attrs, children) => Element(name, attrs, AllPadded(pretty, children, depth + 1))
    case Text(t, false) => Text(t + Padding(pretty, rest, depth), false)
    case _ => n
  }

  function AllPadded(pretty: bool, ns: seq<Node>, depth: nat): (r: seq<Node>)
    ensures |r| == |ns|
  {
    if ns == [] then [] else [Padded(pretty, ns[0], ns[1..], depth)] + AllPadded(pretty, ns[1..], depth)
  }

  /** No element stands right after plain text. */
  predicate Unmixed(ns: seq<Node>) {
    ns == [] ||
    (Unmixed(ns[1..]) && (ns[0].Element? ==> Unmixed(ns[0].children))
     && !(PlainText(ns[0]) && |ns| > 1 && ns[1].Element?))
  }

  /** Pretty printing loses nothing exactly when no element stands right after plain text. */
  lemma {:induction false} PaddedSame(pretty: bool, ns: seq<Node>, depth: nat)
    requires depth > 0
    ensures AllPadded(pretty, ns, depth) == ns <==> !pretty || Unmixed(ns)
    decreases ns
  {
    if ns != [] {
      var rest := ns[1..];
      PaddedSame(pretty, rest, depth);
      if ns[0].Element? {
        PaddedSame(pretty, ns[0].children, depth + 1);
      }
      var a := AllPadded(pretty, ns, depth);
      assert a[0] == Padded(pretty, ns[0], rest, depth) && a[1..] == AllPadded(pretty, rest, depth);
      assert a == ns <==> a[0] == ns[0] && a[1..] == rest;
      if PlainText(ns[0]) {
        var pad := Padding(pretty, rest, depth);
        assert |ns[0].text + pad| == |ns[0].text| + |pad|;
        assert pad == "" ==> ns[0].text + pad == ns[0].text;
        assert rest != [] ==> rest[0] == ns[1];
      }
    }
  }
}
