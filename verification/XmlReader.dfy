/** The parser of TinyXML-2 as it runs: scanning loops, the recursive ParseDeep methods, the
    error that sticks and the depth counter, proved against the functions of XmlDoc. */
module XmlReader {
  import opened XmlText
  import opened XmlDoc

  /** A null pointer. */
  const NULL: int := -1

  lemma FirstChar(s: string, q: nat, tag: string)
    requires q < |s| && tag != ""
    ensures StartsWith(s, q, tag) ==> s[q] == tag[0]
  {
    if StartsWith(s, q, tag) {
      assert s[q..q + |tag|][0] == s[q];
    }
  }

  lemma EndOfLevel(s: string, depth: nat, top: bool, kids: seq<Node>)
    ensures LevelAt(s, |s|, depth, top, kids) == Exhausted(kids)
  {
  }

  datatype ClosingType = OPEN | CLOSED | CLOSING

  class XMLDocument {
    /** The text being parsed, up to its terminator. */
    const buffer: string
    var errorID: Error
    var parsingDepth: nat
    var bom: bool
    var children: seq<Node>

    constructor (text: string)
      ensures buffer == UpToNul(text) && errorID == NoError && parsingDepth == 0 && children == [] && !bom
    {
      buffer := UpToNul(text);
      errorID, parsingDepth, bom, children := NoError, 0, false, [];
    }

    method SkipWhiteSpace(p: nat) returns (q: nat)
      requires p <= |buffer|
      ensures q == SkipWhite(buffer, p)
    {
      q := p;
      while q < |buffer| && IsWhite(buffer[q])
        invariant p <= q <= |buffer| && SkipWhite(buffer, p) == SkipWhite(buffer, q)
      {
        q := q + 1;
      }
    }

    /** StrPair::ParseText: the raw text up to the end tag, and the place behind the tag. */
    method ParseText(p: nat, endTag: string) returns (raw: string, next: int)
      requires p <= |buffer| && endTag != ""
      ensures var z := FindTag(buffer, endTag, p);
        if z == |buffer| then next == NULL else raw == buffer[p..z] && next == z + |endTag| <= |buffer|
    {
      var q := p;
      while q < |buffer|
        invariant p <= q <= |buffer| && FindTag(buffer, endTag, p) == FindTag(buffer, endTag, q)
      {
        if buffer[q] == endTag[0] && StartsWith(buffer, q, endTag) {
          return buffer[p..q], q + |endTag|;
        }
        FirstChar(buffer, q, endTag);
        q := q + 1;
      }
      return "", NULL;
    }

    /** StrPair::ParseName */
    method ParseName(p: nat) returns (name: string, next: int)
      requires p <= |buffer|
      ensures var e := NameEnd(buffer, p);
        if e == p then name == "" && next == NULL else name == buffer[p..e] && name != "" && next == e
    {
      if p == |buffer| || !IsNameStart(buffer[p]) {
        return "", NULL;
      }
      var q := p + 1;
      while q < |buffer| && IsNameChar(buffer[q])
        invariant p < q <= |buffer| && NameRest(buffer, p + 1) == NameRest(buffer, q)
      {
        q := q + 1;
      }
      return buffer[p..q], q;
    }

    /** XMLAttribute::ParseDeep */
    method ParseAttribute(p: nat) returns (attr: Attr, next: int)
      requires p < |buffer| && IsNameStart(buffer[p])
      ensures match AttrAt(buffer, p)
        case NoAttr => next == NULL
        case OneAttr(a, n) => attr == a && next == n
    {
      hide NameEnd, SkipWhite, FindTag, Value;
      attr := Attr("", "");
      var name, q := ParseName(p);
      if q == NULL || q == |buffer| {
        return attr, NULL;
      }
      q := SkipWhiteSpace(q);
      if q == |buffer| || buffer[q] != '=' {
        return attr, NULL;
      }
      q := SkipWhiteSpace(q + 1);
      if q == |buffer| || (buffer[q] != '\"' && buffer[q] != '\'') {
        return attr, NULL;
      }
      var raw, r := ParseText(q + 1, [buffer[q]]);
      if r == NULL {
        return attr, NULL;
      }
      return Attr(name, Value(raw)), r;
    }

    method FindAttribute(attrs: seq<Attr>, name: string) returns (found: bool)
      ensures found == HasAttr(attrs, name)
    {
      var i := 0;
      while i < |attrs|
        invariant 0 <= i <= |attrs| && forall j :: 0 <= j < i ==> attrs[j].name != name
      {
        if attrs[i].name == name {
          return true;
        }
        i := i + 1;
      }
      return false;
    }

    /** XMLElement::ParseAttributes; `sealed` reports "/>". */
    method ParseAttributes(p: nat) returns (attrs: seq<Attr>, sealed: bool, next: int)
      requires p <= |buffer| && errorID == NoError
      modifies this`errorID
      ensures match Attrs(buffer, p, [])
        case AttrError(e) => next == NULL && errorID == e
        case AttrList(a, c, n) => attrs == a && sealed == c && next == n && errorID == NoError
    {
      hide AttrAt, SkipWhite;
      attrs := [];
      var q := p;
      while true
        invariant q <= |buffer| && errorID == NoError
        invariant Attrs(buffer, p, []) == Attrs(buffer, q, attrs)
        decreases |buffer| - q
      {
        q := SkipWhiteSpace(q);
        if q == |buffer| {
          errorID := ErrorElement;
          return attrs, false, NULL;
        }
        if IsNameStart(buffer[q]) {
          var attr, r := ParseAttribute(q);
          var duplicate := FindAttribute(attrs, attr.name);
          if r == NULL || duplicate {
            errorID := ErrorAttribute;
            return attrs, false, NULL;
          }
          attrs := attrs + [attr];
          q := r;
        } else if buffer[q] == '>' {
          return attrs, false, q + 1;
        } else if buffer[q] == '/' && q + 1 < |buffer| && buffer[q + 1] == '>' {
          return attrs, true, q + 2;
        } else {
          errorID := ErrorElement;
          return attrs, false, NULL;
        }
      }
    }

    method PushDepth()
      modifies this`parsingDepth, this`errorID
      ensures parsingDepth == old(parsingDepth) + 1
      ensures errorID == if parsingDepth == MAX_ELEMENT_DEPTH then ErrorDepth else old(errorID)
    {
      parsingDepth := parsingDepth + 1;
      if parsingDepth == MAX_ELEMENT_DEPTH {
        errorID := ErrorDepth;
      }
    }

    /** XMLElement::ParseDeep after the '<'.  An end tag returned by the children is `end`. */
    method ParseElement(p: nat) returns (node: Node, closing: ClosingType, end: string, next: int)
      requires p <= |buffer| && errorID == NoError && 0 < parsingDepth < MAX_ELEMENT_DEPTH
      modifies this`errorID, this`parsingDepth
      ensures parsingDepth == old(parsingDepth) && node.Element?
      ensures match TagAt(buffer, p, parsingDepth)
        case BadTag(e) => next == NULL && (errorID == e || (errorID == NoError && e == ErrorParsing))
        case EndTag(n, q) => closing == CLOSING && node.name == n && next == q && errorID == NoError
        case Tag(n, a, c, closed, e, q) =>
          node == Element(n, a, c) && closing == (if closed then CLOSED else OPEN) && end == e && next == q && errorID == NoError
      decreases |buffer| - p, 0
    {
      hide SkipWhite, NameEnd, Attrs, LevelAt;
      var q := SkipWhiteSpace(p);
      node, closing, end, next := Element("", [], []), OPEN, "", NULL;
      if q < |buffer| && buffer[q] == '/' {
        closing := CLOSING;
        q := q + 1;
      }
      var name, r := ParseName(q);
      if name == "" {
        return;
      }
      var attrs, sealed, t := ParseAttributes(r);
      if sealed && t != NULL {
        closing := CLOSED;
      }
      node := Element(name, attrs, []);
      next := t;
      if t == NULL || t == |buffer| || closing != OPEN {
        return;
      }
      var kids;
      next, end, kids := ParseDeep(t, false);
      node := Element(name, attrs, kids);
    }

    /** The leaf nodes: everything up to the closing tag. */
    method ParseLeaf(kind: Kind, p: nat) returns (node: Node, next: int)
      requires p <= |buffer| && LeafKind(kind) && errorID == NoError
      modifies this`errorID
      ensures !node.Element?
      ensures match LeafAt(buffer, p, kind)
        case NoLeaf(e) => next == NULL && errorID == e
        case OneLeaf(n, q) => node == n && next == q && errorID == NoError
    {
      hide FindTag, RawValue;
      var raw, r := ParseText(p, Closing(kind));
      node, next := LeafOf(kind, ""), r;
      if r == NULL {
        errorID := LeafError(kind);
      } else {
        node := LeafOf(kind, RawValue(raw));
      }
    }

    /** XMLText::ParseDeep for plain text. */
    method ParsePlain(p: nat) returns (node: Node, next: int)
      requires TextStarts(buffer, p) && errorID == NoError
      modifies this`errorID
      ensures node.Text?
      ensures match TextAt(buffer, p)
        case NoLeaf(e) => next == NULL && (errorID == e || (errorID == NoError && e == ErrorParsing))
        case OneLeaf(n, q) => node == n && next == q && errorID == NoError
    {
      hide FindTag, Value;
      var raw, r := ParseText(p, "<");
      node, next := Text("", false), NULL;
      if r == NULL {
        errorID := ErrorText;
      } else if r < |buffer| {
        node, next := Text(Value(raw), false), r - 1;
      }
    }

    /** XMLNode::ParseDeep: reads children until an end tag, an error or the end of the text.
        The end tag's name goes to the caller in `end`. */
    method ParseDeep(p: nat, top: bool) returns (next: int, end: string, kids: seq<Node>)
      requires p <= |buffer| && errorID == NoError && parsingDepth < MAX_ELEMENT_DEPTH
      modifies this`errorID, this`parsingDepth
      ensures parsingDepth == old(parsingDepth)
      ensures parsingDepth + 1 == MAX_ELEMENT_DEPTH ==> next == NULL && errorID == ErrorDepth
      ensures parsingDepth + 1 < MAX_ELEMENT_DEPTH ==>
        match LevelAt(buffer, p, parsingDepth + 1, top, [])
        case Failed(e) => next == NULL && errorID == e
        case Exhausted(k) => next == NULL && errorID == NoError && kids == k
        case Ended(k, n, q) => next == q && end == n && errorID == NoError && kids == k
      decreases |buffer| - p, 1
    {
      hide Identify, LeafAt, TextAt, TagAt, WellLocated, LevelAt;
      next, end, kids := NULL, "", [];
      PushDepth();
      if errorID != NoError {
        parsingDepth := parsingDepth - 1;
        return;
      }
      var depth := parsingDepth;
      var q := p;
      while q < |buffer|
        invariant p <= q <= |buffer| && errorID == NoError && parsingDepth == depth && next == NULL
        invariant LevelAt(buffer, p, depth, top, []) == LevelAt(buffer, q, depth, top, kids)
        decreases |buffer| - q
      {
        var (kind, c) := Identify(buffer, q);
        if kind == NoNode {
          StepEnd(buffer, q, c, depth, top, kids);
          break;
        }
        var node, closing, endTag, r := Text("", false), OPEN, "", NULL;
        if kind == IsElement {
          StepTag(buffer, q, c, depth, top, kids);
          node, closing, endTag, r := ParseElement(c);
        } else if kind == IsText {
          StepText(buffer, q, depth, top, kids);
          node, r := ParsePlain(q);
        } else {
          StepLeaf(buffer, q, c, kind, depth, top, kids);
          node, r := ParseLeaf(kind, c);
        }
        if r == NULL {
          if errorID == NoError {
            errorID := ErrorParsing;
          }
          parsingDepth := parsingDepth - 1;
          return;
        }
        if node.Declaration? && !WellLocated(top, kids) {
          errorID := ErrorDeclaration;
          parsingDepth := parsingDepth - 1;
          return;
        }
        if node.Element? {
          if closing == CLOSING {
            parsingDepth := parsingDepth - 1;
            return r, node.name, kids;
          }
          var mismatch := if endTag == "" then closing == OPEN else closing != OPEN || endTag != node.name;
          if mismatch {
            errorID := ErrorMismatch;
            parsingDepth := parsingDepth - 1;
            return;
          }
        }
        kids := kids + [node];
        q := r;
      }
      if q == |buffer| {
        EndOfLevel(buffer, depth, top, kids);
      }
      parsingDepth := parsingDepth - 1;
    }

    /** XMLDocument::Parse; a rejected document keeps no children. */
    method Parse()
      requires errorID == NoError && parsingDepth == 0 && children == []
      modifies this
      ensures match XmlDoc.Parse(buffer)
        case Parsed(b, nodes) => errorID == NoError && bom == b && children == nodes
        case Rejected(e) => errorID == e && children == []
      ensures parsingDepth == 0
    {
      hide LevelAt, SkipWhite;
      var p := SkipWhiteSpace(0);
      bom := StartsWith(buffer, p, BOM);
      if bom {
        p := p + 3;
      }
      if p == |buffer| {
        errorID := ErrorEmpty;
        return;
      }
      var next, end, kids := ParseDeep(p, true);
      children := if errorID == NoError then kids else [];
    }
  }
}
