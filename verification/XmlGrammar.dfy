/** Documents as they may be written: what the parser makes of every text of items, complete or
    cut off. */
module XmlGrammar {
  import opened XmlText
  import opened XmlDoc
  import opened XmlLayout
  import opened XmlRound
  import opened XmlForms

  // --- Documents ---

  lemma {:induction false} SkipShift(s: string, p: nat, i: nat)
    requires p + i <= |s|
    ensures SkipWhite(s, p + i) == p + SkipWhite(s[p..], i)
    decreases |s| - p - i
  {
    if p + i < |s| && IsWhite(s[p + i]) {
      SkipShift(s, p, i + 1);
    }
  }

  /** The document that a level makes; a stray end tag ends it as well. */
  function Closed(bom: bool, level: Level): Document {
    match level
    case Failed(error) => Rejected(error)
    case Exhausted(nodes) => Parsed(bom, nodes)
    case Ended(nodes, _, _) => Parsed(bom, nodes)
  }

  lemma ParseFrom(s: string, b: nat, bom: bool)
    requires b == SkipWhite(s, 0) && (bom <==> StartsWith(s, b, BOM))
    ensures var q := if bom then b + 3 else b;
      q <= |s| && Parse(s) == if q == |s| then Rejected(ErrorEmpty) else Closed(bom, LevelAt(s, q, 1, true, []))
  {
    hide SkipWhite, LevelAt;
  }

  /** How a document may begin: with a byte order mark, with markup, or with text that does not look
      like one or the other. */
  predicate Starts(bom: bool, body: string) {
    body != "" && (bom || Begins(body, 0) || (!IsWhite(body[0]) && !StartsWith(body, 0, BOM)))
  }

  /** XMLDocument::Parse behind white space and the byte order mark. */
  lemma Front(lead: string, bom: bool, body: string)
    requires Blank(lead) && Starts(bom, body)
    ensures var s := lead + ((if bom then BOM else "") + body);
      Parse(s) == Closed(bom, LevelAt(s, |s| - |body|, 1, true, []))
  {
    hide SkipWhite, LevelAt, Blank, StartsWith, Parse, Closed, Begins;
    var mark := if bom then BOM else "";
    var s := lead + (mark + body);
    Whole(s);
    HeadSplit(s, 0, lead, mark, body);
    FrontTail(lead, mark, body);
    if bom {
      FrontMarked(s, lead);
    } else if Begins(body, 0) {
      BeginsShift(s, |lead|, body);
      FrontPlain(s, lead);
    } else {
      FrontText(s, lead, body);
    }
  }

  lemma FrontText(s: string, lead: string, body: string)
    requires StartsWith(s, 0, lead) && Blank(lead) && s[|lead|..] == body && body != "" && !IsWhite(body[0]) && !StartsWith(body, 0, BOM)
    ensures Parse(s) == Closed(false, LevelAt(s, |lead|, 1, true, []))
  {
    hide SkipWhite, LevelAt, Blank, Parse, Closed;
    var p := |lead|;
    SkipOver(s, 0, lead, body[0]);
    if |body| >= 3 { assert body[0..3] == s[p..p + 3]; }
    ParseFrom(s, p, false);
  }

  lemma BeginsShift(s: string, p: nat, body: string)
    requires p <= |s| && s[p..] == body && Begins(body, 0)
    ensures Begins(s, p)
  {
    hide SkipWhite;
    SkipShift(s, p, 0);
    assert s[p + SkipWhite(body, 0)] == body[SkipWhite(body, 0)];
  }

  lemma FrontTail(lead: string, mark: string, body: string)
    ensures var s := lead + (mark + body); s[|lead| + |mark|..] == body && |s| == |lead| + |mark| + |body|
  {
    assert lead + (mark + body) == (lead + mark) + body;
  }

  lemma FrontMarked(s: string, lead: string)
    requires StartsWith(s, 0, lead) && Blank(lead) && StartsWith(s, |lead|, BOM) && |lead| + 3 < |s|
    ensures Parse(s) == Closed(true, LevelAt(s, |lead| + 3, 1, true, []))
  {
    hide SkipWhite, LevelAt, Blank, StartsWith, Parse, Closed;
    CharAt(s, |lead|, BOM);
    SkipOver(s, 0, lead, BOM[0]);
    ParseFrom(s, |lead|, true);
  }

  lemma FrontPlain(s: string, lead: string)
    requires StartsWith(s, 0, lead) && Blank(lead) && Begins(s, |lead|)
    ensures Parse(s) == Closed(false, LevelAt(s, |lead|, 1, true, []))
  {
    hide SkipWhite, LevelAt, Blank, StartsWith, Parse;
    var p := |lead|;
    var b := SkipWhite(s, p);
    SkipBlank(s, 0, lead);
    HeaderBytes(s, b, BOM);
    BlankBetween(s, p, b);
    SkipNone(s, b);
    SkipLevel(s, p, s[p..b], 1, true, []);
    ParseFrom(s, b, false);
  }

  lemma Whole(s: string)
    ensures StartsWith(s, 0, s)
  {
    assert s[0..|s|] == s;
  }

  lemma BlankBetween(s: string, p: nat, b: nat)
    requires p <= |s| && b == SkipWhite(s, p)
    ensures p <= b <= |s| && StartsWith(s, p, s[p..b]) && Blank(s[p..b])
  {
  }

  /** The text of items and what follows them, as the body of a document. */
  lemma BodyRead(lead: string, bom: bool, items: seq<Item>, rest: string)
    requires Blank(lead) && ItemsOk(items) && Starts(bom, ItemsText(items) + rest)
    requires var s := lead + ((if bom then BOM else "") + (ItemsText(items) + rest)); Ends(s, |s| - |rest|, EndsPlain(items))
    ensures var s := lead + ((if bom then BOM else "") + (ItemsText(items) + rest));
      Parse(s) == match Meant(items, 1, true, [])
                  case Wrong(error) => Rejected(error)
                  case Fine(ns) => Closed(bom, LevelAt(s, |s| - |rest|, 1, true, ns))
  {
    hide SkipWhite, LevelAt, Blank, StartsWith, ItemsText, ItemsOk, Meant, Ends, Starts, Parse;
    var mark := if bom then BOM else "";
    var body := ItemsText(items) + rest;
    var s, p := lead + (mark + body), |lead| + |mark|;
    Front(lead, bom, body);
    Whole(s);
    Split(s, 0, lead, mark + body);
    Split(s, |lead|, mark, body);
    Split(s, p, ItemsText(items), rest);
    NothingYet();
    ItemsRead(s, p, items, 1, true, []);
  }

  lemma ItemsBegin(items: seq<Item>, rest: string)
    requires ItemsOk(items) && items != [] && !items[0].Plain?
    ensures Begins(ItemsText(items) + rest, 0) && ItemsText(items) + rest != ""
  {
    hide ItemOk, ItemText, StartsWith;
    var b := ItemsText(items) + rest;
    var tail := ItemsText(items[1..]) + rest;
    assert b == ItemText(items[0]) + tail;
    Whole(b);
    Split(b, 0, ItemText(items[0]), tail);
    ItemStarts(b, 0, items[0]);
  }

  lemma BlankEnd(s: string, tail: string)
    requires |tail| <= |s| && s[|s| - |tail|..] == tail && Blank(tail)
    ensures SkipWhite(s, |s| - |tail|) == |s|
  {
    SkipTo(s, |s| - |tail|, |s|);
  }

  /** Every document of items is read as what it means: its nodes, or the first error in it. */
  lemma DocumentRead(lead: string, bom: bool, items: seq<Item>, tail: string)
    requires Blank(lead) && Blank(tail) && ItemsOk(items) && items != [] && !EndsPlain(items)
    requires items[0].Plain? ==> Starts(bom, ItemsText(items) + tail)
    ensures Parse(lead + ((if bom then BOM else "") + (ItemsText(items) + tail)))
         == match Meant(items, 1, true, [])
            case Wrong(error) => Rejected(error)
            case Fine(ns) => Parsed(bom, ns)
  {
    hide SkipWhite, LevelAt, Blank, ItemsText, ItemsOk, Meant, Begins, Parse;
    var s := lead + ((if bom then BOM else "") + (ItemsText(items) + tail));
    if !items[0].Plain? { ItemsBegin(items, tail); }
    BlankEnd(s, tail);
    BodyRead(lead, bom, items, tail);
    var v := Meant(items, 1, true, []);
    if v.Fine? { StepEnd(s, |s| - |tail|, |s|, 1, true, v.nodes); }
  }

  /** A text without items is an error, unless something stands behind the byte order mark. */
  lemma NothingRead(lead: string, bom: bool, tail: string)
    requires Blank(lead) && Blank(tail)
    ensures Parse(lead + ((if bom then BOM else "") + tail)) == if bom && tail != "" then Parsed(true, []) else Rejected(ErrorEmpty)
  {
    hide SkipWhite, LevelAt, Blank, StartsWith;
    var mark := if bom then BOM else "";
    var s := lead + (mark + tail);
    Whole(s);
    Split(s, 0, lead, mark + tail);
    BlankEnd(s, tail);
    if bom {
      assert s[|lead|] == BOM[0];
      SkipOver(s, 0, lead, BOM[0]);
      Split(s, |lead|, mark, tail);
      StepEnd(s, |s| - |tail|, |s|, 1, true, []);
    } else {
      SkipBlank(s, 0, lead);
      NoMark(s);
    }
  }

  lemma NoMark(s: string)
    ensures !StartsWith(s, |s|, BOM)
  {
  }

  // --- Texts that end too early ---

  /** A text that breaks off: in a mark, in plain text, behind a start tag, or somewhere in an
      element; or goes on with something that is no tag: without a name (`slash` for an end tag),
      without an end behind name and attributes, or with a broken attribute.  Or white space,
      where an end tag should be. */
  datatype Cut =
    | NoEnd(lead: string, kind: Kind, raw: string)
    | NoTag(raw: string)
    | Bare(lead: string, tag: TagForm)
    | NoName(lead: string, gap: string, slash: bool, junk: string)
    | NoClose(lead: string, slash: bool, tag: TagForm, junk: string)
    | NoValue(lead: string, slash: bool, tag: TagForm, attr: BadAttr)
    | Within(lead: string, tag: TagForm, items: seq<Item>, cut: Cut)
    | Blanks(w: string)

  /** An attribute without its '=', without an opening quote, or without the closing one. */
  datatype BadAttr =
    | NoEquals(lead: string, name: string, before: string, junk: string)
    | NoQuote(lead: string, name: string, before: string, after: string, junk: string)
    | Unquoted(lead: string, name: string, before: string, after: string, quote: char, raw: string)

  function BadAttrText(a: BadAttr): string {
    match a
    case NoEquals(lead, name, before, junk) => lead + (name + (before + junk))
    case NoQuote(lead, name, before, after, junk) => lead + (name + (before + ("=" + (after + junk))))
    case Unquoted(lead, name, before, after, quote, raw) => lead + (name + (before + ("=" + (after + ([quote] + raw)))))
  }

  predicate BadAttrOk(a: BadAttr) {
    match a
    case NoEquals(lead, name, before, junk) =>
      && Blank(lead) && IsName(name) && Blank(before)
      && (junk != "" ==> junk[0] != '=' && !IsWhite(junk[0]) && (before == "" ==> !IsNameChar(junk[0])))
    case NoQuote(lead, name, before, after, junk) =>
      && Blank(lead) && IsName(name) && Blank(before) && Blank(after)
      && (junk != "" ==> junk[0] != '\"' && junk[0] != '\'' && !IsWhite(junk[0]))
    case Unquoted(lead, name, before, after, quote, raw) =>
      && Blank(lead) && IsName(name) && Blank(before) && Blank(after) && (quote == '\"' || quote == '\'') && quote !in raw
  }

  function Slash(slash: bool): string {
    if slash then "/" else ""
  }

  function CutText(c: Cut): string
    requires CutOk(c)
  {
    match c
    case NoName(lead, gap, slash, junk) => lead + ("<" + (gap + (Slash(slash) + junk)))
    case NoClose(lead, slash, tag, junk) =>
      lead + ("<" + (tag.gap + (Slash(slash) + (tag.name + (AttrFormsText(tag.attrs) + (tag.tail + junk))))))
    case NoValue(lead, slash, tag, attr) =>
      lead + ("<" + (tag.gap + (Slash(slash) + (tag.name + (AttrFormsText(tag.attrs) + BadAttrText(attr))))))
    case NoEnd(lead, kind, raw) => lead + (Header(kind) + raw)
    case NoTag(raw) => raw
    case Bare(lead, tag) => lead + ("<" + (tag.gap + TagText(tag, ">")))
    case Within(lead, tag, items, cut) => lead + ("<" + (tag.gap + TagText(tag, ">"))) + (ItemsText(items) + CutText(cut))
    case Blanks(w) => w
  }

  /** Behind plain text only markup is something new. */
  predicate AfterPlain(c: Cut) {
    match c
    case NoEnd(lead, _, _) => lead == ""
    case Bare(lead, _) => lead == ""
    case Within(lead, _, _, _) => lead == ""
    case NoName(lead, gap, slash, junk) => lead == "" && (gap != "" || slash || junk != "")
    case NoClose(lead, _, _, _) => lead == ""
    case NoValue(lead, _, _, _) => lead == ""
    case _ => false
  }

  predicate CutOk(c: Cut) {
    match c
    case NoEnd(lead, kind, raw) =>
      && Blank(lead) && LeafKind(kind) && Free(raw, Footer(kind))
      && (kind == IsUnknown ==> !StartsWith(raw, 0, "--") && !StartsWith(raw, 0, "[CDATA["))
    case NoTag(raw) => !Blank(raw) && '<' !in raw
    case Bare(lead, tag) => Blank(lead) && TagOk(tag)
    case NoName(lead, gap, slash, junk) =>
      && Blank(lead) && Blank(gap)
      && (junk != "" ==> !IsNameStart(junk[0]) && (!slash ==> !IsWhite(junk[0]) && junk[0] != '/' && junk[0] != '?' && junk[0] != '!'))
    case NoClose(lead, _, tag, junk) =>
      && Blank(lead) && TagOk(tag)
      && (junk != "" ==> !IsWhite(junk[0]) && !IsNameStart(junk[0]) && junk[0] != '>' && !StartsWith(junk, 0, "/>")
                         && (tag.attrs == [] && tag.tail == "" ==> !IsNameChar(junk[0])))
    case NoValue(lead, _, tag, attr) =>
      && Blank(lead) && TagOk(tag) && tag.tail == "" && BadAttrOk(attr) && (tag.attrs == [] ==> attr.lead != "")
    case Within(lead, tag, items, cut) =>
      && Blank(lead) && TagOk(tag) && ItemsOk(items) && CutOk(cut) && (EndsPlain(items) ==> AfterPlain(cut))
      && (items != [] || cut != Blanks(""))
    case Blanks(w) => Blank(w)
  }

  function NoEndError(kind: Kind): (e: Error)
    requires LeafKind(kind)
  {
    match kind
    case IsDeclaration => ErrorDeclaration
    case IsComment => ErrorComment
    case IsCData => ErrorCData
    case _ => ErrorUnknown
  }

  /** The error that a cut is. */
  function CutError(c: Cut, depth: nat): (e: Error)
    requires CutOk(c)
  {
    match c
    case NoEnd(_, kind, _) => NoEndError(kind)
    case NoTag(_) => ErrorText
    case Bare(_, tag) => if Distinct(AttrsOf(tag.attrs)) then ErrorMismatch else ErrorAttribute
    case NoName(_, _, _, _) => ErrorParsing
    case NoClose(_, _, tag, _) => if Distinct(AttrsOf(tag.attrs)) then ErrorElement else ErrorAttribute
    case NoValue(_, _, _, _) => ErrorAttribute
    case Within(_, tag, items, cut) =>
      if !Distinct(AttrsOf(tag.attrs)) then ErrorAttribute
      else if depth + 1 == MAX_ELEMENT_DEPTH then ErrorDepth
      else (match Meant(items, depth + 1, false, [])
            case Wrong(error) => error
            case Fine(_) => CutError(cut, depth + 1))
    case Blanks(_) => ErrorParsing
  }

  lemma NoEndRead(s: string, p: nat, lead: string, kind: Kind, raw: string, depth: nat, top: bool, kids: seq<Node>)
    requires CutOk(NoEnd(lead, kind, raw)) && StartsWith(s, p, lead + (Header(kind) + raw)) && p + |lead + (Header(kind) + raw)| == |s|
    ensures LevelAt(s, p, depth, top, kids) == Failed(CutError(NoEnd(lead, kind, raw), depth))
  {
    hide SkipWhite, LevelAt, LeafAt, Identify, Free, Blank, StartsWith, Header, Footer;
    var b := p + |lead|;
    Split(s, p, lead, Header(kind) + raw);
    Split(s, b, Header(kind), raw);
    KindFacts(kind);
    CharAt(s, b, Header(kind));
    SkipOver(s, p, lead, '<');
    CutIdentified(s, p, kind, raw);
    NeverEnds(s, b + |Header(kind)|, kind, raw);
    StepLeaf(s, p, b + |Header(kind)|, kind, depth, top, kids);
  }

  lemma CutIdentified(s: string, p: nat, kind: Kind, raw: string)
    requires p <= |s| && LeafKind(kind) && StartsWith(s, SkipWhite(s, p), Header(kind))
    requires StartsWith(s, SkipWhite(s, p) + |Header(kind)|, raw) && SkipWhite(s, p) + |Header(kind)| + |raw| == |s|
    requires kind == IsUnknown ==> !StartsWith(raw, 0, "--") && !StartsWith(raw, 0, "[CDATA[")
    ensures Identify(s, p) == (kind, SkipWhite(s, p) + |Header(kind)|)
  {
    hide SkipWhite, StartsWith;
    var b := SkipWhite(s, p);
    HeaderBytes(s, b, Header(kind));
    HeaderBytes(s, b, "<?");
    HeaderBytes(s, b, "<!--");
    if kind == IsUnknown {
      assert "<!" + "--" == "<!--" && "<!" + "[CDATA[" == "<![CDATA[";
      RestStarts(s, b, raw, "--");
      RestStarts(s, b, raw, "[CDATA[");
    }
  }

  lemma RestStarts(s: string, b: nat, raw: string, h: string)
    requires StartsWith(s, b + 2, raw) && b + 2 + |raw| == |s|
    ensures StartsWith(s, b, "<!" + h) ==> StartsWith(raw, 0, h)
  {
    if StartsWith(s, b, "<!" + h) {
      Split(s, b, "<!", h);
      assert raw == s[b + 2..];
      assert s[b + 2..][0..|h|] == s[b + 2..b + 2 + |h|];
    }
  }

  lemma NeverEnds(s: string, q: nat, kind: Kind, raw: string)
    requires LeafKind(kind) && StartsWith(s, q, raw) && q + |raw| == |s| && Free(raw, Footer(kind))
    ensures LeafAt(s, q, kind) == NoLeaf(NoEndError(kind))
  {
    KindFacts(kind);
    FindShift(s, Footer(kind), q, 0);
    assert s[q..] == raw;
  }

  lemma {:induction false} FindShift(s: string, tag: string, p: nat, i: nat)
    requires p + i <= |s| && tag != ""
    ensures FindTag(s, tag, p + i) == p + FindTag(s[p..], tag, i)
    decreases |s| - p - i
  {
    assert StartsWith(s, p + i, tag) <==> StartsWith(s[p..], i, tag) by {
      if p + i + |tag| <= |s| { assert s[p..][i..i + |tag|] == s[p + i..p + i + |tag|]; }
    }
    if p + i < |s| && !StartsWith(s, p + i, tag) { FindShift(s, tag, p, i + 1); }
  }

  lemma NoTagRead(s: string, p: nat, raw: string, depth: nat, top: bool, kids: seq<Node>)
    requires CutOk(NoTag(raw)) && StartsWith(s, p, raw) && p + |raw| == |s|
    ensures LevelAt(s, p, depth, top, kids) == Failed(ErrorText)
  {
    hide LevelAt, Identify, FindTag, SkipWhite;
    CharAt(s, p, raw);
    var i :| 0 <= i < |raw| && !IsWhite(raw[i]);
    assert s[p + i] == raw[i];
    var b := SkipWhite(s, p);
    assert s[b] == raw[b - p];
    XmlForms.NoTag(s, p);
    forall k | p <= k < |s| ensures !StartsWith(s, k, "<") {
      assert s[k] == raw[k - p];
      assert s[k..k + 1][0] == s[k];
    }
    assert FindTag(s, "<", p) == |s|;
    StepText(s, p, depth, top, kids);
  }

  lemma BareRead(s: string, p: nat, lead: string, tag: TagForm, depth: nat, top: bool, kids: seq<Node>)
    requires CutOk(Bare(lead, tag)) && StartsWith(s, p, CutText(Bare(lead, tag))) && p + |CutText(Bare(lead, tag))| == |s|
    ensures LevelAt(s, p, depth, top, kids) == Failed(CutError(Bare(lead, tag), depth))
  {
    hide SkipWhite, LevelAt, TagAt, Identify, TagText, TagOk, Blank, Distinct, StartsWith, AttrsOf;
    TagTextStarts(tag, ">");
    NameBegins(tag);
    TagStands(s, p, lead, tag.gap, TagText(tag, ">"));
    var q := p + |lead| + 1;
    BareTagAt(s, q, tag, depth);
    StepTag(s, p, q, depth, top, kids);
  }

  lemma BareTagAt(s: string, q: nat, t: TagForm, depth: nat)
    requires StartsWith(s, q, t.gap + TagText(t, ">")) && TagOk(t) && q + |t.gap + TagText(t, ">")| == |s|
    ensures TagAt(s, q, depth) == if Distinct(AttrsOf(t.attrs)) then Tag(t.name, AttrsOf(t.attrs), [], false, "", |s|) else BadTag(ErrorAttribute)
  {
    hide SkipWhite, LevelAt, NameEnd, Attrs, TagText, TagOk, Blank, Distinct, StartsWith, TagOf;
    var n := q + |t.gap|;
    Split(s, q, t.gap, TagText(t, ">"));
    TagHead(s, n, t, ">");
    NameBegins(t);
    SkipOver(s, q, t.gap, t.name[0]);
  }

  /** The '<' of something that is no tag. */
  lemma OpensTag(s: string, p: nat, lead: string, gap: string, rest: string)
    requires StartsWith(s, p, lead + ("<" + (gap + rest))) && p + |lead + ("<" + (gap + rest))| == |s| && Blank(lead) && Blank(gap)
    requires rest != "" ==> !IsWhite(rest[0]) && rest[0] != '?' && rest[0] != '!'
    ensures var q := p + |lead| + 1;
      && q <= |s| && Identify(s, p) == (IsElement, q) && q + |gap| <= |s| && SkipWhite(s, q) == q + |gap|
      && StartsWith(s, q + |gap|, rest)
  {
    hide SkipWhite, StartsWith, Identify, Blank;
    var q := p + |lead| + 1;
    Split(s, p, lead, "<" + (gap + rest));
    HeadSplit(s, q - 1, "<", gap, rest);
    ThreeLengths(lead, gap, rest);
    CharAt(s, q - 1, "<");
    SkipOver(s, p, lead, '<');
    BlankThen(s, q, gap, rest);
    NotSpecial(s, q, gap, rest);
    OnlyTag(s, p);
  }

  lemma ThreeLengths(a: string, b: string, c: string)
    ensures |a + ("<" + (b + c))| == |a| + 1 + |b| + |c|
  {
  }

  /** White space, and then something else or the end of the text. */
  lemma BlankThen(s: string, q: nat, gap: string, rest: string)
    requires StartsWith(s, q, gap) && StartsWith(s, q + |gap|, rest) && q + |gap| + |rest| == |s| && Blank(gap)
    requires rest != "" ==> !IsWhite(rest[0])
    ensures SkipWhite(s, q) == q + |gap|
  {
    hide SkipWhite, StartsWith, Blank;
    CharAt(s, q + |gap|, rest);
    if rest == "" { BlankTo(s, q, gap); } else { SkipOver(s, q, gap, rest[0]); }
  }

  lemma BlankTo(s: string, q: nat, gap: string)
    requires StartsWith(s, q, gap) && Blank(gap) && q + |gap| == |s|
    ensures SkipWhite(s, q) == |s|
  {
    CharAt(s, q, gap);
    SkipTo(s, q, |s|);
  }

  lemma NotSpecial(s: string, q: nat, gap: string, rest: string)
    requires StartsWith(s, q, gap) && StartsWith(s, q + |gap|, rest) && q + |gap| + |rest| == |s| && Blank(gap)
    requires rest != "" ==> rest[0] != '?' && rest[0] != '!'
    ensures q < |s| ==> s[q] != '?' && s[q] != '!'
  {
    CharAt(s, q, gap);
    CharAt(s, q + |gap|, rest);
  }

  lemma OnlyTag(s: string, p: nat)
    requires p <= |s| && SkipWhite(s, p) < |s| && s[SkipWhite(s, p)] == '<'
    requires SkipWhite(s, p) + 1 < |s| ==> s[SkipWhite(s, p) + 1] != '?' && s[SkipWhite(s, p) + 1] != '!'
    ensures Identify(s, p) == (IsElement, SkipWhite(s, p) + 1)
  {
    hide SkipWhite, StartsWith;
    var b := SkipWhite(s, p);
    StartsTag(s, b);
    HeaderBytes(s, b, "<?");
    HeaderBytes(s, b, "<!--");
    HeaderBytes(s, b, "<![CDATA[");
    HeaderBytes(s, b, "<!");
  }

  lemma NoNameRead(s: string, p: nat, c: Cut, depth: nat, top: bool, kids: seq<Node>)
    requires c.NoName? && CutOk(c) && StartsWith(s, p, CutText(c)) && p + |CutText(c)| == |s|
    ensures LevelAt(s, p, depth, top, kids) == Failed(ErrorParsing)
  {
    hide SkipWhite, LevelAt, TagAt, Identify, Blank, StartsWith, NameRest;
    var rest := Slash(c.slash) + c.junk;
    assert rest != "" ==> rest[0] == if c.slash then '/' else c.junk[0];
    OpensTag(s, p, c.lead, c.gap, rest);
    var q := p + |c.lead| + 1;
    var g := q + |c.gap|;
    CharAt(s, g, rest);
    assert c.slash ==> rest[0] == '/' && rest[1..] == c.junk;
    Nameless(s, q, g, c.slash, depth);
    StepTag(s, p, q, depth, top, kids);
  }

  lemma Nameless(s: string, q: nat, g: nat, slash: bool, depth: nat)
    requires q <= g <= |s| && SkipWhite(s, q) == g && (slash <==> g < |s| && s[g] == '/')
    requires var n := if slash then g + 1 else g; n < |s| ==> !IsNameStart(s[n])
    ensures TagAt(s, q, depth) == BadTag(ErrorParsing)
  {
    hide SkipWhite, NameRest, LevelAt, Attrs;
  }

  /** A tag whose attributes cannot be read is an error; m is where they end. */
  lemma TagFails(s: string, p: nat, lead: string, slash: bool, t: TagForm, rest: string, m: nat, depth: nat, top: bool, kids: seq<Node>)
    requires StartsWith(s, p, lead + ("<" + (t.gap + (Slash(slash) + (t.name + (AttrFormsText(t.attrs) + rest))))))
    requires p + |lead + ("<" + (t.gap + (Slash(slash) + (t.name + (AttrFormsText(t.attrs) + rest)))))| == |s|
    requires Blank(lead) && TagOk(t) && (t.attrs == [] && rest != "" ==> !IsNameChar(rest[0])) && m + |rest| == |s|
    ensures StartsWith(s, m, rest)
    ensures Attrs(s, m, AttrsOf(t.attrs)).AttrError? ==>
      LevelAt(s, p, depth, top, kids) == Failed(if Distinct(AttrsOf(t.attrs)) then Attrs(s, m, AttrsOf(t.attrs)).error else ErrorAttribute)
  {
    hide SkipWhite, LevelAt, TagAt, Identify, Blank, StartsWith, NameEnd, Attrs, AttrsOf, Distinct, AttrFormsText, TagOk, Slash;
    var head := t.name + (AttrFormsText(t.attrs) + rest);
    NameBegins(t);
    SlashFirst(slash, t.name, AttrFormsText(t.attrs) + rest);
    OpensTag(s, p, lead, t.gap, Slash(slash) + head);
    var q := p + |lead| + 1;
    var g := q + |t.gap|;
    Lengths(lead, t.gap, Slash(slash), t.name, AttrFormsText(t.attrs), rest);
    Split(s, g, Slash(slash), head);
    HeadSplit(s, g + |Slash(slash)|, t.name, AttrFormsText(t.attrs), rest);
    InsideFails(s, q, g, slash, t, rest, m, depth);
    StepTag(s, p, q, depth, top, kids);
  }

  lemma Lengths(lead: string, gap: string, slash: string, name: string, attrs: string, rest: string)
    ensures |lead + ("<" + (gap + (slash + (name + (attrs + rest)))))| == |lead| + 1 + |gap| + |slash| + |name| + |attrs| + |rest|
  {
  }

  lemma SlashFirst(slash: bool, name: string, more: string)
    requires name != ""
    ensures var body := Slash(slash) + (name + more); body != "" && body[0] == if slash then '/' else name[0]
  {
  }

  lemma InsideFails(s: string, q: nat, g: nat, slash: bool, t: TagForm, rest: string, m: nat, depth: nat)
    requires q <= g <= |s| && SkipWhite(s, q) == g && TagOk(t) && StartsWith(s, g, Slash(slash))
    requires var n := g + |Slash(slash)|;
      && StartsWith(s, n, t.name) && StartsWith(s, n + |t.name|, AttrFormsText(t.attrs)) && StartsWith(s, m, rest)
      && m == n + |t.name| + |AttrFormsText(t.attrs)| && m + |rest| == |s|
    requires t.attrs == [] && rest != "" ==> !IsNameChar(rest[0])
    ensures Attrs(s, m, AttrsOf(t.attrs)).AttrError? ==>
      TagAt(s, q, depth) == BadTag(if Distinct(AttrsOf(t.attrs)) then Attrs(s, m, AttrsOf(t.attrs)).error else ErrorAttribute)
  {
    hide SkipWhite, LevelAt, TagAt, StartsWith, NameEnd, Attrs, AttrsOf, Distinct, AttrFormsText, TagOk, IsNameChar;
    var n := g + |Slash(slash)|;
    NameBegins(t);
    CharAt(s, g, Slash(slash));
    CharAt(s, n, t.name);
    CharAt(s, m, rest);
    HeadRead(s, n, t, m);
    HeadFails(s, q, g, slash, t, depth);
  }

  lemma HeadFails(s: string, q: nat, g: nat, slash: bool, t: TagForm, depth: nat)
    requires q <= g <= |s| && SkipWhite(s, q) == g && (slash <==> g < |s| && s[g] == '/')
    requires var n := if slash then g + 1 else g; n <= |s| && NameEnd(s, n) == n + |t.name| && t.name != ""
    ensures var n := if slash then g + 1 else g;
      Attrs(s, n + |t.name|, []).AttrError? ==> TagAt(s, q, depth) == BadTag(Attrs(s, n + |t.name|, []).error)
  {
    hide SkipWhite, NameEnd, LevelAt, Attrs;
  }

  lemma NoCloseRead(s: string, p: nat, c: Cut, depth: nat, top: bool, kids: seq<Node>)
    requires c.NoClose? && CutOk(c) && StartsWith(s, p, CutText(c)) && p + |CutText(c)| == |s|
    ensures LevelAt(s, p, depth, top, kids) == Failed(CutError(c, depth))
  {
    hide SkipWhite, LevelAt, Blank, StartsWith, Attrs, AttrsOf, Distinct, AttrFormsText, TagOk, IsNameChar, IsNameStart;
    var rest := c.tag.tail + c.junk;
    TailNoName(c.tag, c.junk);
    TagFails(s, p, c.lead, c.slash, c.tag, rest, |s| - |rest|, depth, top, kids);
    NoEndOfTag(s, |s| - |rest|, c.tag.tail, c.junk, AttrsOf(c.tag.attrs));
  }

  lemma TailNoName(t: TagForm, junk: string)
    requires TagOk(t) && (junk != "" && t.attrs == [] && t.tail == "" ==> !IsNameChar(junk[0]))
    ensures Blank(t.tail) && (t.attrs == [] && t.tail + junk != "" ==> !IsNameChar((t.tail + junk)[0]))
  {
    if t.tail != "" { assert (t.tail + junk)[0] == t.tail[0]; } else { assert t.tail + junk == junk; }
  }

  lemma NoEndOfTag(s: string, p: nat, tail: string, junk: string, acc: seq<Attr>)
    requires StartsWith(s, p, tail + junk) && p + |tail + junk| == |s| && Blank(tail)
    requires junk != "" ==> !IsWhite(junk[0]) && !IsNameStart(junk[0]) && junk[0] != '>' && !StartsWith(junk, 0, "/>")
    ensures Attrs(s, p, acc) == AttrError(ErrorElement)
  {
    hide SkipWhite, Blank, IsNameStart, AttrAt;
    Split(s, p, tail, junk);
    CharAt(s, p + |tail|, junk);
    if junk == "" { BlankTo(s, p, tail); } else {
      SkipOver(s, p, tail, junk[0]);
      assert |junk| > 1 ==> junk[0..2] == [junk[0], junk[1]];
    }
  }

  lemma NoValueRead(s: string, p: nat, c: Cut, depth: nat, top: bool, kids: seq<Node>)
    requires c.NoValue? && CutOk(c) && StartsWith(s, p, CutText(c)) && p + |CutText(c)| == |s|
    ensures LevelAt(s, p, depth, top, kids) == Failed(ErrorAttribute)
  {
    hide SkipWhite, LevelAt, Blank, StartsWith, Attrs, AttrsOf, Distinct, AttrFormsText, TagOk, IsNameChar, IsNameStart, BadAttrText, BadAttrOk;
    BadAttrLead(c.attr);
    TagFails(s, p, c.lead, c.slash, c.tag, BadAttrText(c.attr), |s| - |BadAttrText(c.attr)|, depth, top, kids);
    BadAttrRead(s, |s| - |BadAttrText(c.attr)|, c.attr, AttrsOf(c.tag.attrs));
  }

  lemma BadAttrLead(a: BadAttr)
    requires BadAttrOk(a)
    ensures a.lead != "" ==> BadAttrText(a)[0] == a.lead[0] && !IsNameChar(BadAttrText(a)[0])
  {
  }

  lemma BadAttrRead(s: string, p: nat, a: BadAttr, acc: seq<Attr>)
    requires BadAttrOk(a) && StartsWith(s, p, BadAttrText(a)) && p + |BadAttrText(a)| == |s|
    ensures Attrs(s, p, acc) == AttrError(ErrorAttribute)
  {
    hide SkipWhite, Blank, IsNameStart, AttrAt, StartsWith, IsName, IsNameChar, BadAttrText;
    var n := p + |a.lead|;
    BadAttrName(s, p, a);
    match a
    case NoEquals(_, _, _, _) => NoEqualsRead(s, p, a);
    case NoQuote(_, _, _, _, _) => NoQuoteRead(s, p, a);
    case Unquoted(_, _, _, _, _, _) => UnquotedRead(s, p, a);
  }

  lemma BadAttrName(s: string, p: nat, a: BadAttr)
    requires BadAttrOk(a) && StartsWith(s, p, BadAttrText(a)) && p + |BadAttrText(a)| == |s|
    ensures var n := p + |a.lead|; n < |s| && SkipWhite(s, p) == n && IsNameStart(s[n])
    ensures var n := p + |a.lead|; StartsWith(s, n, BadAttrText(a)[|a.lead|..])
  {
    hide SkipWhite, Blank, StartsWith, IsNameChar, IsNameStart, IsName, BadAttrText;
    BadAttrParts(a);
    var rest := BadAttrText(a)[|a.lead|..];
    Split(s, p, a.lead, rest);
    CharAt(s, p + |a.lead|, rest);
    FirstOfName(a.name);
    SkipOver(s, p, a.lead, a.name[0]);
  }

  lemma BadAttrParts(a: BadAttr)
    requires BadAttrOk(a)
    ensures |BadAttrText(a)| >= |a.lead| && BadAttrText(a) == a.lead + BadAttrText(a)[|a.lead|..]
    ensures IsName(a.name) && Blank(a.lead) && a.name != "" && BadAttrText(a)[|a.lead|..] != "" && BadAttrText(a)[|a.lead|..][0] == a.name[0]
  {
    hide Blank, IsNameChar, IsNameStart;
  }

  lemma NoEqualsRead(s: string, p: nat, a: BadAttr)
    requires a.NoEquals? && BadAttrOk(a) && StartsWith(s, p, BadAttrText(a)) && p + |BadAttrText(a)| == |s|
    requires p + |a.lead| < |s| && IsNameStart(s[p + |a.lead|])
    ensures AttrAt(s, p + |a.lead|) == NoAttr
  {
    hide SkipWhite, Blank, IsNameStart, AttrAt, StartsWith, IsName, IsNameChar;
    var n := p + |a.lead|;
    Split(s, p, a.lead, a.name + (a.before + a.junk));
    NameAndMore(s, n, a.name, a.before, a.junk);
    var q := n + |a.name| + |a.before|;
    CharAt(s, q, a.junk);
    NoEqualsAt(s, n, n + |a.name|, q);
  }

  /** A name, '=' and what stands where the opening quote should. */
  lemma UpToValue(s: string, n: nat, name: string, before: string, after: string, tail: string)
    requires StartsWith(s, n, name + (before + ("=" + (after + tail)))) && n + |name + (before + ("=" + (after + tail)))| == |s|
    requires IsName(name) && Blank(before) && Blank(after) && (tail != "" ==> !IsWhite(tail[0]))
    ensures var b := n + |name|; var q := b + |before|; var v := q + 1 + |after|;
      && NameEnd(s, n) == b && q < |s| && SkipWhite(s, b) == q && s[q] == '=' && SkipWhite(s, q + 1) == v
      && StartsWith(s, v, tail) && v + |tail| == |s|
  {
    hide SkipWhite, Blank, StartsWith, IsName, IsNameChar, IsNameStart, NameEnd;
    var rest := "=" + (after + tail);
    EqualsFirst(after, tail);
    assert |name + (before + rest)| == |name| + |before| + |rest|;
    NameAndMore(s, n, name, before, rest);
    ValueStarts(s, n + |name| + |before|, after, tail);
  }

  lemma EqualsFirst(after: string, tail: string)
    ensures var rest := "=" + (after + tail); rest != "" && rest[0] == '=' && |rest| == 1 + |after| + |tail|
    ensures !IsWhite('=') && !IsNameChar('=')
  {
  }

  lemma NoQuoteRead(s: string, p: nat, a: BadAttr)
    requires a.NoQuote? && BadAttrOk(a) && StartsWith(s, p, BadAttrText(a)) && p + |BadAttrText(a)| == |s|
    requires p + |a.lead| < |s| && IsNameStart(s[p + |a.lead|])
    ensures AttrAt(s, p + |a.lead|) == NoAttr
  {
    hide SkipWhite, Blank, IsNameStart, AttrAt, StartsWith, IsName, IsNameChar, NameEnd;
    var n, rest := p + |a.lead|, a.name + (a.before + ("=" + (a.after + a.junk)));
    assert |a.lead + rest| == |a.lead| + |rest|;
    Split(s, p, a.lead, rest);
    UpToValue(s, n, a.name, a.before, a.after, a.junk);
    var q := n + |a.name| + |a.before|;
    CharAt(s, q + 1 + |a.after|, a.junk);
    NoQuoteAt(s, n, n + |a.name|, q, q + 1 + |a.after|);
  }

  lemma UnquotedRead(s: string, p: nat, a: BadAttr)
    requires a.Unquoted? && BadAttrOk(a) && StartsWith(s, p, BadAttrText(a)) && p + |BadAttrText(a)| == |s|
    requires p + |a.lead| < |s| && IsNameStart(s[p + |a.lead|])
    ensures AttrAt(s, p + |a.lead|) == NoAttr
  {
    hide SkipWhite, Blank, IsNameStart, AttrAt, StartsWith, IsName, IsNameChar, NameEnd;
    var n, value := p + |a.lead|, [a.quote] + a.raw;
    var rest := a.name + (a.before + ("=" + (a.after + value)));
    assert |a.lead + rest| == |a.lead| + |rest|;
    Split(s, p, a.lead, rest);
    assert value[0] == a.quote;
    UpToValue(s, n, a.name, a.before, a.after, value);
    var q := n + |a.name| + |a.before|;
    CharAt(s, q + 1 + |a.after|, value);
    UnquotedAt(s, n, n + |a.name|, q, q + 1 + |a.after|, a.raw);
  }

  lemma NameAndMore(s: string, n: nat, name: string, before: string, rest: string)
    requires StartsWith(s, n, name + (before + rest)) && n + |name + (before + rest)| == |s| && IsName(name) && Blank(before)
    requires rest != "" ==> !IsWhite(rest[0]) && (before == "" ==> !IsNameChar(rest[0]))
    ensures var b := n + |name|; var q := b + |before|;
      && StartsWith(s, n, name) && NameEnd(s, n) == b && q <= |s| && SkipWhite(s, b) == q && StartsWith(s, q, rest)
  {
    hide SkipWhite, StartsWith, NameEnd, NameRest, IsNameStart, IsNameChar, Blank, IsName;
    var b := n + |name|;
    HeadSplit(s, n, name, before, rest);
    assert |name + (before + rest)| == |name| + |before| + |rest|;
    BlankThen(s, b, before, rest);
    NameLeft(s, b, before, rest);
    NameEndAt(s, n, name);
  }

  lemma NameLeft(s: string, b: nat, before: string, rest: string)
    requires StartsWith(s, b, before) && StartsWith(s, b + |before|, rest) && b + |before| + |rest| == |s| && Blank(before)
    requires rest != "" ==> (before == "" ==> !IsNameChar(rest[0]))
    ensures b < |s| ==> !IsNameChar(s[b])
  {
    hide StartsWith;
    CharAt(s, b, before);
    CharAt(s, b + |before|, rest);
  }

  lemma ValueStarts(s: string, q: nat, after: string, rest: string)
    requires StartsWith(s, q, "=" + (after + rest)) && q + |"=" + (after + rest)| == |s| && Blank(after)
    requires rest != "" ==> !IsWhite(rest[0])
    ensures q < |s| && s[q] == '=' && q + 1 + |after| <= |s| && SkipWhite(s, q + 1) == q + 1 + |after| && StartsWith(s, q + 1 + |after|, rest)
  {
    hide SkipWhite, StartsWith, Blank;
    HeadSplit(s, q, "=", after, rest);
    CharAt(s, q, "=");
    assert |"=" + (after + rest)| == 1 + |after| + |rest|;
    BlankThen(s, q + 1, after, rest);
  }

  lemma NoEqualsAt(s: string, n: nat, b: nat, q: nat)
    requires n < |s| && IsNameStart(s[n]) && NameEnd(s, n) == b <= |s| && SkipWhite(s, b) == q && (q < |s| ==> s[q] != '=')
    ensures AttrAt(s, n) == NoAttr
  {
    hide NameEnd, Value, FindTag;
  }

  lemma NoQuoteAt(s: string, n: nat, b: nat, q: nat, v: nat)
    requires n < |s| && IsNameStart(s[n]) && NameEnd(s, n) == b <= |s| && SkipWhite(s, b) == q < |s| && s[q] == '='
    requires SkipWhite(s, q + 1) == v && (v < |s| ==> s[v] != '\"' && s[v] != '\'')
    ensures AttrAt(s, n) == NoAttr
  {
    hide NameEnd, Value, FindTag, SkipWhite;
  }

  lemma UnquotedAt(s: string, n: nat, b: nat, q: nat, v: nat, raw: string)
    requires n < |s| && IsNameStart(s[n]) && NameEnd(s, n) == b <= |s| && SkipWhite(s, b) == q < |s| && s[q] == '='
    requires SkipWhite(s, q + 1) == v < |s| && StartsWith(s, v, [s[v]] + raw) && v + 1 + |raw| == |s| && s[v] !in raw
    ensures AttrAt(s, n) == NoAttr
  {
    hide NameEnd, Value, SkipWhite;
    Split(s, v, [s[v]], raw);
    CharAt(s, v + 1, raw);
    forall k | v + 1 <= k < |s| ensures !StartsWith(s, k, [s[v]]) {
      assert s[k] == raw[k - v - 1] && s[k..k + 1][0] == s[k];
    }
  }

  lemma BlanksRead(s: string, p: nat, w: string, depth: nat, top: bool, kids: seq<Node>)
    requires Blank(w) && StartsWith(s, p, w) && p + |w| == |s|
    ensures LevelAt(s, p, depth, top, kids) == Exhausted(kids)
  {
    hide LevelAt, Identify, SkipWhite;
    CharAt(s, p, w);
    SkipTo(s, p, |s|);
    AtEnd(s);
    StepEnd(s, p, |s|, depth, top, kids);
  }

  lemma AtEnd(s: string)
    ensures SkipWhite(s, |s|) == |s|
    ensures forall p: nat :: p <= |s| && SkipWhite(s, p) == |s| ==> Identify(s, p) == (NoNode, |s|)
  {
  }

  /** A cut is an error; white space alone ends the level. */
  lemma CutRead(s: string, p: nat, c: Cut, depth: nat, top: bool, kids: seq<Node>)
    requires CutOk(c) && StartsWith(s, p, CutText(c)) && p + |CutText(c)| == |s| && depth < MAX_ELEMENT_DEPTH
    ensures LevelAt(s, p, depth, top, kids) == if c.Blanks? then Exhausted(kids) else Failed(CutError(c, depth))
    decreases c
  {
    hide LevelAt, TagText, TagOk, Blank, StartsWith, Free, AttrsOf, Distinct, ItemsText, ItemsOk, Meant;
    match c
    case NoEnd(lead, kind, raw) => NoEndRead(s, p, lead, kind, raw, depth, top, kids);
    case NoTag(raw) => NoTagRead(s, p, raw, depth, top, kids);
    case Bare(lead, tag) => BareRead(s, p, lead, tag, depth, top, kids);
    case NoName(_, _, _, _) => NoNameRead(s, p, c, depth, top, kids);
    case NoClose(_, _, _, _) => NoCloseRead(s, p, c, depth, top, kids);
    case NoValue(_, _, _, _) => NoValueRead(s, p, c, depth, top, kids);
    case Within(_, _, _, _) => WithinRead(s, p, c, depth, top, kids);
    case Blanks(w) => BlanksRead(s, p, w, depth, top, kids);
  }

  lemma WithinRead(s: string, p: nat, c: Cut, depth: nat, top: bool, kids: seq<Node>)
    requires c.Within? && CutOk(c) && StartsWith(s, p, CutText(c)) && p + |CutText(c)| == |s| && depth < MAX_ELEMENT_DEPTH
    ensures LevelAt(s, p, depth, top, kids) == Failed(CutError(c, depth))
    decreases c, 0
  {
    hide SkipWhite, LevelAt, TagAt, Identify, TagText, TagOk, Blank, Distinct, StartsWith, AttrsOf, ItemsText, ItemsOk, Meant, Ends;
    var tag, inner := c.tag, ItemsText(c.items) + CutText(c.cut);
    var q, m := p + |c.lead| + 1, p + |c.lead| + 1 + |tag.gap + TagText(tag, ">")|;
    Split(s, p, c.lead + ("<" + (tag.gap + TagText(tag, ">"))), inner);
    Split(s, m, ItemsText(c.items), CutText(c.cut));
    TagTextStarts(tag, ">");
    NameBegins(tag);
    TagStands(s, p, c.lead, tag.gap, TagText(tag, ">"));
    SomethingInside(c);
    StartTagAt(s, q, tag, ">", depth);
    StepTag(s, p, q, depth, top, kids);
    if depth + 1 < MAX_ELEMENT_DEPTH {
      CutEnds(s, m + |ItemsText(c.items)|, c);
      NothingYet();
      ItemsRead(s, m, c.items, depth + 1, false, []);
      var v := Meant(c.items, depth + 1, false, []);
      if v.Fine? { CutRead(s, m + |ItemsText(c.items)|, c.cut, depth + 1, false, v.nodes); }
    }
  }

  lemma SomethingInside(c: Cut)
    requires c.Within? && CutOk(c)
    ensures ItemsText(c.items) + CutText(c.cut) != ""
  {
    hide Blank, TagText, Free, StartsWith;
    if c.items != [] { SomeItem(c.items[0]); }
    if !c.cut.Blanks? { SomeCut(c.cut); }
  }

  lemma SomeItem(i: Item)
    requires ItemOk(i)
    ensures ItemText(i) != ""
  {
    if i.Mark? { KindFacts(i.kind); }
  }

  lemma SomeCut(c: Cut)
    requires CutOk(c) && !c.Blanks?
    ensures CutText(c) != "" && (AfterPlain(c) ==> |CutText(c)| > 1 && CutText(c)[0] == '<')
  {
    hide Blank, Free, StartsWith, ItemsText;
    match c
    case NoEnd(_, kind, _) => KindFacts(kind);
    case Bare(_, tag) => TagTextStarts(tag, ">");
    case Within(_, tag, _, _) => TagTextStarts(tag, ">");
    case NoTag(_) => NoBlank();
    case NoClose(_, _, tag, _) => NameBegins(tag);
    case NoValue(_, _, tag, _) => NameBegins(tag);
    case _ =>
  }

  lemma CutEnds(s: string, e: nat, c: Cut)
    requires c.Within? && CutOk(c) && StartsWith(s, e, CutText(c.cut))
    ensures e <= |s| && Ends(s, e, EndsPlain(c.items))
  {
    hide Blank, StartsWith, CutText, ItemsText, TagOk;
    CharAt(s, e, CutText(c.cut));
    if EndsPlain(c.items) { SomeCut(c.cut); }
  }

  /** A document that is cut off: the first error in it, or the error that the cut is. */
  lemma CutDocument(lead: string, bom: bool, items: seq<Item>, c: Cut)
    requires Blank(lead) && ItemsOk(items) && CutOk(c) && !c.Blanks? && (EndsPlain(items) ==> AfterPlain(c))
    requires (if items == [] then c.NoTag? else items[0].Plain?) ==> Starts(bom, ItemsText(items) + CutText(c))
    ensures Parse(lead + ((if bom then BOM else "") + (ItemsText(items) + CutText(c))))
         == match Meant(items, 1, true, [])
            case Wrong(error) => Rejected(error)
            case Fine(_) => Rejected(CutError(c, 1))
  {
    hide SkipWhite, LevelAt, Blank, ItemsText, ItemsOk, Meant, Begins, Parse, CutText, CutOk, StartsWith;
    var s := lead + ((if bom then BOM else "") + (ItemsText(items) + CutText(c)));
    if items == [] && !c.NoTag? {
      CutBegins(c);
      assert ItemsText(items) + CutText(c) == CutText(c) by { NoItems(); }
    } else if items != [] && !items[0].Plain? {
      ItemsBegin(items, CutText(c));
    }
    SomeCut(c);
    TailStands(s, CutText(c));
    BodyRead(lead, bom, items, CutText(c));
    var v := Meant(items, 1, true, []);
    if v.Fine? { CutRead(s, |s| - |CutText(c)|, c, 1, true, v.nodes); }
  }

  lemma NoItems()
    ensures ItemsText([]) == ""
  {
  }

  lemma CutBegins(c: Cut)
    requires CutOk(c) && !c.NoTag? && !c.Blanks?
    ensures Begins(CutText(c), 0) && CutText(c) != ""
  {
    hide SkipWhite, StartsWith, Blank;
    var s := CutText(c);
    CutLead(c);
    assert s[0..|c.lead|] == c.lead;
    HasLead(s, c.lead);
    SkipOver(s, 0, c.lead, '<');
  }

  lemma HasLead(s: string, lead: string)
    requires |lead| <= |s| && s[0..|lead|] == lead
    ensures StartsWith(s, 0, lead)
  {
  }

  lemma CutLead(c: Cut)
    requires CutOk(c) && !c.NoTag? && !c.Blanks?
    ensures Blank(c.lead) && |CutText(c)| > |c.lead| && CutText(c)[..|c.lead|] == c.lead && CutText(c)[|c.lead|] == '<'
  {
    hide StartsWith, Blank, ItemsText, TagText, AttrFormsText, BadAttrText;
    if c.NoEnd? { KindFacts(c.kind); }
  }

  lemma TailStands(s: string, t: string)
    requires |t| <= |s| && s[|s| - |t|..] == t
    ensures StartsWith(s, |s| - |t|, t) && (t != "" ==> s[|s| - |t|] == t[0])
  {
    assert s[|s| - |t|..|s|] == s[|s| - |t|..];
    assert t != "" ==> s[|s| - |t|..][0] == t[0];
  }

  /** A stray end tag ends the document: what stands behind it is not read. */
  lemma StrayEnd(lead: string, bom: bool, items: seq<Item>, last: string, end: TagForm, junk: string)
    requires Blank(lead) && ItemsOk(items) && items != [] && Blank(last) && TagOk(end) && (EndsPlain(items) ==> last == "")
    requires items[0].Plain? ==> Starts(bom, ItemsText(items) + (last + ("<" + (end.gap + ("/" + TagText(end, ">")))) + junk))
    ensures Parse(lead + ((if bom then BOM else "") + (ItemsText(items) + (last + ("<" + (end.gap + ("/" + TagText(end, ">")))) + junk))))
         == match Meant(items, 1, true, [])
            case Wrong(error) => Rejected(error)
            case Fine(ns) => if Distinct(AttrsOf(end.attrs)) then Parsed(bom, ns) else Rejected(ErrorAttribute)
  {
    hide SkipWhite, LevelAt, Blank, ItemsText, ItemsOk, Meant, Begins, Parse, StartsWith, TagAt, Identify, TagText, TagOk, Distinct, AttrsOf;
    var tail := end.gap + ("/" + TagText(end, ">"));
    var rest := last + ("<" + tail) + junk;
    var s := lead + ((if bom then BOM else "") + (ItemsText(items) + rest));
    var e := |s| - |rest|;
    if !items[0].Plain? { ItemsBegin(items, rest); }
    TailStands(s, rest);
    Split(s, e, last + ("<" + tail), junk);
    NameBegins(end);
    TagStands(s, e, last, end.gap, "/" + TagText(end, ">"));
    BodyRead(lead, bom, items, rest);
    var v := Meant(items, 1, true, []);
    if v.Fine? {
      EndTagAt(s, e + |last| + 1, end, 1);
      StepTag(s, e, e + |last| + 1, 1, true, v.nodes);
    }
  }

  // --- Small documents ---

  /** A document of one tag: any white space, either quote, attributes in order; a repeated name
      is an error. */
  lemma SealedDocument(tag: TagForm, tail: string)
    requires TagOk(tag) && Blank(tail)
    ensures Parse("<" + (tag.gap + TagText(tag, "/>")) + tail)
         == if Distinct(AttrsOf(tag.attrs)) then Parsed(false, [Element(tag.name, AttrsOf(tag.attrs), [])])
            else Rejected(ErrorAttribute)
  {
    hide Parse, TagText, TagOk, Blank, Distinct, AttrsOf, Value;
    var i := Sealed("", tag);
    NoBlank();
    OneItem(i, tail);
    assert "" + ("<" + (tag.gap + TagText(tag, "/>"))) == "<" + (tag.gap + TagText(tag, "/>"));
    assert [] + [Element(tag.name, AttrsOf(tag.attrs), [])] == [Element(tag.name, AttrsOf(tag.attrs), [])];
  }

  lemma OneItem(i: Item, tail: string)
    requires ItemOk(i) && !i.Plain? && Blank(tail)
    ensures Parse(ItemText(i) + tail) == match MeantOne(i, 1, true, [])
                                        case Wrong(error) => Rejected(error)
                                        case Fine(ns) => Parsed(false, ns)
  {
    hide ItemOk, ItemText, MeantOne, Parse, Blank;
    assert [i][1..] == [];
    assert ItemsOk([i]) && Blank("") by { NoBlank(); }
    assert ItemsText([i]) == ItemText(i) + "" == ItemText(i);
    assert "" + ("" + (ItemText(i) + tail)) == ItemText(i) + tail;
    DocumentRead("", false, [i], tail);
  }

  lemma NoBlank()
    ensures Blank("")
  {
  }

  /** A start tag and an end tag: the element without children, as "/>" makes it, if the names are
      the same. */
  lemma PairDocument(tag: TagForm, last: string, end: TagForm, tail: string)
    requires TagOk(tag) && Blank(last) && TagOk(end) && Blank(tail)
    ensures Parse("<" + (tag.gap + TagText(tag, ">")) + (last + ("<" + (end.gap + ("/" + TagText(end, ">"))))) + tail)
         == if !Distinct(AttrsOf(tag.attrs)) || !Distinct(AttrsOf(end.attrs)) then Rejected(ErrorAttribute)
            else if end.name != tag.name then Rejected(ErrorMismatch)
            else Parse("<" + (tag.gap + TagText(tag, "/>")) + tail)
  {
    hide Parse, TagText, TagOk, Blank, Distinct, AttrsOf, Value;
    var i := Open("", tag, [], last, end);
    NoBlank();
    var none: seq<Item> := [];
    assert i.items == none && ItemsOk(none) && !EndsPlain(none) && Meant(none, 2, false, []) == Fine([]);
    OneItem(i, tail);
    SealedDocument(tag, tail);
    var a, b := tag.gap + TagText(tag, ">"), last + ("<" + (end.gap + ("/" + TagText(end, ">"))));
    Regrouped("", tag.gap, TagText(tag, ">"), "" + b);
    assert ItemText(i) == "<" + a + b;
    assert [] + [Element(tag.name, AttrsOf(tag.attrs), [])] == [Element(tag.name, AttrsOf(tag.attrs), [])];
  }

  /** One attribute, with either quote and white space anywhere. */
  lemma EitherQuote(a: string, w: string, name: string, w1: string, w2: string, quote: char, v: string)
    requires IsName(a) && Blank(w) && w != "" && IsName(name) && Blank(w1) && Blank(w2)
    requires (quote == '\"' || quote == '\'') && quote !in v && '&' !in v && Clean(v)
    ensures Parse("<" + a + w + name + w1 + "=" + w2 + [quote] + v + [quote] + "/>")
         == Parsed(false, [Element(a, [Attr(name, v)], [])])
  {
    hide Parse, IsName, Clean, Blank, Value;
    var f := AttrForm(w, name, w1, w2, quote, v);
    var tag := TagForm("", a, [f], "");
    NoBlank();
    SealedDocument(tag, "");
    PlainValue(v);
    assert [f][1..] == [] && AttrsOf([f]) == [Attr(name, v)];
    assert AttrFormsText([f]) == AttrFormText(f);
    FormSpelled(f);
    var t := AttrFormText(f);
    assert "<" + (tag.gap + TagText(tag, "/>")) + "" == "<" + a + t + "/>";
    assert "<" + a + t + "/>" == "<" + a + w + name + w1 + "=" + w2 + [quote] + v + [quote] + "/>";
  }

  lemma FormSpelled(f: AttrForm)
    ensures AttrFormText(f) == f.lead + f.name + f.before + "=" + f.after + [f.quote] + f.raw + [f.quote]
  {
  }

  // --- Deep documents ---

  /** n elements, each within the one before. */
  function Nest(n: nat): (i: Item)
    requires n > 0
    ensures (i.Open? ==> Legible(i.items)) && !i.Mark? && !i.Plain?
  {
    var a := TagForm("", "a", [], "");
    if n == 1 then Sealed("", a) else Open("", a, [Nest(n - 1)], "", a)
  }

  function NestNode(n: nat): Node
    requires n > 0
  {
    Element("a", [], if n == 1 then [] else [NestNode(n - 1)])
  }

  lemma MeansOne(i: Item, depth: nat, top: bool, kids: seq<Node>)
    requires (i.Mark? ==> LeafKind(i.kind)) && (i.Open? ==> Legible(i.items))
    ensures Meant([i], depth, top, kids) == MeantOne(i, depth, top, kids)
  {
    hide MeantOne;
    assert [i][1..] == [];
  }

  lemma {:induction false} NestMeans(n: nat, depth: nat, top: bool)
    requires n > 0 && 0 < depth < 100
    ensures ItemOk(Nest(n))
    ensures MeantOne(Nest(n), depth, top, []) == if depth + n <= 100 then Fine([NestNode(n)]) else Wrong(ErrorDepth)
  {
    if n > 1 {
      var i := Nest(n - 1);
      assert [i][1..] == [] && ItemsOk([]);
      if depth < 99 {
        NestMeans(n - 1, depth + 1, false);
        MeansOne(i, depth + 1, false, []);
        assert [] + [Element("a", [], [NestNode(n - 1)])] == [NestNode(n)];
      } else {
        NestMeans(n - 1, 1, false);
      }
    }
  }

  /** 99 elements may be nested, a hundred may not. */
  lemma NestedDocument(n: nat)
    requires n > 0
    ensures Parse(ItemText(Nest(n))) == if n < 100 then Parsed(false, [NestNode(n)]) else Rejected(ErrorDepth)
  {
    hide Parse, ItemText, ItemOk, MeantOne, Nest, NestNode;
    NestMeans(n, 1, true);
    NoBlank();
    OneItem(Nest(n), "");
    assert ItemText(Nest(n)) + "" == ItemText(Nest(n));
  }
}
