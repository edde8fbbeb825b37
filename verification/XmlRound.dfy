/** Parsing what the printer wrote gives the tree back. */
module XmlRound {
  import opened XmlText
  import opened XmlEscape
  import opened XmlDoc
  import opened XmlLayout

  // --- Where a text stands ---

  lemma Split(s: string, p: nat, a: string, b: string)
    requires StartsWith(s, p, a + b)
    ensures StartsWith(s, p, a) && StartsWith(s, p + |a|, b)
  {
    assert s[p..p + |a|] == (a + b)[..|a|];
    assert s[p + |a|..p + |a| + |b|] == (a + b)[|a|..];
  }

  lemma CharAt(s: string, p: nat, a: string)
    requires StartsWith(s, p, a)
    ensures p + |a| <= |s| && forall i :: p <= i < p + |a| ==> s[i] == a[i - p]
  {
    assert forall i :: p <= i < p + |a| ==> s[i] == s[p..p + |a|][i - p];
  }

  // --- Scanning ---

  lemma SkipTo(s: string, p: nat, q: nat)
    requires p <= q <= |s| && forall i :: p <= i < q ==> IsWhite(s[i])
    ensures SkipWhite(s, p) == SkipWhite(s, q)
    decreases q - p
  {
    if p < q { SkipTo(s, p + 1, q); }
  }

  lemma SkipBlank(s: string, p: nat, w: string)
    requires StartsWith(s, p, w) && Blank(w)
    ensures SkipWhite(s, p) == SkipWhite(s, p + |w|)
  {
    CharAt(s, p, w);
    SkipTo(s, p, p + |w|);
  }

  lemma NameEndAt(s: string, p: nat, name: string)
    requires StartsWith(s, p, name) && IsName(name)
    requires p + |name| < |s| ==> !IsNameChar(s[p + |name|])
    ensures NameEnd(s, p) == p + |name| && s[p..p + |name|] == name
  {
    CharAt(s, p, name);
    assert forall i :: p <= i < p + |name| ==> IsNameChar(s[i]);
  }

  lemma FindTagAt(s: string, tag: string, p: nat, z: nat)
    requires tag != "" && p <= z && StartsWith(s, z, tag)
    requires forall i :: p <= i < z ==> !StartsWith(s, i, tag)
    ensures FindTag(s, tag, p) == z
  {
  }

  lemma FindCharAt(s: string, c: char, p: nat, v: string)
    requires StartsWith(s, p, v) && c !in v
    requires p + |v| < |s| && s[p + |v|] == c
    ensures FindTag(s, [c], p) == p + |v|
  {
    CharAt(s, p, v);
    var z := p + |v|;
    assert s[z..z + 1] == [c];
    forall i | p <= i < z ensures !StartsWith(s, i, [c]) {
      assert s[i] == v[i - p];
      assert s[i..i + 1][0] == s[i];
    }
    FindTagAt(s, [c], p, z);
  }

  predicate Closer(tag: string) {
    tag == "?>" || tag == "-->" || tag == "]]>" || tag == ">"
  }

  lemma Apart(s: string, i: nat, z: nat, tag: string)
    requires Closer(tag) && StartsWith(s, i, tag) && StartsWith(s, z, tag) && i < z
    ensures i + |tag| <= z
  {
    CharAt(s, i, tag);
    CharAt(s, z, tag);
    assert s[i + |tag| - 1] == '>';
  }

  /** A text free of the closing tag is read up to the closing tag: the two cannot overlap. */
  lemma FindCloser(s: string, p: nat, v: string, tag: string)
    requires Closer(tag) && StartsWith(s, p, v + tag) && Free(v, tag)
    ensures FindTag(s, tag, p) == p + |v|
  {
    Split(s, p, v, tag);
    CharAt(s, p, v + tag);
    var z, n := p + |v|, |tag|;
    forall i | p <= i < z && StartsWith(s, i, tag) ensures StartsWith(v, i - p, tag) {
      Apart(s, i, z, tag);
      assert v[i - p..i - p + n] == s[i..i + n];
    }
    FindTagAt(s, tag, p, z);
  }

  // --- Values ---

  lemma UpToNulAll(s: string)
    requires NUL !in s
    ensures UpToNul(s) == s
  {
    assert s[..|s|] == s;
    UpToNulUnique(s, |s|);
  }

  lemma ValueOf(restricted: bool, v: string)
    requires Clean(v)
    ensures Value(Escape(restricted, v)) == v
  {
    EscapeRoundTrip(restricted, v);
    UpToNulAll(v);
  }

  /** Values and texts get single line feeds for their line ends; so do comments and the like,
      whose ampersands mean nothing. */
  lemma LinesValue(lines: seq<string>, ends: seq<string>)
    requires LinesOk(false, lines, ends) && NoNul(Joined(lines, ends))
    ensures RawValue(Joined(lines, ends)) == Unified(lines)
    ensures LinesOk(true, lines, ends) ==> Value(Joined(lines, ends)) == Unified(lines)
  {
    LinesText(false, lines, ends, Joined(lines, ends));
    if LinesOk(true, lines, ends) { LinesText(true, lines, ends, Joined(lines, ends)); }
  }

  /** A clean value without references is read as it is. */
  lemma PlainValue(v: string)
    requires Clean(v) && '&' !in v
    ensures Value(v) == v
  {
    assert v[..0] == "";
    PlainFrom(v, 0);
    UpToNulAll(v);
  }

  lemma {:induction false} PlainFrom(v: string, p: nat)
    requires CR !in v && '&' !in v && p <= |v|
    ensures InPlace(true, true, v, p, v[..p]) == v
    decreases |v| - p
  {
    if p < |v| {
      assert v[p] in v && (p + 1 < |v| ==> v[p + 1] in v);
      assert Decoded(true, true, v[p..]) == Emit(1, [v[p]]);
      assert v[..p] + [v[p]] == v[..p + 1];
      PlainFrom(v, p + 1);
    }
  }

  lemma RawValueOf(v: string)
    requires Clean(v)
    ensures RawValue(v) == v
  {
    Normalized(v);
    InPlaceRaw(v, 0, "");
    assert v[0..] == v;
    UpToNulAll(v);
  }

  /** Without entity processing there are no strays. */
  lemma {:induction false} InPlaceRaw(s: string, p: nat, out: string)
    requires |out| <= p <= |s|
    ensures InPlace(false, true, s, p, out) == out + Decode(false, true, s[p..])
    decreases |s| - p
  {
    hide InPlace, Decode, Decoded;
    if p < |s| {
      InPlaceStep(false, true, s, p, out);
      DecodeStep(false, true, s, p);
      NormalizedHead(s[p..]);
      var d := Decoded(false, true, s[p..]);
      InPlaceRaw(s, p + d.consumed, out + d.bytes);
    } else {
      assert s[p..] == "";
      DecodeEmpty(false, true);
      InPlaceEnd(false, true, s, out);
    }
  }

  lemma {:induction false} EscapeSpaces(t: string, w: string)
    requires forall i :: 0 <= i < |w| ==> w[i] == ' '
    ensures Escape(true, t) + w == Escape(true, t + w)
  {
    if t == "" {
      assert t + w == w && w[|w|..] == "" && w[..|w|] == w;
      EscapeSplit(true, w, |w|);
    } else {
      assert (t + w)[1..] == t[1..] + w;
      EscapeSpaces(t[1..], w);
    }
  }

  lemma {:induction false} EscapeNotBlank(t: string)
    requires !Blank(t)
    ensures !Blank(Escape(true, t))
  {
    var e, h, r := Escape(true, t), EscapeChar(true, t[0]), Escape(true, t[1..]);
    assert e == h + r && e[0] == h[0];
    if IsWhite(t[0]) {
      var i :| 0 <= i < |t| && !IsWhite(t[i]);
      assert t[1..][i - 1] == t[i];
      EscapeNotBlank(t[1..]);
      var j :| 0 <= j < |r| && !IsWhite(r[j]);
      assert e[|h| + j] == r[j];
    }
  }

  lemma Slice(s: string, p: nat, a: string)
    requires StartsWith(s, p, a)
    ensures p + |a| <= |s| && s[p..p + |a|] == a
  {
  }

  lemma SkipNone(s: string, p: nat)
    requires p < |s| && !IsWhite(s[p])
    ensures SkipWhite(s, p) == p
  {
  }
}
