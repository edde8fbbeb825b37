/** What decoding undoes: the escaping of XMLPrinter::PrintString, numeric character
    references (XML 1.0 section 4.1) and the named entities (section 4.6). */
module XmlEscape {
  import opened XmlText

  // --- Numeric references ---

  lemma {:induction false} ScaledZero(base: nat, ds: string, mult: nat)
    requires DigitsIn(base, ds) && base > 0 && Number(base, ds) == 0
    ensures Scaled(base, ds, mult) == 0
  {
    if ds != "" {
      var n := |ds| - 1;
      assert Number(base, ds[..n]) * base >= Number(base, ds[..n]);
      ScaledZero(base, ds[..n], mult * base % UINT);
    }
  }

  /** The 32-bit multiplier is harmless while the number fits 32 bits, leading zeros included. */
  lemma {:induction false} ScaledExact(base: nat, ds: string, mult: nat)
    requires DigitsIn(base, ds) && base > 0 && mult < UINT && Number(base, ds) * mult < UINT
    ensures Scaled(base, ds, mult) == Number(base, ds) * mult
  {
    hide Scaled, Number, DigitValue;
    if ds == "" {
      NoDigits(base, mult);
    } else {
      var n := |ds| - 1;
      var a, d, wide := Number(base, ds[..n]), DigitValue(ds[n]), mult * base;
      Unfold(base, ds, mult, wide % UINT);
      ScaledParts(Number(base, ds), a, base, d, mult, wide);
      if wide < UINT {
        ScaledExact(base, ds[..n], wide);
      } else {
        ScaledZero(base, ds[..n], wide % UINT);
      }
    }
  }

  lemma NoDigits(base: nat, mult: nat)
    ensures Scaled(base, "", mult) == 0 && Number(base, "") * mult == 0
  {
  }

  lemma Unfold(base: nat, ds: string, mult: nat, next: nat)
    requires DigitsIn(base, ds) && ds != "" && next == mult * base % UINT
    ensures Number(base, ds) == Number(base, ds[..|ds| - 1]) * base + DigitValue(ds[|ds| - 1])
    ensures Scaled(base, ds, mult) == mult * DigitValue(ds[|ds| - 1]) % UINT + Scaled(base, ds[..|ds| - 1], next)
  {
    hide DigitValue;
  }

  lemma ScaledParts(n: nat, a: nat, base: nat, d: nat, mult: nat, wide: nat)
    requires base > 0 && n == a * base + d && wide == mult * base && n * mult < UINT
    ensures n * mult == mult * d % UINT + (if wide < UINT then a * wide else 0)
    ensures a * wide < UINT && (wide >= UINT ==> a == 0)
  {
    calc {
      n * mult;
      (a * base + d) * mult;
      { Distribute(a * base, d, mult); }
      a * base * mult + d * mult;
      { Reorder(a, base, mult); }
      a * wide + d * mult;
    }
    AtLeast(a, wide);
    Small(mult * d);
  }

  lemma Distribute(a: nat, d: nat, mult: nat)
    ensures (a + d) * mult == a * mult + d * mult
  {
  }

  lemma Reorder(a: nat, base: nat, mult: nat)
    ensures a * base * mult == a * (mult * base)
  {
  }

  lemma AtLeast(a: nat, w: nat)
    ensures a > 0 ==> a * w >= w
    ensures a == 0 ==> a * w == 0
  {
  }

  lemma Small(x: nat)
    ensures x < UINT ==> x % UINT == x
  {
  }

  function Spelled(base: nat, ds: string): string {
    (if base == 16 then "&#x" else "&#") + ds + ";"
  }

  /** Where the digits of a reference stand. */
  lemma SpelledAt(base: nat, ds: string, rest: string)
    requires (base == 10 || base == 16) && DigitsIn(base, ds)
    ensures var r, lo := Spelled(base, ds) + rest, if base == 16 then 2 else 1; var semi := lo + 1 + |ds|;
      && semi < |r| && |Spelled(base, ds)| == semi + 1 && r[0] == '&' && r[1] == '#' && (r[2] == 'x' <==> base == 16)
      && r[lo] == (if base == 16 then 'x' else '#') && r[semi] == ';'
      && (forall i :: lo + 1 <= i < semi ==> r[i] == ds[i - lo - 1])
  {
    hide DigitsIn;
    var head := if base == 16 then "&#x" else "&#";
    var r := Spelled(base, ds) + rest;
    assert forall i :: 0 <= i < |ds| ==> Spelled(base, ds)[|head| + i] == ds[i];
    if base == 10 && ds != "" { assert DigitIn(10, ds[0]) by { FirstDigit(ds); } }
  }

  lemma FirstDigit(ds: string)
    requires DigitsIn(10, ds) && ds != ""
    ensures DigitIn(10, ds[0])
  {
  }

  /** "&#n;" and "&#xn;" stand for the UTF-8 bytes of n, and those bytes decode to n. */
  lemma NumericReference(base: nat, ds: string, rest: string)
    requires (base == 10 || base == 16) && DigitsIn(base, ds) && Number(base, ds) < 0x20_0000
    ensures var r := Spelled(base, ds) + rest;
      && CharacterRef(r) == Reference(|Spelled(base, ds)|, Utf8(Number(base, ds)))
      && Utf8Code(Utf8(Number(base, ds))) == Number(base, ds)
  {
    hide Utf8, Utf8Code, Scaled, Number, DigitValue, Spelled;
    var r := Spelled(base, ds) + rest;
    var lo := if base == 16 then 2 else 1;
    var semi := lo + 1 + |ds|;
    SpelledAt(base, ds, rest);
    DigitsOnly(base, ds);
    FindUnique(r, ';', lo + 1, semi);
    var x := FindLast(r, r[lo], semi);
    assert x == lo;
    assert r[lo + 1..semi] == ds;
    ScaledExact(base, ds, 1);
    Utf8Sound(Number(base, ds));
  }

  lemma DigitsOnly(base: nat, ds: string)
    requires DigitsIn(base, ds)
    ensures forall i :: 0 <= i < |ds| ==> ds[i] != ';' && ds[i] != 'x' && ds[i] != '#'
  {
    forall i | 0 <= i < |ds| ensures ds[i] != ';' && ds[i] != 'x' && ds[i] != '#' { assert DigitIn(base, ds[i]); }
  }

  /** "&#" that starts no reference is read as it is; at the very end of the text the '&' is lost. */
  lemma NoReferenceRead(newlines: bool, rest: string)
    requires ';' !in rest
    ensures Decoded(true, newlines, "&#" + rest) == Emit(1, if rest == "" then "" else "&")
  {
    var r := "&#" + rest;
    if rest != "" {
      var lo := if r[2] == 'x' then 2 else 1;
      assert forall i :: 2 <= i < |r| ==> r[i] == rest[i - 2];
      FindUnique(r, ';', lo + 1, |r|);
    }
  }

  // --- Escaping ---

  /** The flags of the printer: text escapes fewer characters than attribute values. */
  predicate Flagged(restricted: bool, c: char) {
    c == '&' || c == '<' || c == '>' || (!restricted && (c == '\"' || c == '\''))
  }

  function EntityOf(c: char): (k: nat)
    requires Flagged(false, c)
    ensures k < 5 && ENTITIES[k].value == c
  {
    if c == '\"' then 0 else if c == '&' then 1 else if c == '\'' then 2 else if c == '<' then 3 else 4
  }

  function EscapeChar(restricted: bool, c: char): (r: string)
    ensures |r| >= 1
  {
    if Flagged(restricted, c) then "&" + ENTITIES[EntityOf(c)].pattern + ";" else [c]
  }

  function Escape(restricted: bool, s: string): string {
    if s == "" then "" else EscapeChar(restricted, s[0]) + Escape(restricted, s[1..])
  }

  /** An entity reference decodes to its character whatever follows. */
  lemma EntityDecodes(newlines: bool, c: char, rest: string)
    requires Flagged(false, c)
    ensures var e := EscapeChar(false, c); Decoded(true, newlines, e + rest) == Emit(|e|, [c])
  {
    var k := EntityOf(c);
    var r := (EscapeChar(false, c) + rest)[1..];
    assert r[..|ENTITIES[k].pattern| + 1] == ENTITIES[k].pattern + ";";
    EntityUnique(r, k);
  }

  lemma EntityUnique(r: string, k: nat)
    requires k < 5 && StartsWith(r, 0, ENTITIES[k].pattern + ";")
    ensures EntityAt(r, 0) == k
  {
    var j := EntityAt(r, 0);
    assert StartsWith(r, 0, ENTITIES[j].pattern + ";");
    var a, b := ENTITIES[j].pattern + ";", ENTITIES[k].pattern + ";";
    assert r[..|a|] == a && r[..|b|] == b;
    assert r[0] == a[0] == b[0] && r[1] == a[1] == b[1];
  }

  lemma EscapedHead(restricted: bool, s: string)
    requires s != ""
    ensures Escape(restricted, s) != ""
    ensures Escape(restricted, s)[0] == if Flagged(restricted, s[0]) then '&' else s[0]
  {
  }

  lemma {:induction false} EscapeSplit(restricted: bool, s: string, n: nat)
    requires n <= |s| && forall i :: 0 <= i < n ==> !Flagged(restricted, s[i])
    ensures Escape(restricted, s) == s[..n] + Escape(restricted, s[n..])
  {
    hide EscapeChar, Flagged, Escape;
    if n > 0 {
      var t := s[1..];
      assert forall i :: 0 <= i < n - 1 ==> t[i] == s[i + 1];
      EscapeSplit(restricted, t, n - 1);
      PlainEscape(restricted, s[0]);
      EscapeHead(restricted, s);
      Cons(s, n, Escape(restricted, t), Escape(restricted, s[n..]));
    } else {
      assert s[0..] == s;
    }
  }

  lemma Cons(s: string, n: nat, e: string, r: string)
    requires 0 < n <= |s|
    ensures s[1..][n - 1..] == s[n..]
    ensures e == s[1..][..n - 1] + r ==> [s[0]] + e == s[..n] + r
  {
    assert [s[0]] + s[1..][..n - 1] == s[..n];
    assert [s[0]] + (s[1..][..n - 1] + r) == ([s[0]] + s[1..][..n - 1]) + r;
  }

  lemma PlainEscape(restricted: bool, c: char)
    requires !Flagged(restricted, c)
    ensures EscapeChar(restricted, c) == [c]
  {
  }

  lemma EscapeHead(restricted: bool, s: string)
    requires s != ""
    ensures Escape(restricted, s) == EscapeChar(restricted, s[0]) + Escape(restricted, s[1..])
  {
    hide EscapeChar;
  }

  /** Decoding an escaped string gives what newline normalization alone gives. */
  lemma {:induction false} EscapeDecodes(restricted: bool, s: string)
    ensures Decode(true, true, Escape(restricted, s)) == Decode(false, true, s)
  {
    if s != "" {
      var e := Escape(restricted, s);
      EscapedHead(restricted, s);
      if Flagged(restricted, s[0]) {
        EntityDecodes(true, s[0], Escape(restricted, s[1..]));
        var n := |EscapeChar(false, s[0])|;
        assert e[n..] == Escape(restricted, s[1..]);
        EscapeDecodes(restricted, s[1..]);
        assert Decoded(false, true, s) == Emit(1, [s[0]]);
      } else {
        if |s| > 1 { EscapedHead(restricted, s[1..]); }
        var d := Decoded(false, true, s);
        EscapeSplit(restricted, s, d.consumed);
        assert e[d.consumed..] == Escape(restricted, s[d.consumed..]);
        assert Decoded(true, true, e) == d;
        EscapeDecodes(restricted, s[d.consumed..]);
      }
    }
  }

  /** Newline normalization keeps exactly the strings without a carriage return. */
  lemma {:induction false} Normalized(s: string)
    ensures CR !in Decode(false, true, s)
    ensures Decode(false, true, s) == s <==> CR !in s
  {
    hide Decoded, Decode;
    if s == "" {
      DecodeEmpty(false, true);
    } else {
      NormalizedHead(s);
      var n := Decoded(false, true, s).consumed;
      assert s[0..] == s;
      DecodeStep(false, true, s, 0);
      Normalized(s[n..]);
      assert CR !in s ==> CR !in s[1..] && s == [s[0]] + s[1..];
    }
  }

  lemma NormalizedHead(s: string)
    requires s != ""
    ensures var d := Decoded(false, true, s);
      && d.Emit? && |d.bytes| == 1 && d.bytes[0] != CR
      && (CR !in s ==> d == Emit(1, [s[0]]))
  {
  }

  /** Every ampersand of s starts a numeric reference or one of the five entities. */
  ghost predicate AmpersandsOk(s: string) {
    forall i :: 0 <= i < |s| && s[i] == '&' ==> AmpersandOk(s[i + 1..])
  }

  predicate AmpersandOk(r: string) {
    (r != "" && r[0] == '#') || EntityAt(r, 0) < 5
  }

  lemma {:induction false} NoStrays(entities: bool, newlines: bool, s: string, p: nat, q: nat)
    requires AmpersandsOk(s) && q <= p <= |s|
    ensures StraysKept(entities, newlines, s, p, q)
    decreases |s| - p
  {
    hide CharacterRef;
    if p < |s| {
      var d := Decoded(entities, newlines, s[p..]);
      assert s[p..][1..] == s[p + 1..];
      if s[p] == '&' { assert AmpersandOk(s[p + 1..]); }
      NoStrays(entities, newlines, s, p + d.consumed, q + |d.bytes|);
    }
  }

  /** The only ampersand of an escaped character is its first byte, and starts its entity. */
  lemma FirstAmpersand(restricted: bool, s: string, i: nat)
    requires s != "" && i < |EscapeChar(restricted, s[0])| && EscapeChar(restricted, s[0])[i] == '&'
    ensures i == 0 && AmpersandOk(Escape(restricted, s)[1..])
  {
    hide EntityAt, Escape, EscapeChar, AmpersandOk;
    OnlyFirst(restricted, s[0], i);
    var k := EntityOf(s[0]);
    var pattern, t := ENTITIES[k].pattern, Escape(restricted, s[1..]);
    EscapeFlagged(restricted, s, k);
    var r := Escape(restricted, s)[1..];
    assert r == pattern + ";" + t;
    assert r[..|pattern| + 1] == pattern + ";";
    EntityUnique(r, k);
    EntityOk(r);
  }

  lemma OnlyFirst(restricted: bool, c: char, i: nat)
    requires i < |EscapeChar(restricted, c)| && EscapeChar(restricted, c)[i] == '&'
    ensures i == 0 && Flagged(restricted, c) && Flagged(false, c)
  {
  }

  lemma EscapeFlagged(restricted: bool, s: string, k: nat)
    requires s != "" && Flagged(restricted, s[0]) && Flagged(false, s[0]) && k == EntityOf(s[0])
    ensures Escape(restricted, s) == "&" + (ENTITIES[k].pattern + ";" + Escape(restricted, s[1..]))
  {
    hide ENTITIES, Flagged, EntityOf;
  }

  lemma EntityOk(r: string)
    requires EntityAt(r, 0) < 5
    ensures AmpersandOk(r)
  {
    hide EntityAt;
  }

  lemma {:induction false} EscapeAmpersands(restricted: bool, s: string)
    ensures AmpersandsOk(Escape(restricted, s))
  {
    hide EscapeChar, AmpersandOk;
    if s != "" {
      var e, h, t := Escape(restricted, s), EscapeChar(restricted, s[0]), Escape(restricted, s[1..]);
      EscapeAmpersands(restricted, s[1..]);
      forall i | 0 <= i < |e| && e[i] == '&' ensures AmpersandOk(e[i + 1..]) {
        if i >= |h| {
          assert t[i - |h|] == '&' && t[i - |h| + 1..] == e[i + 1..];
        } else {
          FirstAmpersand(restricted, s, i);
        }
      }
    }
  }

  /** Reading back what the printer wrote: GetStr's buffer is the string again exactly when
      the string has no carriage return. */
  lemma EscapeRoundTrip(restricted: bool, s: string)
    ensures InPlace(true, true, Escape(restricted, s), 0, "") == Decode(false, true, s)
    ensures InPlace(true, true, Escape(restricted, s), 0, "") == s <==> CR !in s
  {
    var e := Escape(restricted, s);
    EscapeAmpersands(restricted, s);
    NoStrays(true, true, e, 0, 0);
    InPlaceDecodes(true, true, e, 0, "");
    assert e[0..] == e;
    EscapeDecodes(restricted, s);
    Normalized(s);
  }

  /** A carriage return is written as it is and read as a line feed. */
  lemma CarriageReturnLost()
    ensures InPlace(true, true, Escape(false, "a\rb"), 0, "") == "a\nb"
  {
    EscapeRoundTrip(false, "a\rb");
    assert "a\rb"[1..] == "\rb" && "\rb"[1..] == "b" && "b"[1..] == "";
  }

  /** For text that only uses references, the buffer equals the pure decoder's output. */
  lemma DecodesInPlace(entities: bool, newlines: bool, s: string)
    requires AmpersandsOk(s)
    ensures InPlace(entities, newlines, s, 0, "") == Decode(entities, newlines, s)
  {
    NoStrays(entities, newlines, s, 0, 0);
    InPlaceDecodes(entities, newlines, s, 0, "");
    assert s[0..] == s;
  }

  /** Escaped text has no angle brackets, and in attribute values no quotes. */
  lemma {:induction false} EscapeFree(restricted: bool, s: string, c: char)
    requires c == '<' || c == '>' || (!restricted && (c == '\"' || c == '\'')) || c == NUL
    requires c == NUL ==> NoNul(s)
    ensures c !in Escape(restricted, s)
  {
    if s != "" {
      assert c == NUL ==> s[0] != NUL;
      EscapeFree(restricted, s[1..], c);
      CharFree(restricted, s[0], c);
      hide EscapeChar;
    }
  }

  lemma CharFree(restricted: bool, d: char, c: char)
    requires c == '<' || c == '>' || (!restricted && (c == '\"' || c == '\'')) || (c == NUL && d != NUL)
    ensures c !in EscapeChar(restricted, d)
  {
  }

  /** What is written for one character: the named entity of the five special ones, and any other
      character as it is. In text the two quotes are not special. */
  function Written(restricted: bool, c: char): string {
    match c
    case '&' => "&amp;"
    case '<' => "&lt;"
    case '>' => "&gt;"
    case '\"' => if restricted then "\"" else "&quot;"
    case '\'' => if restricted then "\'" else "&apos;"
    case _ => [c]
  }

  lemma WrittenChar(restricted: bool, c: char)
    ensures EscapeChar(restricted, c) == Written(restricted, c)
  {
  }

  lemma {:induction false} EscapeConcat(restricted: bool, a: string, b: string)
    ensures Escape(restricted, a + b) == Escape(restricted, a) + Escape(restricted, b)
  {
    hide EscapeChar;
    if a == "" {
      assert a + b == b;
    } else {
      assert (a + b)[1..] == a[1..] + b;
      EscapeConcat(restricted, a[1..], b);
    }
  }

  /** Escaping works character by character, in order. */
  lemma EscapeEach(restricted: bool, a: string, c: char, b: string)
    ensures Escape(restricted, "") == ""
    ensures Escape(restricted, a + [c] + b) == Escape(restricted, a) + Written(restricted, c) + Escape(restricted, b)
  {
    EscapeConcat(restricted, a + [c], b);
    EscapeConcat(restricted, a, [c]);
    WrittenChar(restricted, c);
    assert [c][1..] == "";
    hide EscapeChar, Written;
    assert Escape(restricted, [c]) == Written(restricted, c);
  }

  /** A concrete text on which the code does not keep a stray ampersand: "&lt;&x" is read as "<lx". */
  lemma StrayAmpersandLost()
    ensures InPlace(true, true, "&lt;&x", 0, "") == "<lx"
    ensures Decode(true, true, "&lt;&x") == "<&x"
  {
    var s := "&lt;&x";
    EntityDecodes(true, '<', "&x");
    assert s[0..] == s && s == EscapeChar(false, '<') + "&x";
    assert s[4..] == "&x" && EntityAt("x", 0) == 5;
    assert "&x"[1..] == "x" && "&x"[1..][1..] == "";
    assert s[5..] == "x";
    assert s[1] == 'l';
    assert "<" + ['l'] == "<l" && "<l" + ['x'] == "<lx";
  }
}
