/** In-place text decoding of TinyXML-2: StrPair::GetStr, XMLUtil::GetCharacterRef and
    XMLUtil::ConvertUTF32ToUTF8.  A byte is a `char` below 256, a C string is the
    bytes before the first NUL. */
module XmlText {
  const NUL: char := '\0'
  const LF: char := '\n'
  const CR: char := '\r'
  const UINT: nat := 0x1_0000_0000
  const ULONG: nat := 0x1_0000_0000_0000_0000

  datatype Entity = Entity(pattern: string, value: char)

  const ENTITIES: seq<Entity> := [
    Entity("quot", '\"'), Entity("amp", '&'), Entity("apos", '\''), Entity("lt", '<'), Entity("gt", '>')
  ]

  // --- C strings ---

  predicate StartsWith(s: string, i: nat, pat: string) {
    i + |pat| <= |s| && s[i..i + |pat|] == pat
  }

  ghost predicate NoNul(s: string) {
    forall i :: 0 <= i < |s| ==> s[i] != NUL
  }

  /** The C string stored at the front of s. */
  function UpToNul(s: string): (r: string)
    ensures |r| <= |s| && r == s[..|r|] && (|r| < |s| ==> s[|r|] == NUL) && NoNul(r)
  {
    if s == "" || s[0] == NUL then "" else
      var r := UpToNul(s[1..]);
      assert s[..1 + |r|] == [s[0]] + s[1..][..|r|];
      [s[0]] + r
  }

  /** The first index of c at or after i, or |s|. */
  function Find(s: string, c: char, i: nat): (j: nat)
    requires i <= |s|
    ensures i <= j <= |s| && (j < |s| ==> s[j] == c)
    ensures forall k :: i <= k < j ==> s[k] != c
    decreases |s| - i
  {
    if i == |s| || s[i] == c then i else Find(s, c, i + 1)
  }

  /** The last index of c before i, where one exists. */
  function FindLast(s: string, c: char, i: nat): (j: nat)
    requires i <= |s| && exists k :: 0 <= k < i && s[k] == c
    ensures j < i && s[j] == c && forall k :: j < k < i ==> s[k] != c
  {
    if s[i - 1] == c then i - 1 else FindLast(s, c, i - 1)
  }

  lemma FindUnique(s: string, c: char, i: nat, j: nat)
    requires i <= j <= |s| && (j < |s| ==> s[j] == c)
    requires forall k :: i <= k < j ==> s[k] != c
    ensures Find(s, c, i) == j
  {
    var f := Find(s, c, i);
  }

  // --- Numeric character references ---

  predicate IsDigit(c: char) {
    '0' <= c <= '9'
  }

  predicate IsHexDigit(c: char) {
    IsDigit(c) || 'a' <= c <= 'f' || 'A' <= c <= 'F'
  }

  function DigitValue(c: char): (d: nat)
    requires IsHexDigit(c)
    ensures d < 16 && (IsDigit(c) ==> d < 10)
  {
    if IsDigit(c) then c as int - '0' as int
    else if 'a' <= c <= 'f' then c as int - 'a' as int + 10
    else c as int - 'A' as int + 10
  }

  predicate DigitIn(base: nat, c: char) {
    if base == 16 then IsHexDigit(c) else IsDigit(c)
  }

  predicate DigitsIn(base: nat, ds: string) {
    forall i :: 0 <= i < |ds| ==> DigitIn(base, ds[i])
  }

  /** What the scan from the last digit adds up: 32-bit products, a 32-bit multiplier. */
  function Scaled(base: nat, ds: string, mult: nat): nat
    requires DigitsIn(base, ds)
  {
    if ds == "" then 0 else
      var n := |ds| - 1;
      mult * DigitValue(ds[n]) % UINT + Scaled(base, ds[..n], mult * base % UINT)
  }

  /** The number a digit string denotes. */
  function Number(base: nat, ds: string): nat
    requires DigitsIn(base, ds)
  {
    if ds == "" then 0 else Number(base, ds[..|ds| - 1]) * base + DigitValue(ds[|ds| - 1])
  }

  function Byte(x: nat): (c: char)
    ensures x < 256 ==> c as int == x
  {
    (x % 256) as char
  }

  /** ((x | 0x80) & 0xBF) as a byte. */
  function Tail(x: nat): (c: char)
    ensures c as int == 0x80 + x % 64
  {
    Byte(0x80 + x % 64)
  }

  /** The UTF-8 encoding of a code; nothing for a code past 21 bits. */
  function Utf8(x: nat): (r: string)
    ensures |r| <= 4 && (x < 0x80 ==> |r| == 1) && (|r| == 0 <==> x >= 0x20_0000)
  {
    if x < 0x80 then [Byte(x)]
    else if x < 0x800 then [Byte(0xC0 + x / 64), Tail(x)]
    else if x < 0x1_0000 then [Byte(0xE0 + x / 64 / 64), Tail(x / 64), Tail(x)]
    else if x < 0x20_0000 then [Byte(0xF0 + x / 64 / 64 / 64), Tail(x / 64 / 64), Tail(x / 64), Tail(x)]
    else ""
  }

  /** The reference decoder of UTF-8: the code of the sequence at the front of s. */
  function Utf8Code(s: string): int {
    if s == "" then -1 else
    var b := s[0] as int;
    if b < 0x80 then b
    else if 0xC0 <= b < 0xE0 && |s| >= 2 then Append(b - 0xC0, s[1])
    else if 0xE0 <= b < 0xF0 && |s| >= 3 then Append(Append(b - 0xE0, s[1]), s[2])
    else if 0xF0 <= b < 0xF8 && |s| >= 4 then Append(Append(Append(b - 0xF0, s[1]), s[2]), s[3])
    else -1
  }

  function Append(x: int, c: char): int {
    x * 64 + (c as int - 0x80)
  }

  lemma Appended(x: nat)
    ensures Append(x / 64, Tail(x)) == x
  {
  }

  lemma Utf8Sound(x: nat)
    requires x < 0x20_0000
    ensures Utf8Code(Utf8(x)) == x
    ensures forall i :: 1 <= i < |Utf8(x)| ==> 0x80 <= Utf8(x)[i] as int < 0xC0
  {
    hide Append;
    Appended(x);
    if x >= 0x800 {
      Appended(x / 64);
      if x >= 0x1_0000 {
        Appended(x / 64 / 64);
      }
    }
  }

  function Shift(x: nat, k: nat): nat {
    if k == 0 then x else Shift(x, k - 1) / 64
  }

  /** XMLUtil::ConvertUTF32ToUTF8: the bytes are written from the last one back. */
  method ConvertUTF32ToUTF8(input: nat, output: array<char>) returns (length: nat)
    requires output.Length >= 4
    modifies output
    ensures length == |Utf8(input)| && output[..length] == Utf8(input)
    ensures length == if input < 0x80 then 1 else if input < 0x800 then 2 else if input < 0x1_0000 then 3
                      else if input < 0x20_0000 then 4 else 0
    ensures output[length..] == old(output[length..])
  {
    hide Byte;
    var x := input;
    length := if x < 0x80 then 1 else if x < 0x800 then 2 else if x < 0x1_0000 then 3
              else if x < 0x20_0000 then 4 else 0;
    if length == 0 {
      return;
    }
    var at := length;
    while at > 1
      invariant 1 <= at <= length
      invariant x == Shift(input, length - at)
      invariant forall i :: at <= i < length ==> output[i] == Tail(Shift(input, length - 1 - i))
      invariant forall i :: length <= i < output.Length ==> output[i] == old(output[i])
    {
      at := at - 1;
      output[at] := Tail(x);
      x := x / 64;
    }
    output[0] := Byte((if length == 1 then 0 else if length == 2 then 0xC0 else if length == 3 then 0xE0 else 0xF0) + x);
    assert output[length..] == old(output[length..]);
    assert Shift(input, 1) == input / 64 && Shift(input, 2) == input / 64 / 64;
    assert Shift(input, 3) == input / 64 / 64 / 64;
    assert output[..length] == Utf8(input);
  }

  datatype Reference = NoReference | Reference(consumed: nat, bytes: string)

  /** What a reference "&#..." at the front of r means to the parser. */
  function CharacterRef(r: string): (c: Reference)
    requires |r| >= 2 && r[0] == '&' && r[1] == '#'
    ensures c.Reference? ==> 1 <= c.consumed <= |r| && |c.bytes| <= c.consumed && |c.bytes| <= 4
  {
    if |r| == 2 then Reference(1, "")
    else
      var lo := if r[2] == 'x' then 2 else 1;
      var base := if lo == 2 then 16 else 10;
      var semi := Find(r, ';', lo + 1);
      if semi == |r| then NoReference else
        var x := FindLast(r, r[lo], semi);
        if DigitsIn(base, r[x + 1..semi]) then Reference(semi + 1, Utf8(Scaled(base, r[x + 1..semi], 1) % ULONG))
        else NoReference
  }

  lemma FindShift(s: string, c: char, p: nat, i: nat)
    requires p + i <= |s|
    ensures Find(s, c, p + i) == p + Find(s[p..], c, i)
  {
    var j := Find(s[p..], c, i);
    forall k | p + i <= k < p + j ensures s[k] != c {
      assert s[k] == s[p..][k - p];
    }
    FindUnique(s, c, p + i, p + j);
  }

  function MultAfter(base: nat, k: nat, mult: nat): nat {
    if k == 0 then mult else MultAfter(base, k - 1, mult * base % UINT)
  }

  lemma {:induction false} MultNext(base: nat, k: nat, mult: nat)
    ensures MultAfter(base, k + 1, mult) == MultAfter(base, k, mult) * base % UINT
  {
    if k > 0 {
      MultNext(base, k - 1, mult * base % UINT);
    }
  }

  lemma {:induction false} ScaledCons(base: nat, c: char, ds: string, mult: nat)
    requires DigitsIn(base, ds) && DigitIn(base, c)
    ensures DigitsIn(base, [c] + ds)
    ensures Scaled(base, [c] + ds, mult)
         == Scaled(base, ds, mult) + MultAfter(base, |ds|, mult) * DigitValue(c) % UINT
  {
    var n := |ds|;
    if n > 0 {
      assert ([c] + ds)[..n] == [c] + ds[..n - 1];
      ScaledCons(base, c, ds[..n - 1], mult * base % UINT);
    }
  }

  lemma ScanStart(base: nat, s: string, semi: nat)
    requires semi <= |s|
    ensures DigitsIn(base, s[semi..semi]) && Scaled(base, s[semi..semi], 1) % ULONG == 0 && MultAfter(base, 0, 1) == 1
  {
  }

  lemma ScanNext(base: nat, s: string, q: nat, semi: nat, ucs: nat)
    requires q < semi <= |s| && DigitIn(base, s[q]) && (base == 10 || base == 16)
    requires DigitsIn(base, s[q + 1..semi]) && ucs == Scaled(base, s[q + 1..semi], 1) % ULONG
    ensures DigitsIn(base, s[q..semi])
    ensures var mult := MultAfter(base, semi - 1 - q, 1);
      && (ucs + mult * DigitValue(s[q]) % UINT) % ULONG == Scaled(base, s[q..semi], 1) % ULONG
      && mult * base % UINT == MultAfter(base, semi - q, 1)
  {
    hide Scaled, MultAfter, DigitValue, DigitsIn;
    assert s[q..semi] == [s[q]] + s[q + 1..semi];
    ScaledCons(base, s[q], s[q + 1..semi], 1);
    MultNext(base, semi - 1 - q, 1);
    ModAdd(Scaled(base, s[q + 1..semi], 1), MultAfter(base, semi - 1 - q, 1) * DigitValue(s[q]) % UINT);
  }

  lemma ModAdd(a: nat, b: nat)
    ensures (a % ULONG + b) % ULONG == (a + b) % ULONG
  {
  }

  /** The scan of GetCharacterRef from the character before the semicolon back to the
      marker 'x' or '#'.  Fails on anything that is not a digit of the base. */
  method ScanBack(s: string, lo: nat, semi: nat, marker: char, base: nat) returns (ok: bool, ucs: nat)
    requires lo < semi <= |s| && s[lo] == marker && (marker == 'x' || marker == '#')
    requires base == 10 || base == 16
    ensures var x := FindLast(s, marker, semi);
      && (ok <==> DigitsIn(base, s[x + 1..semi]))
      && (ok ==> ucs == Scaled(base, s[x + 1..semi], 1) % ULONG)
  {
    hide Scaled, MultAfter, DigitValue;
    var q, mult := semi - 1, 1;
    ucs := 0;
    ghost var x := FindLast(s, marker, semi);
    ScanStart(base, s, semi);
    while s[q] != marker
      invariant x <= q < semi
      invariant DigitsIn(base, s[q + 1..semi]) && ucs == Scaled(base, s[q + 1..semi], 1) % ULONG
      invariant mult == MultAfter(base, semi - 1 - q, 1)
      decreases q
    {
      if !DigitIn(base, s[q]) {
        assert s[x + 1..semi][q - x - 1] == s[q];
        return false, 0;
      }
      ScanNext(base, s, q, semi, ucs);
      ucs := (ucs + mult * DigitValue(s[q]) % UINT) % ULONG;
      mult := mult * base % UINT;
      q := q - 1;
    }
    ok := true;
  }

  lemma NotNul(r: string)
    requires NoNul(r)
    ensures (|r| > 2 ==> r[2] != NUL) && (|r| > 3 ==> r[3] != NUL)
  {
  }

  /** XMLUtil::GetCharacterRef on the C string s[p..end]; `adjusted` is -1 for null. */
  method GetCharacterRef(s: string, p: nat, end: nat, value: array<char>) returns (adjusted: int, length: nat)
    requires p + 2 <= end < |s| && s[end] == NUL && s[p] == '&' && s[p + 1] == '#' && NoNul(s[p..end])
    requires value.Length >= 4
    modifies value
    ensures var c := CharacterRef(s[p..end]);
      if c.NoReference? then adjusted == -1
      else adjusted == p + c.consumed && length == |c.bytes| <= 4 && value[..length] == c.bytes
  {
    hide Scaled, Utf8, DigitsIn, NoNul;
    ghost var r := s[p..end];
    NotNul(r);
    assert forall k :: 0 <= k < |r| ==> r[k] == s[p + k];
    length := 0;
    assert p + 2 < end ==> s[p + 2] == r[2];
    if s[p + 2] == NUL {
      return p + 1, 0;
    }
    var hex := s[p + 2] == 'x';
    var q := if hex then p + 3 else p + 2;
    assert q < end ==> s[q] == r[q - p];
    if s[q] == NUL {
      return -1, 0;
    }
    var text := s[..end];
    assert text[p..] == r;
    FindShift(text, ';', p, q - p);
    var semi := Find(text, ';', q);
    if semi == end {
      return -1, 0;
    }
    var ok, ucs := ScanBack(s[p..end], q - 1 - p, semi - p, if hex then 'x' else '#', if hex then 16 else 10);
    if !ok {
      return -1, 0;
    }
    length := ConvertUTF32ToUTF8(ucs, value);
    adjusted := semi + 1;
  }

  // --- The decoder ---

  datatype Step = Emit(consumed: nat, bytes: string) | Stray

  /** The named entity at the front of r, the text after an ampersand. */
  function EntityAt(r: string, i: nat): (k: nat)
    requires i <= 5
    ensures i <= k <= 5
    ensures k < 5 ==> StartsWith(r, 0, ENTITIES[k].pattern + ";")
    ensures forall j :: i <= j < k ==> !StartsWith(r, 0, ENTITIES[j].pattern + ";")
    decreases 5 - i
  {
    if i == 5 || StartsWith(r, 0, ENTITIES[i].pattern + ";") then i else EntityAt(r, i + 1)
  }

  /** One round of the loop of GetStr on the unread text r: what is read and what is
      written, or a stray ampersand, over which both pointers move without a write. */
  function Decoded(entities: bool, newlines: bool, r: string): (d: Step)
    requires r != ""
    ensures d.Emit? ==> 1 <= d.consumed <= |r| && |d.bytes| <= d.consumed
  {
    if newlines && r[0] == CR then Emit(if |r| > 1 && r[1] == LF then 2 else 1, [LF])
    else if newlines && r[0] == LF then Emit(if |r| > 1 && r[1] == CR then 2 else 1, [LF])
    else if entities && r[0] == '&' then
      if |r| > 1 && r[1] == '#' then
        match CharacterRef(r)
        case NoReference => Emit(1, "&")
        case Reference(n, b) => Emit(n, b)
      else
        var k := EntityAt(r[1..], 0);
        if k < 5 then Emit(|ENTITIES[k].pattern| + 2, [ENTITIES[k].value]) else Stray
    else Emit(1, [r[0]])
  }

  /** The buffer GetStr leaves: `out` has been written over the front of the text s and
      s[p..] is unread.  A stray ampersand leaves the byte that was there. */
  function InPlace(entities: bool, newlines: bool, s: string, p: nat, out: string): (r: string)
    requires |out| <= p <= |s|
    ensures out <= r && |r| <= |s|
    decreases |s| - p
  {
    if p == |s| then out else
      match Decoded(entities, newlines, s[p..])
      case Emit(n, b) => InPlace(entities, newlines, s, p + n, out + b)
      case Stray => InPlace(entities, newlines, s, p + 1, out + [s[|out|]])
  }

  /** The decoder a reader expects, which keeps an ampersand that starts no reference. */
  function Decode(entities: bool, newlines: bool, s: string): (r: string)
    ensures |r| <= |s|
  {
    if s == "" then "" else
      match Decoded(entities, newlines, s)
      case Emit(n, b) => b + Decode(entities, newlines, s[n..])
      case Stray => "&" + Decode(entities, newlines, s[1..])
  }

  /** Every stray ampersand met from s[p..], with q bytes written, lands on an ampersand. */
  predicate StraysKept(entities: bool, newlines: bool, s: string, p: nat, q: nat)
    requires q <= p <= |s|
    decreases |s| - p
  {
    p == |s| ||
    match Decoded(entities, newlines, s[p..])
    case Emit(n, b) => StraysKept(entities, newlines, s, p + n, q + |b|)
    case Stray => s[q] == '&' && StraysKept(entities, newlines, s, p + 1, q + 1)
  }

  /** The in-place result is the decoder's exactly when every stray ampersand meets an
      ampersand at the write pointer. */
  lemma {:induction false} InPlaceDecodes(entities: bool, newlines: bool, s: string, p: nat, out: string)
    requires |out| <= p <= |s|
    ensures InPlace(entities, newlines, s, p, out) == out + Decode(entities, newlines, s[p..])
       <==> StraysKept(entities, newlines, s, p, |out|)
    decreases |s| - p
  {
    hide Decoded, Decode, StraysKept, InPlace;
    if p < |s| {
      var d := Decoded(entities, newlines, s[p..]);
      var n := if d.Emit? then d.consumed else 1;
      var b := if d.Emit? then d.bytes else [s[|out|]];
      var e := if d.Emit? then d.bytes else "&";
      InPlaceDecodes(entities, newlines, s, p + n, out + b);
      DecodeStep(entities, newlines, s, p);
      StraysStep(entities, newlines, s, p, |out|);
      InPlaceStep(entities, newlines, s, p, out);
      Cancel(out, b, e, Decode(entities, newlines, s[p + n..]), InPlace(entities, newlines, s, p, out));
    } else {
      assert s[p..] == "";
      DecodeEmpty(entities, newlines);
      StraysEnd(entities, newlines, s, |out|);
      InPlaceEnd(entities, newlines, s, out);
    }
  }

  /** r starts with out + b; it is out + e + rest only if b is e. */
  lemma Cancel(out: string, b: string, e: string, rest: string, r: string)
    requires out + b <= r && (b == e || (|b| == |e| == 1 && b[0] != e[0]))
    ensures r == out + (e + rest) <==> b == e && r == out + b + rest
  {
    assert out + (e + rest) == out + e + rest;
    if b != e {
      assert r[|out|] == b[0] && (out + e + rest)[|out|] == e[0];
    }
  }

  lemma InPlaceEnd(entities: bool, newlines: bool, s: string, out: string)
    requires |out| <= |s|
    ensures InPlace(entities, newlines, s, |s|, out) == out
  {
  }

  lemma InPlaceStep(entities: bool, newlines: bool, s: string, p: nat, out: string)
    requires |out| <= p < |s|
    ensures var d := Decoded(entities, newlines, s[p..]);
      var n := if d.Emit? then d.consumed else 1;
      var b := if d.Emit? then d.bytes else [s[|out|]];
      InPlace(entities, newlines, s, p, out) == InPlace(entities, newlines, s, p + n, out + b)
      && out + b <= InPlace(entities, newlines, s, p, out)
  {
    hide Decoded;
  }

  lemma DecodeEmpty(entities: bool, newlines: bool)
    ensures Decode(entities, newlines, "") == ""
  {
  }

  lemma StraysEnd(entities: bool, newlines: bool, s: string, q: nat)
    requires q <= |s|
    ensures StraysKept(entities, newlines, s, |s|, q)
  {
  }

  lemma DecodeStep(entities: bool, newlines: bool, s: string, p: nat)
    requires p < |s|
    ensures var d := Decoded(entities, newlines, s[p..]);
      Decode(entities, newlines, s[p..])
      == if d.Emit? then d.bytes + Decode(entities, newlines, s[p + d.consumed..])
         else "&" + Decode(entities, newlines, s[p + 1..])
  {
    hide Decoded;
    var d := Decoded(entities, newlines, s[p..]);
    assert s[p..][if d.Emit? then d.consumed else 1..] == s[p + (if d.Emit? then d.consumed else 1)..];
  }

  lemma StraysStep(entities: bool, newlines: bool, s: string, p: nat, q: nat)
    requires q <= p < |s|
    ensures var d := Decoded(entities, newlines, s[p..]);
      StraysKept(entities, newlines, s, p, q)
      <==> if d.Emit? then StraysKept(entities, newlines, s, p + d.consumed, q + |d.bytes|)
           else s[q] == '&' && StraysKept(entities, newlines, s, p + 1, q + 1)
  {
    hide Decoded;
  }

  lemma {:induction false} Untouched(s: string, p: nat)
    requires p <= |s|
    ensures InPlace(false, false, s, p, s[..p]) == s
    decreases |s| - p
  {
    if p < |s| {
      assert s[..p] + [s[p]] == s[..p + 1];
      Untouched(s, p + 1);
    }
  }

  // --- Lines ---

  /** Lines and the line ends between them. */
  function Joined(lines: seq<string>, ends: seq<string>): string
    requires |lines| == |ends| + 1
  {
    if ends == [] then lines[0] else lines[0] + (ends[0] + Joined(lines[1..], ends[1..]))
  }

  /** The lines with a line feed between any two. */
  function Unified(lines: seq<string>): string
    requires lines != []
  {
    if |lines| == 1 then lines[0] else lines[0] + ("\n" + Unified(lines[1..]))
  }

  /** The four ways to end a line. */
  predicate IsLineEnd(e: string) {
    e == "\n" || e == "\r" || e == "\r\n" || e == "\n\r"
  }

  /** Lines without line ends in them (nor ampersands, if those mean something), and no two line
      ends that read as one. */
  predicate LinesOk(entities: bool, lines: seq<string>, ends: seq<string>): (ok: bool)
    ensures ok ==> |lines| == |ends| + 1
  {
    && |lines| == |ends| + 1
    && (forall i :: 0 <= i < |lines| ==> CR !in lines[i] && LF !in lines[i] && (entities ==> '&' !in lines[i]))
    && (forall i :: 0 <= i < |ends| ==> IsLineEnd(ends[i]))
    && (forall i :: 0 < i < |ends| && lines[i] == "" ==> |ends[i - 1]| == 2 || ends[i - 1][0] == ends[i][0])
  }

  lemma PlainChar(entities: bool, newlines: bool, c: char, rest: string)
    requires newlines ==> c != CR && c != LF
    requires entities ==> c != '&'
    ensures Decoded(entities, newlines, [c] + rest) == Emit(1, [c])
  {
  }

  /** A line end, whichever it is, is read as one line feed. */
  lemma LineEnd(entities: bool, e: string, rest: string)
    requires IsLineEnd(e) && (|e| == 1 && rest != "" ==> rest[0] == e[0] || (rest[0] != CR && rest[0] != LF))
    ensures Decoded(entities, true, e + rest) == Emit(|e|, "\n")
  {
    assert rest != "" ==> (e + rest)[|e|] == rest[0];
  }

  lemma LinesRest(entities: bool, lines: seq<string>, ends: seq<string>)
    requires LinesOk(entities, lines, ends)
    ensures lines[0] != "" ==> LinesOk(entities, lines[0 := lines[0][1..]], ends)
    ensures lines[0] != "" ==> lines[0][0] != CR && lines[0][0] != LF && (entities ==> lines[0][0] != '&')
    ensures ends != [] ==> LinesOk(entities, lines[1..], ends[1..])
    ensures ends != [] && |ends[0]| == 1 && Joined(lines[1..], ends[1..]) != "" ==>
      var c := Joined(lines[1..], ends[1..])[0]; c == ends[0][0] || (c != CR && c != LF)
  {
    if lines[0] != "" {
      var t := lines[0];
      assert forall c :: c in t[1..] ==> c in t;
      assert t[0] in t;
    }
    if ends != [] && |ends[0]| == 1 && lines[1] != "" {
      assert lines[1][0] in lines[1];
    }
  }

  /** A text of lines without its first character. */
  lemma JoinedChar(lines: seq<string>, ends: seq<string>)
    requires |lines| == |ends| + 1 && lines[0] != ""
    ensures var rest := lines[0 := lines[0][1..]];
      Joined(lines, ends) == [lines[0][0]] + Joined(rest, ends) && Unified(lines) == [lines[0][0]] + Unified(rest)
  {
    var t := lines[0];
    var rest := lines[0 := t[1..]];
    assert rest[1..] == lines[1..] && t == [t[0]] + t[1..];
    if ends != [] {
      Regroup(t, ends[0] + Joined(lines[1..], ends[1..]));
      Regroup(t, "\n" + Unified(lines[1..]));
    }
  }

  lemma Regroup(t: string, r: string)
    requires t != ""
    ensures t + r == [t[0]] + (t[1..] + r)
  {
  }

  /** A text of lines without its first line end. */
  lemma JoinedEnd(lines: seq<string>, ends: seq<string>)
    requires |lines| == |ends| + 1 && lines[0] == ""
    ensures if ends == [] then Joined(lines, ends) == Unified(lines) == ""
            else Joined(lines, ends) == ends[0] + Joined(lines[1..], ends[1..]) && Unified(lines) == "\n" + Unified(lines[1..])
  {
  }

  /** Reading normalizes line ends: whatever ends the lines, they are read with single line feeds
      between them, and otherwise as they are. */
  lemma {:induction false} LinesRead(entities: bool, lines: seq<string>, ends: seq<string>, s: string, p: nat, out: string)
    requires LinesOk(entities, lines, ends) && |out| <= p <= |s| && s[p..] == Joined(lines, ends)
    ensures InPlace(entities, true, s, p, out) == out + Unified(lines)
    ensures Decode(entities, true, s[p..]) == Unified(lines)
    decreases |lines|, |lines[0]|
  {
    hide InPlace, Decode, Decoded, Joined, Unified, LinesOk;
    LinesRest(entities, lines, ends);
    if lines[0] != "" {
      JoinedChar(lines, ends);
      var rest, c := lines[0 := lines[0][1..]], [lines[0][0]];
      PlainChar(entities, true, lines[0][0], Joined(rest, ends));
      RestAt(s, p, c, Joined(rest, ends));
      LinesRead(entities, rest, ends, s, p + 1, out + c);
      ReadStep(entities, s, p, out, c, c, Joined(rest, ends), Unified(rest));
    } else if ends != [] {
      JoinedEnd(lines, ends);
      FirstEnd(entities, lines, ends);
      var e, t := ends[0], Joined(lines[1..], ends[1..]);
      LineEnd(entities, e, t);
      RestAt(s, p, e, t);
      LinesRead(entities, lines[1..], ends[1..], s, p + |e|, out + "\n");
      ReadStep(entities, s, p, out, e, "\n", t, Unified(lines[1..]));
    } else {
      JoinedEnd(lines, ends);
      assert p == |s|;
      DecodeEmpty(entities, true);
      InPlaceEnd(entities, true, s, out);
    }
  }

  lemma ReadStep(entities: bool, s: string, p: nat, out: string, a: string, b: string, t: string, u: string)
    requires |out| <= p < |s| && s[p..] == a + t && a != "" && |b| <= |a| && Decoded(entities, true, a + t) == Emit(|a|, b)
    requires p + |a| <= |s| && InPlace(entities, true, s, p + |a|, out + b) == (out + b) + u && Decode(entities, true, s[p + |a|..]) == u
    ensures InPlace(entities, true, s, p, out) == out + (b + u) && Decode(entities, true, s[p..]) == b + u
  {
    hide InPlace, Decode, Decoded;
    ReadOn(entities, s, p, out, |a|, b);
    assert (out + b) + u == out + (b + u);
  }

  lemma RestAt(s: string, p: nat, a: string, b: string)
    requires p <= |s| && s[p..] == a + b
    ensures p + |a| <= |s| && s[p + |a|..] == b
  {
    assert s[p + |a|..] == s[p..][|a|..];
  }

  lemma FirstEnd(entities: bool, lines: seq<string>, ends: seq<string>)
    requires LinesOk(entities, lines, ends) && ends != []
    ensures IsLineEnd(ends[0])
  {
  }

  lemma ReadOn(entities: bool, s: string, p: nat, out: string, n: nat, b: string)
    requires |out| <= p < |s| && Decoded(entities, true, s[p..]) == Emit(n, b)
    ensures p + n <= |s| && |out + b| <= p + n
    ensures InPlace(entities, true, s, p, out) == InPlace(entities, true, s, p + n, out + b)
    ensures Decode(entities, true, s[p..]) == b + Decode(entities, true, s[p + n..])
  {
    hide InPlace, Decode, Decoded;
    var d := Decoded(entities, true, s[p..]);
    assert d.consumed == n && d.bytes == b && |s[p..]| == |s| - p;
    InPlaceStep(entities, true, s, p, out);
    DecodeStep(entities, true, s, p);
  }

  lemma {:induction false} UnifiedClean(entities: bool, lines: seq<string>, ends: seq<string>)
    requires |lines| == |ends| + 1 && NoNul(Joined(lines, ends))
    ensures NoNul(Unified(lines))
  {
    if ends != [] {
      var rest := Joined(lines[1..], ends[1..]);
      var all := Joined(lines, ends);
      assert forall i :: 0 <= i < |rest| ==> rest[i] == all[|lines[0]| + |ends[0]| + i];
      assert forall i :: 0 <= i < |lines[0]| ==> lines[0][i] == all[i];
      UnifiedClean(entities, lines[1..], ends[1..]);
    }
  }

  /** The C string in the buffer is the lines with line feeds between them. */
  lemma LinesText(entities: bool, lines: seq<string>, ends: seq<string>, s: string)
    requires LinesOk(entities, lines, ends) && NoNul(s) && s == Joined(lines, ends)
    ensures UpToNul(InPlace(entities, true, s, 0, "")) == Unified(lines)
  {
    hide InPlace, Joined, Unified, LinesOk;
    assert s[0..] == s;
    LinesRead(entities, lines, ends, s, 0, "");
    UnifiedClean(entities, lines, ends);
    var u := Unified(lines);
    assert "" + u == u && u[..|u|] == u;
    UpToNulUnique(u, |u|);
  }

  lemma AllLines(entities: bool, s: string)
    requires NoNul(s)
    ensures forall lines, ends :: LinesOk(entities, lines, ends) && s == Joined(lines, ends) ==>
              UpToNul(InPlace(entities, true, s, 0, "")) == Unified(lines)
  {
    hide InPlace, Joined, Unified, NoNul, UpToNul;
    forall lines, ends | LinesOk(entities, lines, ends) && s == Joined(lines, ends)
      ensures UpToNul(InPlace(entities, true, s, 0, "")) == Unified(lines)
    {
      LinesText(entities, lines, ends, s);
    }
  }

  lemma NoNulFrom(s: string, p: nat)
    requires p <= |s| && NoNul(s)
    ensures NoNul(s[p..])
  {
  }

  lemma UpToNulUnique(s: string, n: nat)
    requires n <= |s| && (n < |s| ==> s[n] == NUL) && NoNul(s[..n])
    ensures UpToNul(s) == s[..n]
  {
    var r := UpToNul(s);
    assert forall k :: 0 <= k < n ==> s[..n][k] == s[k];
    assert forall k :: 0 <= k < |r| ==> r[k] == s[k];
  }

  lemma CString(m: string, n: nat)
    requires n < |m| && m[n] == NUL
    ensures UpToNul(m) == UpToNul(m[..n])
  {
    var r := UpToNul(m[..n]);
    assert m[..|r|] == r;
    UpToNulUnique(m, |r|);
  }

  lemma StartsChars(s: string, i: nat, pat: string)
    ensures StartsWith(s, i, pat) <==> i + |pat| <= |s| && forall k :: 0 <= k < |pat| ==> s[i + k] == pat[k]
  {
    if i + |pat| <= |s| {
      var t := s[i..i + |pat|];
      assert |t| == |pat| && forall k :: 0 <= k < |pat| ==> t[k] == s[i + k];
    }
  }

  /** strncmp and the test of the next byte stop at the terminator. */
  lemma Terminated(s: string, i: nat, end: nat, pattern: string)
    requires i <= end < |s| && s[end] == NUL && NoNul(pattern)
    ensures StartsWith(s, i, pattern) ==> i + |pattern| <= end
    ensures StartsWith(s, i, pattern) && s[i + |pattern|] == ';' <==> StartsWith(s[i..end], 0, pattern + ";")
  {
    hide StartsWith;
    var r, n, p := s[i..end], |pattern|, pattern + ";";
    StartsChars(s, i, pattern);
    StartsChars(r, 0, p);
    assert |r| == end - i && forall k :: 0 <= k < |r| ==> r[k] == s[i + k];
    assert |p| == n + 1 && p[n] == ';' && forall k :: 0 <= k < n ==> p[k] == pattern[k];
    var z := end - i;
    assert z < n ==> pattern[z] != NUL;
    if StartsWith(r, 0, p) {
      forall k | 0 <= k < n ensures s[i + k] == pattern[k] { assert r[0 + k] == p[k]; }
      assert r[0 + n] == p[n];
    }
  }

  /** A slice of the buffer survives a write below it. */
  lemma Slices(m: string, m': string, q: nat, q': nat, end: nat, t: string)
    requires q <= q' <= end <= |m| == |m'| && m[q..end] == t && m[q'..] == m'[q'..]
    ensures m'[q'..end] == t[q' - q..]
  {
    assert m'[q'..end] == m'[q'..][..end - q'] == m[q..end][q' - q..];
  }

  /** The buffer m while GetStr decodes orig[start..end]: p reads, q writes. */
  ghost predicate Midway(entities: bool, newlines: bool, orig: string, m: string, start: nat, end: nat, p: nat, q: nat) {
    && start <= q <= p <= end < |m| == |orig|
    && m[end] == orig[end] == NUL
    && m[q..end] == orig[q..end]
    && m[..start] == orig[..start] && m[end + 1..] == orig[end + 1..]
    && InPlace(entities, newlines, orig[start..end], 0, "")
       == InPlace(entities, newlines, orig[start..end], p - start, m[start..q])
  }

  lemma MidwayStart(entities: bool, newlines: bool, m: string, start: nat, end: nat)
    requires start <= end < |m| && m[end] == NUL
    ensures Midway(entities, newlines, m, m, start, end, start, start)
  {
    hide InPlace;
    assert m[start..start] == "";
  }

  /** What the loop may rely on at the top of a round. */
  lemma MidwayRead(entities: bool, newlines: bool, orig: string, m: string, start: nat, end: nat, p: nat, q: nat)
    requires Midway(entities, newlines, orig, m, start, end, p, q) && NoNul(orig[start..end])
    ensures start <= q <= p <= end < |m| && m[end] == NUL && m[p..end] == orig[start..end][p - start..]
    ensures NoNul(m[p..end])
  {
    hide InPlace, NoNul;
    Slices(m, m, q, p, end, orig[q..end]);
    assert m[p..end] == orig[p..end] == orig[start..end][p - start..];
    NoNulFrom(orig[start..end], p - start);
  }

  lemma MidwayStep(entities: bool, newlines: bool, orig: string, m: string, m': string,
                   start: nat, end: nat, p: nat, q: nat, p': nat, q': nat)
    requires Midway(entities, newlines, orig, m, start, end, p, q) && p < end && |m'| == |m|
    requires match Decoded(entities, newlines, m[p..end])
      case Emit(n, b) => p' == p + n && q' == q + |b| && q' <= |m'| && m'[q..q'] == b
      case Stray => p' == p + 1 && q' == q + 1 && m'[q] == m[q]
    requires q <= q' <= p' <= end && m'[..q] == m[..q] && m'[q'..] == m[q'..]
    ensures Midway(entities, newlines, orig, m', start, end, p', q')
  {
    hide InPlace, Decoded;
    var s, done := orig[start..end], m[start..q];
    assert m[p..end] == m[q..end][p - q..] == orig[p..end] == s[p - start..];
    assert m[q] == m[q..end][0] == orig[q] == s[|done|];
    InPlaceStep(entities, newlines, s, p - start, done);
    Slices(m, m', q, q', end, orig[q..end]);
    assert orig[q..end][q' - q..] == orig[q'..end];
    assert m'[start..q] == m'[..q][start..] == done;
    var d := Decoded(entities, newlines, m[p..end]);
    assert m'[q..q'] == if d.Emit? then d.bytes else [s[|done|]];
    assert m'[start..q'] == done + m'[q..q'];
    assert m'[..start] == m'[..q][..start] == orig[..start];
    assert m'[end] == m'[q'..][end - q'] && m'[end + 1..] == m'[q'..][end + 1 - q'..];
    assert m[end] == m[q'..][end - q'] && m[end + 1..] == m[q'..][end + 1 - q'..];
  }

  lemma MidwayEnd(entities: bool, newlines: bool, orig: string, m: string, m': string, start: nat, end: nat, q: nat)
    requires Midway(entities, newlines, orig, m, start, end, end, q) && m' == m[q := NUL]
    ensures var r := InPlace(entities, newlines, orig[start..end], 0, "");
      && q == start + |r| && m'[start..q] == r && m'[q] == NUL
      && m'[..start] == orig[..start] && m'[end + 1..] == orig[end + 1..]
  {
    hide InPlace;
    InPlaceEnd(entities, newlines, orig[start..end], m[start..q]);
  }

  // --- StrPair ---

  /** A stretch mem[start..end] of the parse buffer whose decoding is put off until it is read. */
  class StrPair {
    const mem: array<char>
    var start: nat
    var end: nat
    var needsFlush: bool
    var entities: bool
    var newlines: bool

    ghost predicate Valid()
      reads this, mem
    {
      start <= end < mem.Length && (needsFlush ==> NoNul(mem[start..end]))
    }

    /** The C string at start. */
    ghost function Text(): string
      requires Valid()
      reads this, mem
    {
      UpToNul(mem[start..])
    }

    /** StrPair::Set */
    constructor (mem: array<char>, start: nat, end: nat, entities: bool, newlines: bool)
      requires start <= end < mem.Length && NoNul(mem[start..end])
      ensures Valid() && this.mem == mem && this.start == start && this.end == end
      ensures needsFlush && this.entities == entities && this.newlines == newlines
    {
      this.mem, this.start, this.end := mem, start, end;
      this.needsFlush, this.entities, this.newlines := true, entities, newlines;
    }

    /** One round of the decoding loop: the read pointer p and the write pointer q move on. */
    method DecodeOne(p: nat, q: nat) returns (p': nat, q': nat)
      requires start <= q <= p < end < mem.Length && mem[end] == NUL && NoNul(mem[p..end])
      modifies mem
      ensures var d := Decoded(entities, newlines, old(mem[p..end]));
        match d
        case Emit(n, b) => p' == p + n && q' == q + |b| && mem[q..q'] == b
        case Stray => p' == p + 1 && q' == q + 1 && mem[q] == old(mem[q])
      ensures q <= q' <= p' <= end
      ensures mem[..q] == old(mem[..q]) && mem[q'..] == old(mem[q'..])
    {
      hide CharacterRef, NoNul, EntityAt;
      ghost var r := mem[p..end];
      assert |r| > 1 ==> mem[p + 1] == r[1];
      if newlines && (mem[p] == CR || mem[p] == LF) {
        p' := if mem[p + 1] == (if mem[p] == CR then LF else CR) then p + 2 else p + 1;
        mem[q] := LF;
        q' := q + 1;
      } else if entities && mem[p] == '&' {
        assert r[1..] == mem[p + 1..end];
        if mem[p + 1] == '#' {
          p', q' := ReplaceReference(p, q);
        } else {
          p', q' := ReplaceEntity(p, q);
        }
      } else {
        mem[q] := mem[p];
        p', q' := p + 1, q + 1;
      }
    }

    /** The numeric reference at p, or the ampersand alone. */
    method ReplaceReference(p: nat, q: nat) returns (p': nat, q': nat)
      requires start <= q <= p && p + 1 < end < mem.Length && mem[end] == NUL && NoNul(mem[p..end])
      requires mem[p] == '&' && mem[p + 1] == '#'
      modifies mem
      ensures match CharacterRef(old(mem[p..end]))
        case NoReference => p' == p + 1 && q' == q + 1 && mem[q] == '&'
        case Reference(n, b) => p' == p + n && q' == q + |b| && q' <= mem.Length && mem[q..q'] == b
      ensures q' <= p' <= end
      ensures mem[..q] == old(mem[..q]) && mem[q'..] == old(mem[q'..])
    {
      hide CharacterRef, NoNul;
      var buf := new char[10];
      assert mem[..][p..end] == mem[p..end];
      var adjusted, len := GetCharacterRef(mem[..], p, end, buf);
      if adjusted == -1 {
        mem[q] := mem[p];
        p', q' := p + 1, q + 1;
      } else {
        p', q' := adjusted, q + len;
        forall i | 0 <= i < len {
          mem[q + i] := buf[i];
        }
        assert mem[q..q'] == buf[..len];
      }
    }

    /** The search of the entity table for the text after an ampersand. */
    method ReplaceEntity(p: nat, q: nat) returns (p': nat, q': nat)
      requires start <= q <= p < end < mem.Length && mem[end] == NUL && NoNul(mem[p..end])
      modifies mem
      ensures var k := EntityAt(old(mem[p + 1..end]), 0);
        if k < 5 then p' == p + |ENTITIES[k].pattern| + 2 && q' == q + 1 && mem[q] == ENTITIES[k].value
        else p' == p + 1 && q' == q + 1 && mem[q] == old(mem[q])
      ensures q' <= p' <= end
      ensures mem[..q] == old(mem[..q]) && mem[q'..] == old(mem[q'..])
    {
      ghost var r := mem[p + 1..end];
      var i := 0;
      var found := false;
      p', q' := p, q;
      while i < 5
        invariant 0 <= i <= 5 && !found && p' == p && q' == q
        invariant EntityAt(r, 0) == EntityAt(r, i)
        invariant mem[..] == old(mem[..])
      {
        var pattern := ENTITIES[i].pattern;
        Terminated(mem[..], p + 1, end, pattern);
        if StartsWith(mem[..], p + 1, pattern) && mem[p + |pattern| + 1] == ';' {
          mem[q] := ENTITIES[i].value;
          q' := q + 1;
          p' := p + |pattern| + 2;
          found := true;
          break;
        }
        i := i + 1;
      }
      if !found {
        p', q' := p + 1, q + 1;
      }
    }

    /** The loop of GetStr, which ends by terminating the decoded text. */
    method Unescape()
      requires start <= end < mem.Length && mem[end] == NUL && NoNul(mem[start..end])
      modifies mem
      ensures var r := InPlace(entities, newlines, old(mem[start..end]), 0, "");
        mem[start..start + |r|] == r && mem[start + |r|] == NUL
      ensures mem[..start] == old(mem[..start]) && mem[end + 1..] == old(mem[end + 1..])
    {
      hide Midway, Decoded, InPlace, NoNul;
      ghost var orig := mem[..];
      var p, q := start, start;
      MidwayStart(entities, newlines, orig, start, end);
      while p < end
        invariant p <= end && Midway(entities, newlines, orig, mem[..], start, end, p, q)
      {
        ghost var m, p0, q0 := mem[..], p, q;
        MidwayRead(entities, newlines, orig, m, start, end, p, q);
        p, q := DecodeOne(p, q);
        MidwayStep(entities, newlines, orig, m, mem[..], start, end, p0, q0, p, q);
      }
      MidwayRead(entities, newlines, orig, mem[..], start, end, p, q);
      ghost var m := mem[..];
      mem[q] := NUL;
      MidwayEnd(entities, newlines, orig, m, mem[..], start, end, q);
    }

    /** StrPair::GetStr: decodes in place the first time it is called. */
    method GetStr()
      requires Valid()
      modifies this`needsFlush, mem
      ensures Valid() && !needsFlush
      ensures !old(needsFlush) ==> mem[..] == old(mem[..])
      ensures old(needsFlush) ==>
        var r := InPlace(entities, newlines, old(mem[start..end]), 0, "");
        && mem[start..start + |r|] == r && mem[start + |r|] == NUL
        && Text() == UpToNul(r)
      ensures old(needsFlush) && newlines ==>
        forall lines, ends :: LinesOk(entities, lines, ends) && old(mem[start..end]) == Joined(lines, ends) ==>
          Text() == Unified(lines)
      ensures mem[..start] == old(mem[..start]) && mem[end + 1..] == old(mem[end + 1..])
    {
      hide InPlace, NoNul, UpToNul, LinesOk, Joined, Unified;
      if needsFlush {
        ghost var s := mem[start..end];
        ghost var r := InPlace(entities, newlines, s, 0, "");
        mem[end] := NUL;
        needsFlush := false;
        assert mem[start..end] == s;
        if entities || newlines {
          Unescape();
        } else {
          assert s[..0] == "";
          Untouched(s, 0);
        }
        CString(mem[start..], |r|);
        assert mem[start..][..|r|] == r;
        AllLines(entities, s);
      }
    }
  }
}
