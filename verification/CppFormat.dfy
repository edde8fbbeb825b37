/** Decimal numbers in cppformat (format.h, format.cc): counting digits, writing them two at a time,
    reading them back. */
module CppFormat {

  const UINT_MOD := 0x1_0000_0000
  const INT_MAX := 0x7FFF_FFFF

  // ----- The decimal form -----

  function Digits(n: nat): (d: nat)
    ensures d >= 1
  {
    if n < 10 then 1 else 1 + Digits(n / 10)
  }

  function Pow10(k: nat): (p: nat)
    ensures p >= 1
  {
    if k == 0 then 1 else 10 * Pow10(k - 1)
  }

  function Digit(d: nat): char
    requires d < 10
  {
    '0' + d as char
  }

  function Decimal(n: nat): (s: string)
    ensures |s| == Digits(n)
  {
    if n < 10 then [Digit(n)] else Decimal(n / 10) + [Digit(n % 10)]
  }

  lemma DigitsBounds(n: nat)
    ensures n < Pow10(Digits(n)) && (n >= 10 ==> n >= Pow10(Digits(n) - 1))
  {
    if n >= 10 { DigitsBounds(n / 10); }
  }

  lemma {:induction false} PowMonotone(a: nat, b: nat)
    requires a <= b
    ensures Pow10(a) <= Pow10(b)
  {
    if a < b { PowMonotone(a, b - 1); }
  }

  lemma DigitsIs(n: nat, d: nat)
    requires d >= 1 && n < Pow10(d) && (d > 1 ==> n >= Pow10(d - 1))
    ensures Digits(n) == d
  {
    DigitsBounds(n);
    if Digits(n) < d { PowMonotone(Digits(n), d - 1); }
    if d < Digits(n) { PowMonotone(d, Digits(n) - 1); }
  }

  // ----- count_digits: by the number of bits -----

  function Bits(n: nat): nat {
    if n == 0 then 0 else 1 + Bits(n / 2)
  }

  function Pow2(k: nat): (p: nat)
    ensures p >= 1
  {
    if k == 0 then 1 else 2 * Pow2(k - 1)
  }

  lemma BitsBounds(n: nat)
    ensures n < Pow2(Bits(n)) && (n > 0 ==> Bits(n) > 0 && n >= Pow2(Bits(n) - 1))
  {
    if n > 0 { BitsBounds(n / 2); }
  }

  lemma {:induction false} BitsAtMost(n: nat, k: nat)
    requires n < Pow2(k)
    ensures Bits(n) <= k
  {
    if n > 0 { BitsAtMost(n / 2, k - 1); }
  }

  /** POWERS_OF_10_64 (and the first ten entries POWERS_OF_10_32) */
  const POWERS_OF_10: seq<nat> := [
    0, 10, 100, 1000, 10000, 100000, 1000000, 10000000, 100000000, 1000000000,
    10000000000, 100000000000, 1000000000000, 10000000000000, 100000000000000, 1000000000000000,
    10000000000000000, 100000000000000000, 1000000000000000000, 10000000000000000000]

  lemma {:induction false} PowersAt(t: nat)
    requires 1 <= t < 20
    ensures POWERS_OF_10[t] == Pow10(t)
  {
    if t > 1 {
      PowersAt(t - 1);
      PowersNext(t);
    } else {
      assert Pow10(0) == 1;
    }
  }

  lemma PowersNext(t: nat)
    requires 2 <= t < 20
    ensures POWERS_OF_10[t] == 10 * POWERS_OF_10[t - 1]
  {
    assert t == 2 || t == 3 || t == 4 || t == 5 || t == 6 || t == 7 || t == 8 || t == 9 || t == 10 || t == 11 || t == 12
        || t == 13 || t == 14 || t == 15 || t == 16 || t == 17 || t == 18 || t == 19;
  }

  function Ten(t: nat): nat
    requires t < 20
  {
    if t == 0 then 1 else POWERS_OF_10[t]
  }

  lemma TenIs(t: nat)
    requires t < 20
    ensures Ten(t) == Pow10(t)
  {
    if t > 0 { PowersAt(t); }
  }

  /** 1233 / 4096 is close enough to the logarithm of 2, for b bits. */
  ghost predicate Close(b: nat)
    requires b > 0
  {
    var t := b * 1233 / 4096;
    t < 20 && (t > 0 ==> b >= 4 && Pow10(t - 1) <= Pow2(b - 1)) && Pow2(b) <= Pow10(t + 1)
  }

  lemma TenAt(k: nat)
    requires k <= 20
    ensures Pow10(k) == if k == 0 then 1 else if k < 20 then POWERS_OF_10[k] else 100000000000000000000
  {
    if k == 20 {
      PowersAt(19);
      assert POWERS_OF_10[19] == 10000000000000000000;
    } else if k > 0 {
      PowersAt(k);
    }
  }

  /** One more bit. */
  lemma Bit(k: nat)
    ensures Pow2(k + 1) == 2 * Pow2(k)
  {
  }

  lemma Close1(b: nat)
    requires 1 <= b <= 8 && Pow2(0) == 1
    ensures Close(b) && Pow2(8) == 256
  {
    hide Pow2, Pow10;
    Bit(0);
    Bit(1);
    Bit(2);
    Bit(3);
    Bit(4);
    Bit(5);
    Bit(6);
    Bit(7);
    TenAt(0);
    TenAt(1);
    TenAt(2);
    TenAt(3);
    assert b == 1 || b == 2 || b == 3 || b == 4 || b == 5 || b == 6 || b == 7 || b == 8;
  }

  lemma Close9(b: nat)
    requires 9 <= b <= 16 && Pow2(8) == 256
    ensures Close(b) && Pow2(16) == 65536
  {
    hide Pow2, Pow10;
    Bit(8);
    Bit(9);
    Bit(10);
    Bit(11);
    Bit(12);
    Bit(13);
    Bit(14);
    Bit(15);
    TenAt(1);
    TenAt(2);
    TenAt(3);
    TenAt(4);
    TenAt(5);
    assert b == 9 || b == 10 || b == 11 || b == 12 || b == 13 || b == 14 || b == 15 || b == 16;
  }

  lemma Close17(b: nat)
    requires 17 <= b <= 24 && Pow2(16) == 65536
    ensures Close(b) && Pow2(24) == 16777216
  {
    hide Pow2, Pow10;
    Bit(16);
    Bit(17);
    Bit(18);
    Bit(19);
    Bit(20);
    Bit(21);
    Bit(22);
    Bit(23);
    TenAt(4);
    TenAt(5);
    TenAt(6);
    TenAt(7);
    TenAt(8);
    assert b == 17 || b == 18 || b == 19 || b == 20 || b == 21 || b == 22 || b == 23 || b == 24;
  }

  lemma Close25(b: nat)
    requires 25 <= b <= 32 && Pow2(24) == 16777216
    ensures Close(b) && Pow2(32) == 4294967296
  {
    hide Pow2, Pow10;
    Bit(24);
    Bit(25);
    Bit(26);
    Bit(27);
    Bit(28);
    Bit(29);
    Bit(30);
    Bit(31);
    TenAt(6);
    TenAt(7);
    TenAt(8);
    TenAt(9);
    TenAt(10);
    assert b == 25 || b == 26 || b == 27 || b == 28 || b == 29 || b == 30 || b == 31 || b == 32;
  }

  lemma Close33(b: nat)
    requires 33 <= b <= 40 && Pow2(32) == 4294967296
    ensures Close(b) && Pow2(40) == 1099511627776
  {
    hide Pow2, Pow10;
    Bit(32);
    Bit(33);
    Bit(34);
    Bit(35);
    Bit(36);
    Bit(37);
    Bit(38);
    Bit(39);
    TenAt(8);
    TenAt(9);
    TenAt(10);
    TenAt(11);
    TenAt(12);
    TenAt(13);
    assert b == 33 || b == 34 || b == 35 || b == 36 || b == 37 || b == 38 || b == 39 || b == 40;
  }

  lemma Close41(b: nat)
    requires 41 <= b <= 48 && Pow2(40) == 1099511627776
    ensures Close(b) && Pow2(48) == 281474976710656
  {
    hide Pow2, Pow10;
    Bit(40);
    Bit(41);
    Bit(42);
    Bit(43);
    Bit(44);
    Bit(45);
    Bit(46);
    Bit(47);
    TenAt(11);
    TenAt(12);
    TenAt(13);
    TenAt(14);
    TenAt(15);
    assert b == 41 || b == 42 || b == 43 || b == 44 || b == 45 || b == 46 || b == 47 || b == 48;
  }

  lemma Close49(b: nat)
    requires 49 <= b <= 56 && Pow2(48) == 281474976710656
    ensures Close(b) && Pow2(56) == 72057594037927936
  {
    hide Pow2, Pow10;
    Bit(48);
    Bit(49);
    Bit(50);
    Bit(51);
    Bit(52);
    Bit(53);
    Bit(54);
    Bit(55);
    TenAt(13);
    TenAt(14);
    TenAt(15);
    TenAt(16);
    TenAt(17);
    assert b == 49 || b == 50 || b == 51 || b == 52 || b == 53 || b == 54 || b == 55 || b == 56;
  }

  lemma Close57(b: nat)
    requires 57 <= b <= 64 && Pow2(56) == 72057594037927936
    ensures Close(b) && Pow2(64) == 18446744073709551616
  {
    hide Pow2, Pow10;
    Bit(56);
    Bit(57);
    Bit(58);
    Bit(59);
    Bit(60);
    Bit(61);
    Bit(62);
    Bit(63);
    TenAt(16);
    TenAt(17);
    TenAt(18);
    TenAt(19);
    TenAt(20);
    assert b == 57 || b == 58 || b == 59 || b == 60 || b == 61 || b == 62 || b == 63 || b == 64;
  }

  lemma CloseUpTo64(b: nat)
    requires 1 <= b <= 64
    ensures Close(b)
    ensures Pow2(32) == TWO_TO_THE_32 && Pow2(64) == TWO_TO_THE_64
  {
    hide Close, Pow10;
    Close1(if b <= 8 then b else 8);
    Close9(if 9 <= b <= 16 then b else 9);
    Close17(if 17 <= b <= 24 then b else 17);
    Close25(if 25 <= b <= 32 then b else 25);
    Close33(if 33 <= b <= 40 then b else 33);
    Close41(if 41 <= b <= 48 then b else 41);
    Close49(if 49 <= b <= 56 then b else 49);
    Close57(if 57 <= b then b else 57);
  }

  const TWO_TO_THE_32 := 0x1_0000_0000
  const TWO_TO_THE_64 := 0x1_0000_0000_0000_0000

  function Or1(n: nat): nat {
    if n % 2 == 0 then n + 1 else n
  }

  /** 'count_digits' with '__builtin_clz': the number of bits is the width less the leading zeros. */
  function CountDigits(n: nat): nat
    requires n < TWO_TO_THE_64
  {
    var t := Bits(Or1(n)) * 1233 / 4096;
    if t >= 20 then 0 else if n < POWERS_OF_10[t] then t else t + 1
  }

  /** It is the number of decimal digits, for all numbers of 64 bits; numbers of 32 bits need the
      first ten powers only. */
  lemma CountDigitsRight(n: nat)
    requires n < TWO_TO_THE_64
    ensures CountDigits(n) == Digits(n)
    ensures n < TWO_TO_THE_32 ==> Bits(Or1(n)) * 1233 / 4096 < 10
  {
    hide Bits, Pow2, Pow10, Digits;
    var m := Or1(n);
    var b := Bits(m);
    BitsOfOdd(n);
    CloseUpTo64(b);
    var t := b * 1233 / 4096;
    TenIs(t);
    if t == 0 {
      DigitsIs(n, 1) by { FirstPowers(); }
    } else {
      DigitsIs(n, if n < Pow10(t) then t else t + 1);
    }
  }

  lemma FirstPowers()
    ensures Pow10(0) == 1 && Pow10(1) == 10 && POWERS_OF_10[0] == 0
  {
  }

  lemma PowersOfTwo()
    ensures Pow2(32) == TWO_TO_THE_32 && Pow2(64) == TWO_TO_THE_64
  {
    CloseUpTo64(1);
  }

  /** The bits of n | 1: as many as those of n, one if n is 0. */
  lemma BitsOfOdd(n: nat)
    requires n < TWO_TO_THE_64
    ensures var b := Bits(Or1(n));
            && 1 <= b <= 64 && (n < TWO_TO_THE_32 ==> b <= 32) && n < Pow2(b) && (b > 1 ==> n >= Pow2(b - 1))
  {
    hide Bits;
    var m := Or1(n);
    PowersOfTwo();
    BitsBounds(m);
    OddBelow(m, 64);
    BitsAtMost(m, 64);
    if n < TWO_TO_THE_32 {
      OddBelow(m, 32);
      BitsAtMost(m, 32);
    }
    if Bits(m) > 1 { EvenPower(Bits(m) - 1); }
  }

  lemma EvenPower(k: nat)
    requires k > 0
    ensures Pow2(k) % 2 == 0
  {
  }

  lemma OddBelow(m: nat, k: nat)
    requires m % 2 == 1 && m <= Pow2(k) && k > 0
    ensures m < Pow2(k)
  {
    EvenPower(k);
  }

  // ----- count_digits: four digits at a time -----

  /** The fallback version of 'count_digits' */
  method CountDigitsByFour(n0: nat) returns (r: nat)
    ensures r == Digits(n0)
  {
    var n, count := n0, 1;
    while true
      invariant count + Digits(n) == 1 + Digits(n0)
      decreases n
    {
      FewDigits(n);
      if n < 10 { return count; }
      if n < 100 { return count + 1; }
      if n < 1000 { return count + 2; }
      if n < 10000 { return count + 3; }
      FourDigits(n);
      n := n / 10000;
      count := count + 4;
    }
  }

  lemma FewDigits(n: nat)
    ensures n < 10 ==> Digits(n) == 1
    ensures 10 <= n < 100 ==> Digits(n) == 2
    ensures 100 <= n < 1000 ==> Digits(n) == 3
    ensures 1000 <= n < 10000 ==> Digits(n) == 4
  {
    if n >= 10 { assert Digits(n) == 1 + Digits(n / 10); }
    if n >= 100 { assert Digits(n / 10) == 1 + Digits(n / 10 / 10); }
    if n >= 1000 { assert Digits(n / 10 / 10) == 1 + Digits(n / 10 / 10 / 10); }
  }

  lemma FourDigits(n: nat)
    requires n >= 10000
    ensures Digits(n) == 4 + Digits(n / 10000)
  {
    assert n / 10 / 10 / 10 / 10 == n / 10000;
    assert Digits(n) == 1 + Digits(n / 10) && Digits(n / 10) == 1 + Digits(n / 10 / 10);
    assert Digits(n / 10 / 10) == 1 + Digits(n / 10 / 10 / 10) && Digits(n / 10 / 10 / 10) == 1 + Digits(n / 10 / 10 / 10 / 10);
  }

  // ----- format_decimal -----

  const ROW0: string := "0001020304050607080910111213141516171819"
  const ROW1: string := "2021222324252627282930313233343536373839"
  const ROW2: string := "4041424344454647484950515253545556575859"
  const ROW3: string := "6061626364656667686970717273747576777879"
  const ROW4: string := "8081828384858687888990919293949596979899"

  /** Data::DIGITS: the numbers below 100, two digits each. */
  const DIGITS: string := ROW0 + ROW1 + ROW2 + ROW3 + ROW4

  lemma Row0(i: nat)
    requires i < 20
    ensures |ROW0| == 40 && ROW0[2 * i] == Digit((0 + i) / 10) && ROW0[2 * i + 1] == Digit((0 + i) % 10)
  {
    if i < 5 {
      assert i == 0 || i == 1 || i == 2 || i == 3 || i == 4;
    } else if i < 10 {
      assert i == 5 || i == 6 || i == 7 || i == 8 || i == 9;
    } else if i < 15 {
      assert i == 10 || i == 11 || i == 12 || i == 13 || i == 14;
    } else {
      assert i == 15 || i == 16 || i == 17 || i == 18 || i == 19;
    }
  }

  lemma Row1(i: nat)
    requires i < 20
    ensures |ROW1| == 40 && ROW1[2 * i] == Digit((20 + i) / 10) && ROW1[2 * i + 1] == Digit((20 + i) % 10)
  {
    if i < 5 {
      assert i == 0 || i == 1 || i == 2 || i == 3 || i == 4;
    } else if i < 10 {
      assert i == 5 || i == 6 || i == 7 || i == 8 || i == 9;
    } else if i < 15 {
      assert i == 10 || i == 11 || i == 12 || i == 13 || i == 14;
    } else {
      assert i == 15 || i == 16 || i == 17 || i == 18 || i == 19;
    }
  }

  lemma Row2(i: nat)
    requires i < 20
    ensures |ROW2| == 40 && ROW2[2 * i] == Digit((40 + i) / 10) && ROW2[2 * i + 1] == Digit((40 + i) % 10)
  {
    if i < 5 {
      assert i == 0 || i == 1 || i == 2 || i == 3 || i == 4;
    } else if i < 10 {
      assert i == 5 || i == 6 || i == 7 || i == 8 || i == 9;
    } else if i < 15 {
      assert i == 10 || i == 11 || i == 12 || i == 13 || i == 14;
    } else {
      assert i == 15 || i == 16 || i == 17 || i == 18 || i == 19;
    }
  }

  lemma Row3(i: nat)
    requires i < 20
    ensures |ROW3| == 40 && ROW3[2 * i] == Digit((60 + i) / 10) && ROW3[2 * i + 1] == Digit((60 + i) % 10)
  {
    if i < 5 {
      assert i == 0 || i == 1 || i == 2 || i == 3 || i == 4;
    } else if i < 10 {
      assert i == 5 || i == 6 || i == 7 || i == 8 || i == 9;
    } else if i < 15 {
      assert i == 10 || i == 11 || i == 12 || i == 13 || i == 14;
    } else {
      assert i == 15 || i == 16 || i == 17 || i == 18 || i == 19;
    }
  }

  lemma Row4(i: nat)
    requires i < 20
    ensures |ROW4| == 40 && ROW4[2 * i] == Digit((80 + i) / 10) && ROW4[2 * i + 1] == Digit((80 + i) % 10)
  {
    if i < 5 {
      assert i == 0 || i == 1 || i == 2 || i == 3 || i == 4;
    } else if i < 10 {
      assert i == 5 || i == 6 || i == 7 || i == 8 || i == 9;
    } else if i < 15 {
      assert i == 10 || i == 11 || i == 12 || i == 13 || i == 14;
    } else {
      assert i == 15 || i == 16 || i == 17 || i == 18 || i == 19;
    }
  }

  lemma InRows(a: string, b: string, c: string, d: string, e: string, r: nat, k: nat)
    requires |a| == |b| == |c| == |d| == |e| == 40 && r < 5 && k < 40
    ensures var s := a + b + c + d + e;
            |s| == 200 && s[40 * r + k] == (if r == 0 then a else if r == 1 then b else if r == 2 then c else if r == 3 then d else e)[k]
  {
  }

  lemma PairAt(i: nat)
    requires i < 100
    ensures |DIGITS| == 200 && DIGITS[2 * i] == Digit(i / 10) && DIGITS[2 * i + 1] == Digit(i % 10)
  {
    hide ROW0, ROW1, ROW2, ROW3, ROW4, RowPair;
    var r, j := i / 20, i % 20;
    RowAt(0, j);
    RowAt(1, j);
    RowAt(2, j);
    RowAt(3, j);
    RowAt(4, j);
    PairIn(ROW0, ROW1, ROW2, ROW3, ROW4, r, j);
    assert 20 * r + j == i;
  }

  lemma PairIn(a: string, b: string, c: string, d: string, e: string, r: nat, j: nat)
    requires |a| == |b| == |c| == |d| == |e| == 40 && r < 5 && j < 20
    requires RowPair(a, 0, j) && RowPair(b, 1, j) && RowPair(c, 2, j) && RowPair(d, 3, j) && RowPair(e, 4, j)
    ensures var s := a + b + c + d + e; var i := 20 * r + j;
            |s| == 200 && s[2 * i] == Digit(i / 10) && s[2 * i + 1] == Digit(i % 10)
  {
    InRows(a, b, c, d, e, r, 2 * j);
    InRows(a, b, c, d, e, r, 2 * j + 1);
  }

  predicate RowPair(row: string, r: nat, j: nat)
    requires r < 5 && j < 20
  {
    |row| == 40 && row[2 * j] == Digit((20 * r + j) / 10) && row[2 * j + 1] == Digit((20 * r + j) % 10)
  }

  lemma RowAt(r: nat, j: nat)
    requires r < 5 && j < 20
    ensures RowPair(if r == 0 then ROW0 else if r == 1 then ROW1 else if r == 2 then ROW2 else if r == 3 then ROW3 else ROW4, r, j)
  {
    if r == 0 { Row0(j); } else if r == 1 { Row1(j); } else if r == 2 { Row2(j); } else if r == 3 { Row3(j); } else { Row4(j); }
  }

  lemma TwoDigits(n: nat)
    requires n >= 100
    ensures Digits(n) == 2 + Digits(n / 100)
    ensures Decimal(n) == Decimal(n / 100) + [Digit(n % 100 / 10), Digit(n % 100 % 10)]
  {
    assert n / 10 / 10 == n / 100 && n / 10 % 10 == n % 100 / 10 && n % 10 == n % 100 % 10;
    assert Decimal(n) == Decimal(n / 10) + [Digit(n % 10)];
    assert Decimal(n / 10) == Decimal(n / 10 / 10) + [Digit(n / 10 % 10)];
  }

  /** One more pair in front of what is written. */
  method WritePair(buffer: array<char>, p: nat, pair: nat, ghost end: nat)
    requires pair < 100 && p >= 2 && p <= end <= buffer.Length
    modifies buffer
    ensures buffer[p - 2..end] == [Digit(pair / 10), Digit(pair % 10)] + old(buffer[p..end])
    ensures buffer[..p - 2] == old(buffer[..p - 2]) && buffer[end..] == old(buffer[end..])
  {
    PairAt(pair);
    var index := pair * 2;
    buffer[p - 1] := DIGITS[index + 1];
    buffer[p - 2] := DIGITS[index];
  }

  /** 'format_decimal': exactly the cells of the number are written. */
  method FormatDecimal(buffer: array<char>, start: nat, value0: nat, numDigits: nat)
    requires numDigits == Digits(value0) && start + numDigits <= buffer.Length
    modifies buffer
    ensures buffer[start..start + numDigits] == Decimal(value0)
    ensures buffer[..start] == old(buffer[..start]) && buffer[start + numDigits..] == old(buffer[start + numDigits..])
  {
    hide Decimal;
    var value, p, end := value0, start + numDigits, start + numDigits;
    assert buffer[p..end] == [] && Decimal(value0) == Decimal(value) + [];
    while value >= 100
      invariant p == start + Digits(value) && p <= end
      invariant Decimal(value0) == Decimal(value) + buffer[p..end]
      invariant buffer[..start] == old(buffer[..start]) && buffer[end..] == old(buffer[end..])
      decreases value
    {
      TwoDigits(value);
      ghost var done := buffer[p..end];
      WritePair(buffer, p, value % 100, end);
      assert Decimal(value / 100) + ([Digit(value % 100 / 10), Digit(value % 100 % 10)] + done) == Decimal(value) + done;
      value := value / 100;
      p := p - 2;
    }
    LastDigits(value);
    if value < 10 {
      ghost var done := buffer[p..end];
      buffer[p - 1] := '0' + value as char;
      assert buffer[p - 1..end] == [Digit(value)] + done;
      return;
    }
    WritePair(buffer, p, value, end);
  }

  lemma LastDigits(n: nat)
    requires n < 100
    ensures if n < 10 then Digits(n) == 1 && Decimal(n) == [Digit(n)]
            else Digits(n) == 2 && Decimal(n) == [Digit(n / 10), Digit(n % 10)]
  {
  }

  // ----- parse_nonnegative_int -----

  predicate IsDigit(c: char) {
    '0' <= c <= '9'
  }

  function Val(c: char): nat
    requires IsDigit(c)
  {
    c as nat - '0' as nat
  }

  /** The number that a string of digits stands for. */
  function Number(s: string): nat
    requires forall i :: 0 <= i < |s| ==> IsDigit(s[i])
  {
    if s == [] then 0 else 10 * Number(s[..|s| - 1]) + Val(s[|s| - 1])
  }

  /** The longest run of digits in front. */
  function Run(s: string): nat {
    if s == [] || !IsDigit(s[0]) then 0 else 1 + Run(s[1..])
  }

  lemma RunDigits(s: string)
    ensures Run(s) <= |s| && (forall i :: 0 <= i < Run(s) ==> IsDigit(s[i])) && (Run(s) < |s| ==> !IsDigit(s[Run(s)]))
  {
    if s != [] && IsDigit(s[0]) { RunDigits(s[1..]); }
  }

  predicate AllDigits(s: string) {
    forall i :: 0 <= i < |s| ==> IsDigit(s[i])
  }

  /** The residues of the prefixes never get smaller: the test for a wrap-around sees nothing. */
  ghost predicate Unnoticed(s: string)
    requires AllDigits(s)
  {
    forall k :: 0 < k <= |s| ==> Number(s[..k]) % UINT_MOD >= Number(s[..k - 1]) % UINT_MOD
  }

  datatype Parsed = Value(n: nat) | TooBig

  lemma NextResidue(s: string, k: nat)
    requires AllDigits(s) && k < |s|
    ensures Number(s[..k + 1]) == 10 * Number(s[..k]) + Val(s[k])
    ensures (10 * (Number(s[..k]) % UINT_MOD) + Val(s[k])) % UINT_MOD == Number(s[..k + 1]) % UINT_MOD
  {
    assert s[..k + 1][..k] == s[..k];
    var n := Number(s[..k]);
    var q, r := n / UINT_MOD, n % UINT_MOD;
    assert n == q * UINT_MOD + r;
    assert 10 * n + Val(s[k]) == 10 * r + Val(s[k]) + (10 * q) * UINT_MOD;
    ModShift(10 * r + Val(s[k]), 10 * q);
  }

  lemma ModShift(a: nat, q: nat)
    ensures (a + q * UINT_MOD) % UINT_MOD == a % UINT_MOD
  {
    if q > 0 {
      ModShift(a, q - 1);
      assert a + q * UINT_MOD == a + (q - 1) * UINT_MOD + UINT_MOD;
    }
  }

  /** What the loop makes of the digits d: the residue of the number, unless a wrap-around is noticed
      or the residue is too big. */
  ghost function Outcome(d: string): Parsed
    requires AllDigits(d)
  {
    if Unnoticed(d) && Number(d) % UINT_MOD <= INT_MAX then Value(Number(d) % UINT_MOD) else TooBig
  }

  /** 'parse_nonnegative_int' on the digits in front of s, in unsigned arithmetic of 32 bits. */
  method ParseNonnegativeInt(s: string) returns (r: Parsed)
    requires s != [] && IsDigit(s[0])
    ensures Run(s) <= |s| && AllDigits(s[..Run(s)]) && r == Outcome(s[..Run(s)])
  {
    RunDigits(s);
    ghost var d := s[..Run(s)];
    var i, value := 0, 0;
    ghost var wrapped := false;
    assert d[..0] == [];
    while true
      invariant i < Run(s) && value == Number(d[..i]) % UINT_MOD
      invariant forall k :: 0 < k <= i ==> Number(d[..k]) % UINT_MOD >= Number(d[..k - 1]) % UINT_MOD
      decreases Run(s) - i
    {
      NextResidue(d, i);
      var newValue := (value * 10 + Val(s[i])) % UINT_MOD;
      i := i + 1;
      if newValue < value {
        value := UINT_MOD - 1;
        assert Number(d[..i]) % UINT_MOD < Number(d[..i - 1]) % UINT_MOD;
        return TooBig;
      }
      value := newValue;
      if !(i < |s| && IsDigit(s[i])) { break; }
    }
    assert d[..i] == d;
    if value > INT_MAX { return TooBig; }
    return Value(value);
  }

  /** What a caller may expect: numbers up to INT_MAX are read, larger ones refused. */
  function Expected(d: string): Parsed
    requires AllDigits(d)
  {
    if Number(d) <= INT_MAX then Value(Number(d)) else TooBig
  }

  lemma {:induction false} PrefixBelow(d: string, k: nat)
    requires AllDigits(d) && k <= |d|
    ensures Number(d[..k]) <= Number(d)
  {
    if k < |d| {
      NextResidue(d, |d| - 1);
      assert d[..|d|] == d && d[..|d| - 1][..k] == d[..k];
      PrefixBelow(d[..|d| - 1], k);
    } else {
      assert d[..k] == d;
    }
  }

  lemma NextNumber(s: string, k: nat)
    requires AllDigits(s) && k < |s|
    ensures Number(s[..k + 1]) == 10 * Number(s[..k]) + Val(s[k])
  {
    assert s[..k + 1][..k] == s[..k];
  }

  lemma Small(n: nat)
    requires n < UINT_MOD
    ensures n % UINT_MOD == n
  {
  }

  lemma SmallUnnoticed(d: string)
    requires AllDigits(d) && Number(d) < UINT_MOD
    ensures Unnoticed(d)
  {
    forall k | 0 < k <= |d| ensures Number(d[..k]) % UINT_MOD >= Number(d[..k - 1]) % UINT_MOD {
      PrefixBelow(d, k);
      PrefixBelow(d, k - 1);
      NextNumber(d, k - 1);
      Small(Number(d[..k]));
      Small(Number(d[..k - 1]));
    }
  }

  /** Exactly when the outcome is what a caller expects: not if the number is too big, its residue
      is not, and the test for a wrap-around sees nothing. */
  lemma ParsedRight(d: string)
    requires AllDigits(d)
    ensures Outcome(d) == Expected(d) <==> !(Number(d) > INT_MAX && Number(d) % UINT_MOD <= INT_MAX && Unnoticed(d))
  {
    if Number(d) <= INT_MAX { SmallUnnoticed(d); }
  }

  /** Nine digits are always right. */
  lemma {:induction false} NineDigits(d: string)
    requires AllDigits(d)
    ensures Number(d) < Pow10(|d|) && (|d| <= 9 ==> Outcome(d) == Expected(d))
  {
    if d != [] { NineDigits(d[..|d| - 1]); }
    if |d| <= 9 {
      PowMonotone(|d|, 9);
      TenIs(9);
      ParsedRight(d);
    }
  }

  /** The ten digits that are wrong: the numbers from 2^32 or 2^33 on whose residue is at most
      INT_MAX and at least the number without its last digit. */
  lemma TenDigits(d: string)
    requires AllDigits(d) && |d| == 10
    ensures Outcome(d) != Expected(d) <==>
            4772185884 <= Number(d) <= 6442450943 || 9544371768 <= Number(d) <= 9999999999
  {
    var a, n := d[..9], Number(d);
    NineDigits(a);
    TenIs(9);
    assert d == a + [d[9]];
    OneMore(a, d[9]);
    ParsedRight(d);
    LastStep(a, d[9]);
    ResidueOf(n, Number(a), Val(d[9]));
  }

  /** Below 2^32 only the last step can wrap around. */
  lemma LastStep(a: string, c: char)
    requires AllDigits(a) && IsDigit(c) && Number(a) < UINT_MOD
    ensures AllDigits(a + [c])
    ensures Unnoticed(a + [c]) <==> (10 * Number(a) + Val(c)) % UINT_MOD >= Number(a)
  {
    var d := a + [c];
    OneMore(a, c);
    SmallUnnoticed(a);
    Small(Number(a));
    if (10 * Number(a) + Val(c)) % UINT_MOD >= Number(a) { UnnoticedMore(a, c); }
    if Unnoticed(d) { assert d[..|d|] == d && d[..|d| - 1] == a; }
  }

  lemma ResidueOf(n: nat, a: nat, v: nat)
    requires n == 10 * a + v && v < 10 && a < 1000000000
    ensures n > INT_MAX && n % UINT_MOD <= INT_MAX && n % UINT_MOD >= a <==>
            4772185884 <= n <= 6442450943 || 9544371768 <= n <= 9999999999
  {
    if n < UINT_MOD {
      assert n % UINT_MOD == n;
    } else if n < 2 * UINT_MOD {
      assert n % UINT_MOD == n - UINT_MOD;
    } else {
      assert n % UINT_MOD == n - 2 * UINT_MOD;
    }
  }

  lemma OneMore(a: string, c: char)
    requires AllDigits(a) && IsDigit(c)
    ensures AllDigits(a + [c]) && Number(a + [c]) == 10 * Number(a) + Val(c)
  {
    assert (a + [c])[..|a|] == a;
  }

  lemma UnnoticedMore(a: string, c: char)
    requires AllDigits(a) && IsDigit(c) && Unnoticed(a) && (10 * Number(a) + Val(c)) % UINT_MOD >= Number(a) % UINT_MOD
    ensures AllDigits(a + [c]) && Unnoticed(a + [c])
  {
    var d := a + [c];
    OneMore(a, c);
    forall k | 0 < k <= |d| ensures Number(d[..k]) % UINT_MOD >= Number(d[..k - 1]) % UINT_MOD {
      if k <= |a| {
        assert d[..k] == a[..k] && d[..k - 1] == a[..k - 1];
      } else {
        assert d[..k] == d && d[..k - 1] == a;
      }
    }
  }

  /** A number of ten digits that is taken for another one. */
  lemma ParsedWrong()
    ensures AllDigits("6000000000") && Number("6000000000") == 6000000000
    ensures Outcome("6000000000") == Value(1705032704) && Expected("6000000000") == TooBig
  {
    var a := "600000000";
    NumberOfZeros(8);
    assert a == Sixes(8);
    assert Pow10(8) == 100000000 by { TenIs(8); }
    SmallUnnoticed(a);
    OneMore(a, '0');
    UnnoticedMore(a, '0');
    assert a + ['0'] == "6000000000";
  }

  function Sixes(n: nat): string {
    if n == 0 then "6" else Sixes(n - 1) + "0"
  }

  lemma NumberOfZeros(n: nat)
    ensures AllDigits(Sixes(n)) && Number(Sixes(n)) == 6 * Pow10(n)
  {
    if n == 0 {
      assert "6"[..0] == "";
    } else {
      NumberOfZeros(n - 1);
      OneMore(Sixes(n - 1), '0');
    }
  }

  lemma NumberOfDecimal(n: nat)
    ensures AllDigits(Decimal(n)) && Number(Decimal(n)) == n
  {
    if n < 10 {
      assert Decimal(n)[..0] == "";
    } else {
      NumberOfDecimal(n / 10);
      OneMore(Decimal(n / 10), Digit(n % 10));
    }
  }

  /** Reading back what was written. */
  lemma FormatParse(n: nat)
    requires n <= INT_MAX
    ensures AllDigits(Decimal(n)) && Outcome(Decimal(n)) == Value(n)
  {
    NumberOfDecimal(n);
    ParsedRight(Decimal(n));
  }
}
