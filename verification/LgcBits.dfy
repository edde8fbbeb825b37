/** The mark byte of lgc.h and the colours that the rest of the model uses. */
module LgcBits {
  import opened LgcHeap

  const WHITE0: bv8 := 1
  const WHITE1: bv8 := 2
  const BLACKBIT: bv8 := 4
  const WHITEBITS: bv8 := 3
  const MASKCOLORS: bv8 := 0xF8

  predicate IsWhiteByte(m: bv8) { m & WHITEBITS != 0 }

  predicate IsBlackByte(m: bv8) { m & BLACKBIT != 0 }

  /** Never both whites, never white and black. */
  predicate Proper(m: bv8) {
    m & WHITEBITS != WHITEBITS && !(IsWhiteByte(m) && IsBlackByte(m))
  }

  function ColorOf(m: bv8): Color {
    if m & WHITE0 != 0 then White(false)
    else if m & WHITE1 != 0 then White(true)
    else if IsBlackByte(m) then Black
    else Gray
  }

  /** 'currentwhite' */
  function WhiteByte(which: bool): bv8 {
    if which then WHITE1 else WHITE0
  }

  function OtherWhite(cw: bv8): bv8 { cw ^ WHITEBITS }

  /** 'isdeadm' */
  predicate IsDeadByte(ow: bv8, m: bv8) { (m ^ WHITEBITS) & ow == 0 }

  function MakeWhite(cw: bv8, m: bv8): bv8 { (m & MASKCOLORS) | (cw & WHITEBITS) }

  function White2Gray(m: bv8): bv8 { m & !WHITEBITS }

  function ChangeWhite(m: bv8): bv8 { m ^ WHITEBITS }

  function Gray2Black(m: bv8): bv8 { m | BLACKBIT }

  function Black2Gray(m: bv8): bv8 { m & !BLACKBIT }

  /** The flip at the end of 'atomic'. */
  lemma FlipByte(which: bool)
    ensures OtherWhite(WhiteByte(which)) == WhiteByte(!which)
  {
  }

  /** The bit test of 'isdeadm' is: the object has the other white. */
  lemma DeadByte(which: bool, m: bv8)
    requires Proper(m)
    ensures IsDeadByte(OtherWhite(WhiteByte(which)), m) <==> ColorOf(m) == White(!which)
  {
    FlipByte(which);
  }

  /** A dead string that is found again gets the current white. */
  lemma RevivedByte(which: bool, m: bv8)
    requires Proper(m) && IsDeadByte(OtherWhite(WhiteByte(which)), m)
    ensures ColorOf(ChangeWhite(m)) == White(which) && Proper(ChangeWhite(m)) && ChangeWhite(m) & MASKCOLORS == m & MASKCOLORS
  {
    FlipByte(which);
  }

  /** The macros change the colour as the model says, and leave the other bits alone. */
  lemma ColourBytes(which: bool, m: bv8)
    requires Proper(m)
    ensures ColorOf(MakeWhite(WhiteByte(which), m)) == White(which) && Proper(MakeWhite(WhiteByte(which), m))
    ensures ColorOf(m).White? ==> ColorOf(White2Gray(m)) == Gray && Proper(White2Gray(m))
    ensures ColorOf(m).Gray? ==> ColorOf(Gray2Black(m)) == Black && Proper(Gray2Black(m))
    ensures ColorOf(m).Black? ==> ColorOf(Black2Gray(m)) == Gray && Proper(Black2Gray(m))
    ensures MakeWhite(WhiteByte(which), m) & MASKCOLORS == m & MASKCOLORS
    ensures White2Gray(m) & MASKCOLORS == Gray2Black(m) & MASKCOLORS == Black2Gray(m) & MASKCOLORS == m & MASKCOLORS
  {
  }
}
