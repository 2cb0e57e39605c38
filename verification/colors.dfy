/**
 * The embed colours, as 24-bit RGB integers. main.go writes each one as
 * `r<<16 + g<<8 + b<<0` on untyped Go integer constants; `<<` binds
 * tighter than `+` there and untyped constants never overflow, so each
 * shift is a multiplication by a power of two. The constants below hold the
 * resulting values; ColorsFromShifts proves they are what the shifted sums give.
 */
module Colors {

  function Pow2(n: nat): (p: nat)
    ensures p > 0
  {
    if n == 0 then 1 else 2 * Pow2(n - 1)
  }

  /** Go's `x << n` on a non-negative untyped constant. */
  function Shl(x: nat, n: nat): nat
  {
    x * Pow2(n)
  }

  const RedColor: nat := 0xCC1111       // error
  const GreyColor: nat := 0x888888      // skipped or canceled
  const PinkColor: nat := 0xFC0FF8
  const CyanColor: nat := 0x18D6E0
  const YellowColor: nat := 0xE0CF18
  const DarkBlueColor: nat := 0x0088FF
  const PurpleColor: nat := 0x763E99
  const GreenColor: nat := 0x66FF00     // complete

  /** `c` is the 24-bit colour whose red, green and blue channels are r, g and b. */
  predicate IsRgb(c: nat, r: nat, g: nat, b: nat)
  {
    c < 0x100_0000 && c / 0x1_0000 == r && c / 0x100 % 0x100 == g && c % 0x100 == b
  }

  lemma ShiftsArePowers()
    ensures Pow2(0) == 1 && Pow2(8) == 0x100 && Pow2(16) == 0x1_0000
  {
    assert Pow2(4) == 16;
    assert Pow2(8) == 0x100;
    assert Pow2(12) == 0x1000;
  }

  /** Each colour is main.go's shifted sum of its channels, and has those channels. */
  lemma ColorsFromShifts()
    ensures RedColor == Shl(0xCC, 16) + Shl(0x11, 8) + Shl(0x11, 0) && IsRgb(RedColor, 0xCC, 0x11, 0x11)
    ensures GreyColor == Shl(0x88, 16) + Shl(0x88, 8) + Shl(0x88, 0) && IsRgb(GreyColor, 0x88, 0x88, 0x88)
    ensures PinkColor == Shl(0xFC, 16) + Shl(0x0F, 8) + Shl(0xF8, 0) && IsRgb(PinkColor, 0xFC, 0x0F, 0xF8)
    ensures CyanColor == Shl(0x18, 16) + Shl(0xD6, 8) + Shl(0xE0, 0) && IsRgb(CyanColor, 0x18, 0xD6, 0xE0)
    ensures YellowColor == Shl(0xE0, 16) + Shl(0xCF, 8) + Shl(0x18, 0) && IsRgb(YellowColor, 0xE0, 0xCF, 0x18)
    ensures DarkBlueColor == Shl(0x00, 16) + Shl(0x88, 8) + Shl(0xFF, 0) && IsRgb(DarkBlueColor, 0x00, 0x88, 0xFF)
    ensures PurpleColor == Shl(0x76, 16) + Shl(0x3E, 8) + Shl(0x99, 0) && IsRgb(PurpleColor, 0x76, 0x3E, 0x99)
    ensures GreenColor == Shl(0x66, 16) + Shl(0xFF, 8) + Shl(0x00, 0) && IsRgb(GreenColor, 0x66, 0xFF, 0x00)
  {
    ShiftsArePowers();
  }
}
