/** 32-bit unsigned arithmetic and the serial-number comparison of user timestamps. */
module Serial32 {

  const TWO32: int := 0x1_0000_0000
  const HALF: int := 0x8000_0000

  /** An `unsigned int` of the source. */
  type u32 = x: int | 0 <= x < 0x1_0000_0000

  /** Unsigned addition, wrapping modulo 2^32. */
  function Plus(a: u32, b: u32): u32 {
    if a + b < TWO32 then a + b else a + b - TWO32
  }

  /** Unsigned subtraction, wrapping modulo 2^32. */
  function Minus(a: u32, b: u32): u32 {
    if a >= b then a - b else a - b + TWO32
  }

  /** `ts_less`: l precedes r when the unsigned difference l - r exceeds 2^31. */
  predicate TsLess(l: u32, r: u32) {
    Minus(l, r) > HALF
  }

  /** Distance travelled from `base` up to `t`. */
  function Offset(base: u32, t: u32): u32 {
    Minus(t, base)
  }

  /** `t` lies in the half of the timestamp circle that starts at `base`. */
  predicate InWindow(base: u32, t: u32) {
    Offset(base, t) < HALF
  }

  /** Inside one half of the circle the serial comparison is the order of the offsets. */
  lemma SerialOrder(base: u32, l: u32, r: u32)
    requires InWindow(base, l) && InWindow(base, r)
    ensures TsLess(l, r) <==> Offset(base, l) < Offset(base, r)
  {
  }

  /** Serial comparison is invariant under a common shift of both timestamps. */
  lemma SerialPlus(l: u32, r: u32, d: u32)
    ensures TsLess(Plus(l, d), Plus(r, d)) <==> TsLess(l, r)
  {
  }

  lemma SerialMinus(l: u32, r: u32, d: u32)
    ensures TsLess(Minus(l, d), Minus(r, d)) <==> TsLess(l, r)
  {
  }

  lemma PlusSwap(a: u32, b: u32, c: u32)
    ensures Plus(Plus(a, b), c) == Plus(Plus(a, c), b)
    ensures Minus(Plus(a, b), c) == Plus(Minus(a, c), b)
  {
  }
}
