/** The 32-bit string hash that two files of the site write out by hand:
    `s.split("").reduce((a, b) => { a = (a << 5) - a + b.charCodeAt(0); return a & a }, 0)`
    (components/recipe-card.tsx and app/page.tsx). JavaScript's `<<` and `&`
    convert their operands with ToInt32, which is the wrap-around below. */
module Int32Hash {

  const TwoTo31: int := 0x8000_0000
  const TwoTo32: int := 0x1_0000_0000

  predicate IsInt32(x: int) {
    -TwoTo31 <= x < TwoTo31
  }

  /** ECMAScript ToInt32 on an integer: reduce modulo 2^32 into [-2^31, 2^31). */
  function ToInt32(x: int): (r: int)
    ensures IsInt32(r)
  {
    (x + TwoTo31) % TwoTo32 - TwoTo31
  }

  /** ToInt32 only depends on its argument modulo 2^32. */
  lemma ToInt32Shift(x: int, k: int)
    ensures ToInt32(x + k * TwoTo32) == ToInt32(x)
  {
    var y := x + TwoTo31;
    assert (y + k * TwoTo32) % TwoTo32 == y % TwoTo32 by {
      var q := y / TwoTo32;
      var m := y % TwoTo32;
      assert y + k * TwoTo32 == (q + k) * TwoTo32 + m;
    }
  }

  lemma ToInt32OfInt32(x: int)
    requires IsInt32(x)
    ensures ToInt32(x) == x
  {
  }

  /** `a << 5` on a number that already is a 32-bit integer. */
  function ShiftLeft5(a: int): (r: int)
    ensures IsInt32(r)
  {
    ToInt32(a * 32)
  }

  /** One step of the reduce: `a = (a << 5) - a + code; return a & a`. */
  function Step(a: int, code: int): (r: int)
    ensures IsInt32(r)
  {
    ToInt32(ShiftLeft5(a) - a + code)
  }

  /** The shift-and-mask step is multiplication by 31 modulo 2^32. */
  lemma StepIsTimes31(a: int, code: int)
    ensures Step(a, code) == ToInt32(31 * a + code)
  {
    var w := a * 32;
    var k := (w + TwoTo31) / TwoTo32;
    assert ShiftLeft5(a) == w - k * TwoTo32;
    assert ShiftLeft5(a) - a + code == (31 * a + code) + (-k) * TwoTo32;
    ToInt32Shift(31 * a + code, -k);
  }

  /** The character code the source reads with `charCodeAt(0)`. */
  function CharCode(c: char): int {
    c as int
  }

  /** The fold over the characters of `s`, starting from 0, in the source's form. */
  function Hash(s: string): (h: int)
    ensures IsInt32(h)
  {
    if s == [] then 0 else Step(Hash(s[..|s| - 1]), CharCode(s[|s| - 1]))
  }

  /** The same fold written as `a := int32(31 * a + code)`. */
  function Hash31(s: string): int {
    if s == [] then 0 else ToInt32(31 * Hash31(s[..|s| - 1]) + CharCode(s[|s| - 1]))
  }

  lemma {:induction false} HashIsHash31(s: string)
    ensures Hash(s) == Hash31(s)
  {
    if s != [] {
      HashIsHash31(s[..|s| - 1]);
      StepIsTimes31(Hash(s[..|s| - 1]), CharCode(s[|s| - 1]));
    }
  }

  /** Appending a character extends the fold by one step. */
  lemma HashSnoc(s: string, c: char)
    ensures Hash(s + [c]) == Step(Hash(s), CharCode(c))
  {
    assert (s + [c])[..|s + [c]| - 1] == s;
  }

  /** `Math.abs(hash)`: a double, so -2^31 gives 2^31 and no overflow happens. */
  function Abs(x: int): nat {
    if x < 0 then -x else x
  }
}
