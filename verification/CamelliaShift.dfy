/** The words of the rotations of crypto/camellia.c: shifting by n bits is shifting by
    one bit n times. Each lemma says one thing about the bits of variables, or about
    named operations with their bits hidden, which keeps all of them cheap. */
module CamelliaShift {
  import opened Words

  /** A word shifted to the left by one bit, with the top bit of the next one behind it. */
  function ShiftIn(a: bv32, b: bv32): bv32 { (a << 1) | (b >> 31) }

  /** The term the macros ROLDQ and ROLDQo32 are made of. */
  function Shift(a: bv32, b: bv32, bits: bv32): bv32
    requires bits <= 32
  {
    (a << bits) + (b >> (32 - bits))
  }

  function Up(x: bv32, n: bv32): bv32
    requires n <= 32
  {
    x << n
  }

  function Down(x: bv32, n: bv32): bv32
    requires n <= 32
  {
    x >> n
  }

  function Plus(a: bv32, b: bv32): bv32 { a + b }

  // ----- the bits -----

  // u, v and w are what a << (m + 1), the top bit of b and the other bits of b that
  // follow it contribute.

  lemma UpperBits(a: bv32, b: bv32, m: bv32, x: bv32, p: bv32, u: bv32, v: bv32)
    requires m < 32 && x == (a << 1) | (b >> 31) && p == x << m && u == a << (m + 1) && v == (b >> 31) << m
    ensures p == u | v
  {}

  lemma LowerBits(b: bv32, c: bv32, k: bv32, y: bv32, q: bv32, w: bv32)
    requires 0 < k <= 32 && y == (b << 1) | (c >> 31) && q == y >> k && w == (b << 1) >> k
    ensures q == w
  {}

  lemma SplitBits(b: bv32, m: bv32, v: bv32, w: bv32, z: bv32)
    requires m < 32 && v == (b >> 31) << m && w == (b << 1) >> (32 - m) && z == b >> (31 - m)
    ensures z == v | w
  {}

  lemma ApartBits(a: bv32, b: bv32, m: bv32, u: bv32, v: bv32, w: bv32)
    requires m < 32 && u == a << (m + 1) && v == (b >> 31) << m && w == (b << 1) >> (32 - m)
    ensures u & (v | w) == 0 && (u | v) & w == 0
  {}

  lemma PlusBits(u: bv32, v: bv32)
    requires u & v == 0
    ensures u + v == u | v
  {}

  lemma OrAssoc(u: bv32, v: bv32, w: bv32)
    ensures Or(Or(u, v), w) == Or(u, Or(v, w))
  {}

  // ----- the names -----

  lemma UpIs(x: bv32, n: bv32)
    requires n <= 32
    ensures Up(x, n) == x << n
  {}

  lemma DownIs(x: bv32, n: bv32)
    requires n <= 32
    ensures Down(x, n) == x >> n
  {}

  lemma PlusIs(x: bv32, y: bv32)
    ensures Plus(x, y) == x + y
  {}

  lemma OrIs(x: bv32, y: bv32)
    ensures Or(x, y) == x | y
  {}

  lemma AndIs(x: bv32, y: bv32)
    ensures And(x, y) == x & y
  {}

  lemma ShiftInIs(a: bv32, b: bv32)
    ensures ShiftIn(a, b) == (a << 1) | (b >> 31)
  {}

  lemma ShiftOfBits(a: bv32, b: bv32, n: bv32)
    requires n <= 32
    ensures Shift(a, b, n) == (a << n) + (b >> (32 - n))
  {}

  lemma ShiftIs(a: bv32, b: bv32, n: bv32)
    requires n <= 32
    ensures Shift(a, b, n) == Plus(Up(a, n), Down(b, 32 - n))
  {
    hide *;
    ShiftOfBits(a, b, n);
    UpIs(a, n);
    DownIs(b, 32 - n);
    PlusIs(Up(a, n), Down(b, 32 - n));
  }

  lemma PlusIsOr(u: bv32, v: bv32)
    requires And(u, v) == 0
    ensures Plus(u, v) == Or(u, v)
  {
    hide *;
    AndIs(u, v);
    OrIs(u, v);
    PlusIs(u, v);
    PlusBits(u, v);
  }

  lemma Upper(a: bv32, b: bv32, m: bv32, x: bv32, p: bv32, u: bv32, v: bv32)
    requires m < 32 && x == ShiftIn(a, b) && p == Up(x, m) && u == a << (m + 1) && v == (b >> 31) << m
    ensures p == Or(u, v)
  {
    hide *;
    ShiftInIs(a, b);
    UpIs(x, m);
    OrIs(u, v);
    UpperBits(a, b, m, x, p, u, v);
  }

  lemma Lower(b: bv32, c: bv32, k: bv32, y: bv32, q: bv32, w: bv32)
    requires 0 < k <= 32 && y == ShiftIn(b, c) && q == Down(y, k) && w == (b << 1) >> k
    ensures q == w
  {
    hide *;
    ShiftInIs(b, c);
    DownIs(y, k);
    LowerBits(b, c, k, y, q, w);
  }

  lemma Split(b: bv32, m: bv32, v: bv32, w: bv32, z: bv32)
    requires m < 32 && v == (b >> 31) << m && w == (b << 1) >> (32 - m) && z == Down(b, 31 - m)
    ensures z == Or(v, w)
  {
    hide *;
    DownIs(b, 31 - m);
    OrIs(v, w);
    SplitBits(b, m, v, w, z);
  }

  lemma Apart(a: bv32, b: bv32, m: bv32, u: bv32, v: bv32, w: bv32)
    requires m < 32 && u == a << (m + 1) && v == (b >> 31) << m && w == (b << 1) >> (32 - m)
    ensures And(u, Or(v, w)) == 0 && And(Or(u, v), w) == 0
  {
    hide *;
    ApartBits(a, b, m, u, v, w);
    OrIs(u, v);
    OrIs(v, w);
    AndIs(u, Or(v, w));
    AndIs(Or(u, v), w);
  }

  // ----- shifting once more -----

  lemma PartsOf(a: bv32, b: bv32, c: bv32, m: bv32, u: bv32, v: bv32, w: bv32)
    requires m < 32 && u == a << (m + 1) && v == (b >> 31) << m && w == (b << 1) >> (32 - m)
    ensures Up(ShiftIn(a, b), m) == Or(u, v) && Down(ShiftIn(b, c), 32 - m) == w
    ensures Up(a, m + 1) == u && Down(b, 31 - m) == Or(v, w)
  {
    hide *;
    UpIs(a, m + 1);
    Upper(a, b, m, ShiftIn(a, b), Up(ShiftIn(a, b), m), u, v);
    Lower(b, c, 32 - m, ShiftIn(b, c), Down(ShiftIn(b, c), 32 - m), w);
    Split(b, m, v, w, Down(b, 31 - m));
  }

  lemma Parts(a: bv32, b: bv32, c: bv32, m: bv32) returns (u: bv32, v: bv32, w: bv32)
    requires m < 32
    ensures Up(ShiftIn(a, b), m) == Or(u, v) && Down(ShiftIn(b, c), 32 - m) == w
    ensures Up(a, m + 1) == u && Down(b, 31 - m) == Or(v, w)
    ensures And(u, Or(v, w)) == 0 && And(Or(u, v), w) == 0
  {
    hide *;
    u, v, w := a << (m + 1), (b >> 31) << m, (b << 1) >> (32 - m);
    PartsOf(a, b, c, m, u, v, w);
    Apart(a, b, m, u, v, w);
  }

  lemma ShiftNext(a: bv32, b: bv32, c: bv32, n: bv32)
    requires 0 < n <= 32
    ensures Shift(ShiftIn(a, b), ShiftIn(b, c), n - 1) == Shift(a, b, n)
  {
    hide *;
    var u, v, w := Parts(a, b, c, n - 1);
    ShiftIs(ShiftIn(a, b), ShiftIn(b, c), n - 1);
    ShiftIs(a, b, n);
    PlusIsOr(Or(u, v), w);
    PlusIsOr(u, Or(v, w));
    OrAssoc(u, v, w);
  }

  lemma ShiftNone(a: bv32, b: bv32)
    ensures Shift(a, b, 0) == a && Shift(a, b, 32) == b
  {}
}
