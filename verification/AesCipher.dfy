/** AES as FIPS 197 describes it: the cipher (section 5.1), the key expansion
    (section 5.2) and the inverse cipher (section 5.3), for any S-box. */
module AesCipher {
  import opened Words

  /** A column of the state, or a word of the key schedule: bytes of rows 0 to 3. */
  datatype Col = Col(b0: bv8, b1: bv8, b2: bv8, b3: bv8)

  datatype State = State(c0: Col, c1: Col, c2: Col, c3: Col)

  /** The S-box and its inverse. */
  datatype Sbox = Sbox(sub: bv8 -> bv8, inv: bv8 -> bv8)

  ghost predicate Inverse(s: Sbox) { forall x :: s.inv(s.sub(x)) == x }

  function XorCol(a: Col, b: Col): Col { Col(XB(a.b0, b.b0), XB(a.b1, b.b1), XB(a.b2, b.b2), XB(a.b3, b.b3)) }

  function XorState(x: State, k: State): State {
    State(XorCol(x.c0, k.c0), XorCol(x.c1, k.c1), XorCol(x.c2, k.c2), XorCol(x.c3, k.c3))
  }

  /** xtime: multiplication by x in GF(2^8) (section 4.2.1). */
  function Xtime(b: bv8): bv8 { XB(Shl(b), Reduction(b)) }
  function Shl(b: bv8): bv8 { b << 1 }
  function Reduction(b: bv8): bv8 { if b & 0x80 != 0 then 0x1b else 0 }

  // Multiplication by the constants of section 5.1.3 and 5.3.3.
  function By2(b: bv8): bv8 { Xtime(b) }
  function By3(b: bv8): bv8 { XB(Xtime(b), b) }
  function By9(b: bv8): bv8 { XB(Xtime(Xtime(Xtime(b))), b) }
  function ByB(b: bv8): bv8 { XB(XB(Xtime(Xtime(Xtime(b))), Xtime(b)), b) }
  function ByD(b: bv8): bv8 { XB(XB(Xtime(Xtime(Xtime(b))), Xtime(Xtime(b))), b) }
  function ByE(b: bv8): bv8 { XB(XB(Xtime(Xtime(Xtime(b))), Xtime(Xtime(b))), Xtime(b)) }

  function Sum4(a: bv8, b: bv8, c: bv8, d: bv8): bv8 { XB(XB(a, b), XB(c, d)) }

  /** MixColumns on one column. */
  function Mix(c: Col): Col {
    Col(Sum4(By2(c.b0), By3(c.b1), c.b2, c.b3), Sum4(c.b0, By2(c.b1), By3(c.b2), c.b3),
        Sum4(c.b0, c.b1, By2(c.b2), By3(c.b3)), Sum4(By3(c.b0), c.b1, c.b2, By2(c.b3)))
  }

  /** InvMixColumns on one column. */
  function InvMix(c: Col): Col {
    Col(Sum4(ByE(c.b0), ByB(c.b1), ByD(c.b2), By9(c.b3)), Sum4(By9(c.b0), ByE(c.b1), ByB(c.b2), ByD(c.b3)),
        Sum4(ByD(c.b0), By9(c.b1), ByE(c.b2), ByB(c.b3)), Sum4(ByB(c.b0), ByD(c.b1), By9(c.b2), ByE(c.b3)))
  }

  function MapCol(f: bv8 -> bv8, c: Col): Col { Col(f(c.b0), f(c.b1), f(c.b2), f(c.b3)) }

  function SubBytes(f: bv8 -> bv8, x: State): State { State(MapCol(f, x.c0), MapCol(f, x.c1), MapCol(f, x.c2), MapCol(f, x.c3)) }

  function ShiftRows(x: State): State {
    State(Col(x.c0.b0, x.c1.b1, x.c2.b2, x.c3.b3), Col(x.c1.b0, x.c2.b1, x.c3.b2, x.c0.b3),
          Col(x.c2.b0, x.c3.b1, x.c0.b2, x.c1.b3), Col(x.c3.b0, x.c0.b1, x.c1.b2, x.c2.b3))
  }

  function InvShiftRows(x: State): State {
    State(Col(x.c0.b0, x.c3.b1, x.c2.b2, x.c1.b3), Col(x.c1.b0, x.c0.b1, x.c3.b2, x.c2.b3),
          Col(x.c2.b0, x.c1.b1, x.c0.b2, x.c3.b3), Col(x.c3.b0, x.c2.b1, x.c1.b2, x.c0.b3))
  }

  function MixColumns(x: State): State { State(Mix(x.c0), Mix(x.c1), Mix(x.c2), Mix(x.c3)) }

  function InvMixColumns(x: State): State { State(InvMix(x.c0), InvMix(x.c1), InvMix(x.c2), InvMix(x.c3)) }

  /** Round key r of a schedule. */
  function RoundKey(w: seq<Col>, r: nat): State
    requires 4 * r + 4 <= |w|
  {
    State(w[4 * r], w[4 * r + 1], w[4 * r + 2], w[4 * r + 3])
  }

  function Substituted(s: Sbox, x: State): State { ShiftRows(SubBytes(s.sub, x)) }

  function Unsubstituted(s: Sbox, x: State): State { SubBytes(s.inv, InvShiftRows(x)) }

  /** Rounds r to n of the cipher, the last of which leaves out MixColumns. */
  function RoundsFrom(s: Sbox, w: seq<Col>, n: nat, r: nat, x: State): State
    requires 0 < r <= n && 4 * n + 4 <= |w|
    decreases n - r
  {
    if r == n then XorState(Substituted(s, x), RoundKey(w, n))
    else RoundsFrom(s, w, n, r + 1, XorState(MixColumns(Substituted(s, x)), RoundKey(w, r)))
  }

  /** Cipher (section 5.1) with n rounds. */
  function Cipher(s: Sbox, w: seq<Col>, n: nat, x: State): State
    requires 0 < n && 4 * n + 4 <= |w|
  {
    RoundsFrom(s, w, n, 1, XorState(x, RoundKey(w, 0)))
  }

  /** Rounds r down to 0 of the inverse cipher. */
  function InvRoundsFrom(s: Sbox, w: seq<Col>, r: nat, x: State): State
    requires 4 * r + 4 <= |w|
  {
    var y := XorState(Unsubstituted(s, x), RoundKey(w, r));
    if r == 0 then y else InvRoundsFrom(s, w, r - 1, InvMixColumns(y))
  }

  /** InvCipher (section 5.3) with n rounds. */
  function InvCipher(s: Sbox, w: seq<Col>, n: nat, x: State): State
    requires 0 < n && 4 * n + 4 <= |w|
  {
    InvRoundsFrom(s, w, n - 1, XorState(x, RoundKey(w, n)))
  }

  // ----- the inverse cipher undoes the cipher -----

  lemma ShlX(a: bv8, b: bv8)
    ensures Shl(XB(a, b)) == XB(Shl(a), Shl(b))
  {}

  lemma ReductionX(a: bv8, b: bv8)
    ensures Reduction(XB(a, b)) == XB(Reduction(a), Reduction(b))
  {}

  lemma XtimeX(a: bv8, b: bv8)
    ensures Xtime(XB(a, b)) == XB(Xtime(a), Xtime(b))
  {
    hide XB, Shl, Reduction;
    ShlX(a, b);
    ReductionX(a, b);
    XBSwap(Shl(a), Shl(b), Reduction(a), Reduction(b));
  }

  lemma XBCancel(a: bv8, b: bv8)
    ensures XB(XB(a, b), b) == a
  {}

  lemma XBAssoc(a: bv8, b: bv8, c: bv8)
    ensures XB(XB(a, b), c) == XB(a, XB(b, c))
  {}

  lemma XBComm(a: bv8, b: bv8)
    ensures XB(a, b) == XB(b, a)
  {}

  lemma XBSwap(a: bv8, b: bv8, c: bv8, d: bv8)
    ensures XB(XB(a, b), XB(c, d)) == XB(XB(a, c), XB(b, d))
  {
    hide *;
    XBAssoc(a, b, XB(c, d));
    XBAssoc(b, c, d);
    XBComm(b, c);
    XBAssoc(c, b, d);
    XBAssoc(a, c, XB(b, d));
  }

  lemma XorColCancel(a: Col, b: Col)
    ensures XorCol(XorCol(a, b), b) == a
  {
    hide XB;
    XBCancel(a.b0, b.b0);
    XBCancel(a.b1, b.b1);
    XBCancel(a.b2, b.b2);
    XBCancel(a.b3, b.b3);
  }

  lemma XorStateCancel(x: State, k: State)
    ensures XorState(XorState(x, k), k) == x
  {
    hide XorCol;
    XorColCancel(x.c0, k.c0);
    XorColCancel(x.c1, k.c1);
    XorColCancel(x.c2, k.c2);
    XorColCancel(x.c3, k.c3);
  }

  // ----- MixColumns is linear, and InvMixColumns its inverse -----

  lemma MultipleX(a: bv8, b: bv8)
    ensures By2(XB(a, b)) == XB(By2(a), By2(b)) && By3(XB(a, b)) == XB(By3(a), By3(b))
    ensures By9(XB(a, b)) == XB(By9(a), By9(b)) && ByB(XB(a, b)) == XB(ByB(a), ByB(b))
    ensures ByD(XB(a, b)) == XB(ByD(a), ByD(b)) && ByE(XB(a, b)) == XB(ByE(a), ByE(b))
  {
    hide XB, Xtime;
    var a1, b1 := Xtime(a), Xtime(b);
    var a2, b2 := Xtime(a1), Xtime(b1);
    var a3, b3 := Xtime(a2), Xtime(b2);
    XtimeX(a, b);
    XtimeX(a1, b1);
    XtimeX(a2, b2);
    XBSwap(a1, b1, a, b);
    XBSwap(a3, b3, a, b);
    XBSwap(a3, b3, a1, b1);
    XBSwap(XB(a3, a1), XB(b3, b1), a, b);
    XBSwap(a3, b3, a2, b2);
    XBSwap(XB(a3, a2), XB(b3, b2), a, b);
    XBSwap(XB(a3, a2), XB(b3, b2), a1, b1);
  }

  lemma Sum4X(a: bv8, b: bv8, c: bv8, d: bv8, e: bv8, f: bv8, g: bv8, h: bv8)
    ensures Sum4(XB(a, e), XB(b, f), XB(c, g), XB(d, h)) == XB(Sum4(a, b, c, d), Sum4(e, f, g, h))
  {
    hide XB;
    XBSwap(a, e, b, f);
    XBSwap(c, g, d, h);
    XBSwap(XB(a, b), XB(e, f), XB(c, d), XB(g, h));
  }

  lemma MixX(c: Col, d: Col)
    ensures Mix(XorCol(c, d)) == XorCol(Mix(c), Mix(d))
  {
    hide XB, By2, By3, Sum4;
    MultipleX(c.b0, d.b0);
    MultipleX(c.b1, d.b1);
    MultipleX(c.b2, d.b2);
    MultipleX(c.b3, d.b3);
    Sum4X(By2(c.b0), By3(c.b1), c.b2, c.b3, By2(d.b0), By3(d.b1), d.b2, d.b3);
    Sum4X(c.b0, By2(c.b1), By3(c.b2), c.b3, d.b0, By2(d.b1), By3(d.b2), d.b3);
    Sum4X(c.b0, c.b1, By2(c.b2), By3(c.b3), d.b0, d.b1, By2(d.b2), By3(d.b3));
    Sum4X(By3(c.b0), c.b1, c.b2, By2(c.b3), By3(d.b0), d.b1, d.b2, By2(d.b3));
  }

  lemma InvMixX(c: Col, d: Col)
    ensures InvMix(XorCol(c, d)) == XorCol(InvMix(c), InvMix(d))
  {
    hide XB, By9, ByB, ByD, ByE, Sum4;
    MultipleX(c.b0, d.b0);
    MultipleX(c.b1, d.b1);
    MultipleX(c.b2, d.b2);
    MultipleX(c.b3, d.b3);
    Sum4X(ByE(c.b0), ByB(c.b1), ByD(c.b2), By9(c.b3), ByE(d.b0), ByB(d.b1), ByD(d.b2), By9(d.b3));
    Sum4X(By9(c.b0), ByE(c.b1), ByB(c.b2), ByD(c.b3), By9(d.b0), ByE(d.b1), ByB(d.b2), ByD(d.b3));
    Sum4X(ByD(c.b0), By9(c.b1), ByE(c.b2), ByB(c.b3), ByD(d.b0), By9(d.b1), ByE(d.b2), ByB(d.b3));
    Sum4X(ByB(c.b0), ByD(c.b1), By9(c.b2), ByE(c.b3), ByB(d.b0), ByD(d.b1), By9(d.b2), ByE(d.b3));
  }

  // What InvMixColumns makes of 2a, a, a, 3a; ai is a multiplied i times by x.

  lemma HalfL0(a: bv8, a1: bv8, a2: bv8, a3: bv8, a4: bv8)
    ensures XB(XB(XB(a4, a3), a2), XB(XB(a3, a1), a)) == XB(Sum3(a4, a2, a1), a)
  {}

  lemma HalfR0(a: bv8, a1: bv8, a2: bv8, a3: bv8, a4: bv8)
    ensures XB(XB(XB(a3, a2), a), XB(XB(a4, a1), XB(a3, a))) == Sum3(a4, a2, a1)
  {}

  lemma HalfL1(a: bv8, a1: bv8, a2: bv8, a3: bv8, a4: bv8)
    ensures XB(XB(a4, a1), XB(XB(a3, a2), a1)) == Sum3(a4, a3, a2)
  {}

  lemma HalfR1(a: bv8, a1: bv8, a2: bv8, a3: bv8, a4: bv8)
    ensures XB(XB(XB(a3, a1), a), XB(XB(XB(a4, a3), a1), XB(XB(a3, a2), a))) == Sum3(a4, a3, a2)
  {}

  lemma HalfL2(a: bv8, a1: bv8, a2: bv8, a3: bv8, a4: bv8)
    ensures XB(XB(XB(a4, a3), a1), XB(a3, a)) == Sum3(a4, a1, a)
  {}

  lemma HalfR2(a: bv8, a1: bv8, a2: bv8, a3: bv8, a4: bv8)
    ensures XB(XB(XB(a3, a2), a1), XB(XB(XB(a4, a2), a1), XB(XB(a3, a1), a))) == Sum3(a4, a1, a)
  {}

  lemma HalfL3(a: bv8, a1: bv8, a2: bv8, a3: bv8, a4: bv8)
    ensures XB(XB(XB(a4, a2), a1), XB(XB(a3, a2), a)) == XB(Sum3(a4, a1, a3), a)
  {}

  lemma HalfR3(a: bv8, a1: bv8, a2: bv8, a3: bv8, a4: bv8)
    ensures XB(XB(a3, a), XB(XB(XB(a4, a3), a2), XB(XB(a3, a2), a1))) == XB(Sum3(a4, a1, a3), a)
  {}

  lemma XBSelf(a: bv8, b: bv8)
    ensures XB(a, a) == 0 && XB(XB(a, b), a) == b
  {}

  lemma UnitRows(a: bv8)
    ensures Sum4(ByE(By2(a)), ByB(a), ByD(a), By9(By3(a))) == a
    ensures Sum4(By9(By2(a)), ByE(a), ByB(a), ByD(By3(a))) == 0
    ensures Sum4(ByD(By2(a)), By9(a), ByE(a), ByB(By3(a))) == 0
    ensures Sum4(ByB(By2(a)), ByD(a), By9(a), ByE(By3(a))) == 0
  {
    hide XB, Xtime, Sum3;
    var a1 := Xtime(a);
    var a2 := Xtime(a1);
    var a3 := Xtime(a2);
    var a4 := Xtime(a3);
    MultipleX(a1, a);
    HalfL0(a, a1, a2, a3, a4);
    HalfR0(a, a1, a2, a3, a4);
    HalfL1(a, a1, a2, a3, a4);
    HalfR1(a, a1, a2, a3, a4);
    HalfL2(a, a1, a2, a3, a4);
    HalfR2(a, a1, a2, a3, a4);
    HalfL3(a, a1, a2, a3, a4);
    HalfR3(a, a1, a2, a3, a4);
    XBSelf(Sum3(a4, a2, a1), a);
    XBSelf(Sum3(a4, a3, a2), a);
    XBSelf(Sum3(a4, a1, a), a);
    XBSelf(XB(Sum3(a4, a1, a3), a), a);
  }

  lemma Sum4Rotate(a: bv8, b: bv8, c: bv8, d: bv8)
    ensures Sum4(a, b, c, d) == Sum4(b, c, d, a)
  {
    hide XB;
    XBComm(XB(b, c), XB(d, a));
    XBSwap(d, a, b, c);
    XBSwap(d, b, a, c);
    XBSwap(a, b, c, d);
    XBComm(b, d);
    XBComm(XB(a, c), XB(b, d));
  }

  lemma Zeros(a: bv8)
    ensures XB(a, 0) == a && XB(0, a) == a && Xtime(0) == 0
  {}

  /** Multiplication of columns by the zero byte. */
  lemma MixUnits(a: bv8)
    ensures Mix(Col(a, 0, 0, 0)) == Col(By2(a), a, a, By3(a)) && Mix(Col(0, a, 0, 0)) == Col(By3(a), By2(a), a, a)
    ensures Mix(Col(0, 0, a, 0)) == Col(a, By3(a), By2(a), a) && Mix(Col(0, 0, 0, a)) == Col(a, a, By3(a), By2(a))
  {
    hide XB, Xtime;
    Zeros(0);
    Zeros(a);
    Zeros(By2(a));
    Zeros(By3(a));
  }

  lemma InvMixUnits(a: bv8)
    ensures InvMix(Mix(Col(a, 0, 0, 0))) == Col(a, 0, 0, 0) && InvMix(Mix(Col(0, a, 0, 0))) == Col(0, a, 0, 0)
    ensures InvMix(Mix(Col(0, 0, a, 0))) == Col(0, 0, a, 0) && InvMix(Mix(Col(0, 0, 0, a))) == Col(0, 0, 0, a)
  {
    hide Sum4, By2, By3, By9, ByB, ByD, ByE, Mix;
    MixUnits(a);
    UnitRows(a);
    var p, t := By2(a), By3(a);
    Rotations(ByE(p), ByB(a), ByD(a), By9(t));
    Rotations(By9(p), ByE(a), ByB(a), ByD(t));
    Rotations(ByD(p), By9(a), ByE(a), ByB(t));
    Rotations(ByB(p), ByD(a), By9(a), ByE(t));
  }

  lemma Rotations(a: bv8, b: bv8, c: bv8, d: bv8)
    ensures Sum4(a, b, c, d) == Sum4(b, c, d, a) == Sum4(c, d, a, b) == Sum4(d, a, b, c)
  {
    hide Sum4;
    Sum4Rotate(a, b, c, d);
    Sum4Rotate(b, c, d, a);
    Sum4Rotate(c, d, a, b);
  }

  lemma AsUnits(c: Col)
    ensures c == XorCol(XorCol(Col(c.b0, 0, 0, 0), Col(0, c.b1, 0, 0)), XorCol(Col(0, 0, c.b2, 0), Col(0, 0, 0, c.b3)))
  {
    hide XB;
    Zeros(0);
    Zeros(c.b0);
    Zeros(c.b1);
    Zeros(c.b2);
    Zeros(c.b3);
  }

  /** InvMixColumns undoes MixColumns. */
  lemma InvMixOfMix(c: Col)
    ensures InvMix(Mix(c)) == c
  {
    hide Mix, InvMix, XorCol;
    var u0, u1, u2, u3 := Col(c.b0, 0, 0, 0), Col(0, c.b1, 0, 0), Col(0, 0, c.b2, 0), Col(0, 0, 0, c.b3);
    AsUnits(c);
    MixX(XorCol(u0, u1), XorCol(u2, u3));
    MixX(u0, u1);
    MixX(u2, u3);
    InvMixX(XorCol(Mix(u0), Mix(u1)), XorCol(Mix(u2), Mix(u3)));
    InvMixX(Mix(u0), Mix(u1));
    InvMixX(Mix(u2), Mix(u3));
    InvMixUnits(c.b0);
    InvMixUnits(c.b1);
    InvMixUnits(c.b2);
    InvMixUnits(c.b3);
  }

  lemma UnsubstitutedUndoes(s: Sbox, x: State)
    requires Inverse(s)
    ensures Unsubstituted(s, Substituted(s, x)) == x
  {}

  lemma {:induction false} InvRoundsUndo(s: Sbox, w: seq<Col>, n: nat, r: nat, x: State)
    requires Inverse(s) && 0 < r <= n && 4 * n + 4 <= |w|
    ensures InvRoundsFrom(s, w, n - 1, XorState(RoundsFrom(s, w, n, r, x), RoundKey(w, n)))
         == InvRoundsFrom(s, w, r - 1, Substituted(s, x))
    decreases n - r
  {
    hide Mix, InvMix, XorState, Substituted, Unsubstituted;
    if r == n {
      XorStateCancel(Substituted(s, x), RoundKey(w, n));
    } else {
      var y := MixColumns(Substituted(s, x));
      var z := XorState(y, RoundKey(w, r));
      InvRoundsUndo(s, w, n, r + 1, z);
      UnsubstitutedUndoes(s, z);
      XorStateCancel(y, RoundKey(w, r));
      var u := Substituted(s, x);
      InvMixOfMix(u.c0);
      InvMixOfMix(u.c1);
      InvMixOfMix(u.c2);
      InvMixOfMix(u.c3);
    }
  }

  /** The inverse cipher undoes the cipher, for any schedule and number of rounds. */
  lemma InvCipherUndoesCipher(s: Sbox, w: seq<Col>, n: nat, x: State)
    requires Inverse(s) && 0 < n && 4 * n + 4 <= |w|
    ensures InvCipher(s, w, n, Cipher(s, w, n, x)) == x
  {
    hide Mix, InvMix, XorState, Substituted, Unsubstituted, RoundsFrom;
    var y := XorState(x, RoundKey(w, 0));
    InvRoundsUndo(s, w, n, 1, y);
    UnsubstitutedUndoes(s, y);
    XorStateCancel(x, RoundKey(w, 0));
  }

  // ----- key expansion -----

  function RotWord(c: Col): Col { Col(c.b1, c.b2, c.b3, c.b0) }

  /** The round constants: powers of x in GF(2^8). */
  function Rcon(i: nat): bv8 { if i == 0 then 1 else Xtime(Rcon(i - 1)) }

  /** Word i of the key expansion of a key of nk words (section 5.2). */
  function Expanded(s: Sbox, key: seq<Col>, i: nat): Col
    requires |key| > 0
  {
    var nk := |key|;
    if i < nk then key[i]
    else
      var t := Expanded(s, key, i - 1);
      var u := if i % nk == 0 then XorCol(MapCol(s.sub, RotWord(t)), Col(Rcon(i / nk - 1), 0, 0, 0))
               else if nk > 6 && i % nk == 4 then MapCol(s.sub, t)
               else t;
      XorCol(Expanded(s, key, i - nk), u)
  }
}
