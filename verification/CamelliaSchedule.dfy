/** The key schedule: section 2.2 of RFC 3713, and the rotations by which
    crypto/camellia.c computes it. */
module CamelliaSchedule {
  import opened Words
  import opened CamelliaCipher
  import opened Camellia
  import opened CamelliaShift

  /** A 128-bit quantity as four words, most significant first. */
  datatype Quad = Quad(ll: bv32, lr: bv32, rl: bv32, rr: bv32)

  function Hi(q: Quad): Half { Half(q.ll, q.lr) }
  function Lo(q: Quad): Half { Half(q.rl, q.rr) }
  function Join(a: Half, b: Half): Quad { Quad(a.l, a.r, b.l, b.r) }

  function XorQuad(p: Quad, q: Quad): Quad { Join(Xor(Hi(p), Hi(q)), Xor(Lo(p), Lo(q))) }

  function NotHalf(a: Half): Half { Half(Not(a.l), Not(a.r)) }

  /** Rotation to the left by one bit. */
  function RotOne(q: Quad): Quad {
    Quad(ShiftIn(q.ll, q.lr), ShiftIn(q.lr, q.rl), ShiftIn(q.rl, q.rr), ShiftIn(q.rr, q.ll))
  }

  /** Rotation to the left by n bits: the operator <<< of the RFC. */
  function Rot(q: Quad, n: bv32): Quad
    decreases n
  {
    if n == 0 then q else Rot(RotOne(q), n - 1)
  }

  // ----- the RFC's schedule -----

  const SIGMA1 := Half(0xA09E667F, 0x3BCC908B)
  const SIGMA2 := Half(0xB67AE858, 0x4CAA73B2)
  const SIGMA3 := Half(0xC6EF372F, 0xE94F82BE)
  const SIGMA4 := Half(0x54FF53A5, 0xF1D36F1C)
  const SIGMA5 := Half(0x10E527FA, 0xDE682D1D)
  const SIGMA6 := Half(0xB05688C2, 0xB3E6C1FD)

  function KA(s: Sboxes, kl: Quad, kr: Quad): Quad {
    var x := XorQuad(kl, kr);
    var d2 := Xor(Lo(x), F(s, Hi(x), SIGMA1));
    var d1 := Xor(Hi(x), F(s, d2, SIGMA2));
    var e1 := Xor(d1, Hi(kl));
    var e2 := Xor(d2, Lo(kl));
    var f2 := Xor(e2, F(s, e1, SIGMA3));
    Join(Xor(e1, F(s, f2, SIGMA4)), f2)
  }

  function KB(s: Sboxes, ka: Quad, kr: Quad): Quad {
    var x := XorQuad(ka, kr);
    var d2 := Xor(Lo(x), F(s, Hi(x), SIGMA5));
    Join(Xor(Hi(x), F(s, d2, SIGMA6)), d2)
  }

  const ZERO_QUAD := Quad(0, 0, 0, 0)

  /** Subkeys of a 128-bit key. */
  function Schedule128(s: Sboxes, kl: Quad): (k: seq<Half>)
    ensures |k| == 26
  {
    var ka := KA(s, kl, ZERO_QUAD);
    [Hi(kl), Lo(kl),
     Hi(ka), Lo(ka), Hi(Rot(kl, 15)), Lo(Rot(kl, 15)), Hi(Rot(ka, 15)), Lo(Rot(ka, 15)),
     Hi(Rot(ka, 30)), Lo(Rot(ka, 30)),
     Hi(Rot(kl, 45)), Lo(Rot(kl, 45)), Hi(Rot(ka, 45)), Lo(Rot(kl, 60)), Hi(Rot(ka, 60)), Lo(Rot(ka, 60)),
     Hi(Rot(kl, 77)), Lo(Rot(kl, 77)),
     Hi(Rot(kl, 94)), Lo(Rot(kl, 94)), Hi(Rot(ka, 94)), Lo(Rot(ka, 94)), Hi(Rot(kl, 111)), Lo(Rot(kl, 111)),
     Hi(Rot(ka, 111)), Lo(Rot(ka, 111))]
  }

  /** Subkeys of a 256-bit key, and of a 192-bit key extended to 256 bits. */
  function Schedule256(s: Sboxes, kl: Quad, kr: Quad): (k: seq<Half>)
    ensures |k| == 34
  {
    var ka := KA(s, kl, kr);
    var kb := KB(s, ka, kr);
    [Hi(kl), Lo(kl),
     Hi(kb), Lo(kb), Hi(Rot(kr, 15)), Lo(Rot(kr, 15)), Hi(Rot(ka, 15)), Lo(Rot(ka, 15)),
     Hi(Rot(kr, 30)), Lo(Rot(kr, 30)),
     Hi(Rot(kb, 30)), Lo(Rot(kb, 30)), Hi(Rot(kl, 45)), Lo(Rot(kl, 45)), Hi(Rot(ka, 45)), Lo(Rot(ka, 45)),
     Hi(Rot(kl, 60)), Lo(Rot(kl, 60)),
     Hi(Rot(kr, 60)), Lo(Rot(kr, 60)), Hi(Rot(kb, 60)), Lo(Rot(kb, 60)), Hi(Rot(kl, 77)), Lo(Rot(kl, 77)),
     Hi(Rot(ka, 77)), Lo(Rot(ka, 77)),
     Hi(Rot(kr, 94)), Lo(Rot(kr, 94)), Hi(Rot(ka, 94)), Lo(Rot(ka, 94)), Hi(Rot(kl, 111)), Lo(Rot(kl, 111)),
     Hi(Rot(kb, 111)), Lo(Rot(kb, 111))]
  }

  // ----- the code's rotations -----

  /** ROLDQ */
  function RolDQ(q: Quad, bits: bv32): Quad
    requires bits <= 32
  {
    Quad(Shift(q.ll, q.lr, bits), Shift(q.lr, q.rl, bits), Shift(q.rl, q.rr, bits), Shift(q.rr, q.ll, bits))
  }

  /** ROLDQo32 */
  function RolDQo32(q: Quad, bits: bv32): Quad
    requires 32 < bits < 64
  {
    Quad(Shift(q.lr, q.rl, bits - 32), Shift(q.rl, q.rr, bits - 32), Shift(q.rr, q.ll, bits - 32),
         Shift(q.ll, q.lr, bits - 32))
  }

  lemma {:induction false} RolDQIsRot(q: Quad, n: bv32)
    requires n <= 32
    ensures RolDQ(q, n) == Rot(q, n)
    decreases n
  {
    hide Shift, ShiftIn;
    if n == 0 {
      ShiftNone(q.ll, q.lr); ShiftNone(q.lr, q.rl); ShiftNone(q.rl, q.rr); ShiftNone(q.rr, q.ll);
    } else {
      ShiftNext(q.ll, q.lr, q.rl, n); ShiftNext(q.lr, q.rl, q.rr, n);
      ShiftNext(q.rl, q.rr, q.ll, n); ShiftNext(q.rr, q.ll, q.lr, n);
      RolDQIsRot(RotOne(q), n - 1);
    }
  }

  lemma {:induction false} RotAdd(q: Quad, m: bv32, n: bv32)
    requires m <= 128 && n <= 128
    ensures Rot(Rot(q, m), n) == Rot(q, m + n)
    decreases m
  {
    hide RotOne;
    if m != 0 {
      RotAdd(RotOne(q), m - 1, n);
    }
  }

  lemma RolDQo32IsRot(q: Quad, n: bv32)
    requires 32 < n < 64
    ensures RolDQo32(q, n) == Rot(q, n)
  {
    hide Shift;
    ShiftNone(q.ll, q.lr); ShiftNone(q.lr, q.rl); ShiftNone(q.rl, q.rr); ShiftNone(q.rr, q.ll);
    RolDQIsRot(q, 32);
    RolDQIsRot(Rot(q, 32), n - 32);
    RotAdd(q, 32, n - 32);
  }

  lemma RotWord(q: Quad)
    ensures Rot(q, 32) == Quad(q.lr, q.rl, q.rr, q.ll)
  {
    hide Shift;
    ShiftNone(q.ll, q.lr); ShiftNone(q.lr, q.rl); ShiftNone(q.rl, q.rr); ShiftNone(q.rr, q.ll);
    RolDQIsRot(q, 32);
  }

  lemma RotFull(q: Quad)
    ensures Rot(q, 128) == q
  {
    RotAdd(q, 32, 96);
    RotAdd(Rot(q, 32), 32, 64);
    RotAdd(Rot(Rot(q, 32), 32), 32, 32);
    RotWord(q);
    RotWord(Rot(q, 32));
    RotWord(Rot(Rot(q, 32), 32));
    RotWord(Rot(Rot(Rot(q, 32), 32), 32));
  }

  /** A step of the code's chain of rotations of orig. */
  method Rotate(q: Quad, bits: bv32, ghost orig: Quad, ghost m: bv32) returns (r: Quad)
    requires 0 < bits < 64 && bits != 32 && m <= 128 && q == Rot(orig, m)
    ensures r == Rot(orig, m + bits)
  {
    hide Shift, Rot;
    RotAdd(orig, m, bits);
    if bits < 32 {
      r := RolDQ(q, bits);
      RolDQIsRot(q, bits);
    } else {
      r := RolDQo32(q, bits);
      RolDQo32IsRot(q, bits);
    }
  }

  // ----- KA and KB -----

  /** CAMELLIA_F */
  method ApplyF(s: Sboxes, x: Half, k: Half) returns (y: Half)
    ensures y == F(s, x, k)
  {
    hide X, LookupL, LookupR, Ror8, SP;
    var i := Half(X(x.l, k.l), X(x.r, k.r));
    var yl, yr := LookupR(s, i.r), LookupL(s, i.l);
    yl := X(yl, yr);
    yr := Ror8(yr);
    yr := X(yr, yl);
    y := Half(yl, yr);
    LookupsAreSP(s, i);
  }

  lemma XorBack(a: Half, b: Half)
    ensures Xor(Xor(a, b), a) == b
  {
    hide *;
    XorComm(a, b);
    XorCancel(b, a);
  }

  method MakeKA128(s: Sboxes, kl: Quad) returns (ka: Quad)
    ensures ka == KA(s, kl, ZERO_QUAD)
  {
    hide Xor, SP, F;
    XorZero(Hi(kl));
    XorZero(Lo(kl));
    var w := ApplyF(s, Hi(kl), SIGMA1);
    var d2 := Xor(Lo(kl), w);
    var d1 := ApplyF(s, d2, SIGMA2);
    XorBack(Hi(kl), d1);
    XorBack(Lo(kl), w);
    d2 := ApplyF(s, d1, SIGMA3);
    XorComm(d2, w);
    d2 := Xor(d2, w);
    w := ApplyF(s, d2, SIGMA4);
    d1 := Xor(d1, w);
    ka := Join(d1, d2);
  }

  lemma XorMiddle(a: Half, b: Half, c: Half)
    ensures Xor(Xor(Xor(a, b), c), a) == Xor(c, b)
  {
    hide *;
    XorAssoc(a, b, c);
    XorBack(a, Xor(b, c));
    XorComm(b, c);
  }

  method MakeKA256(s: Sboxes, kl: Quad, kr: Quad) returns (ka: Quad)
    ensures ka == KA(s, kl, kr)
  {
    hide Xor, SP, F;
    var d1, d2 := Xor(Hi(kl), Hi(kr)), Xor(Lo(kl), Lo(kr));
    var w := ApplyF(s, d1, SIGMA1);
    XorMiddle(Lo(kl), Lo(kr), w);
    d2 := Xor(d2, w);
    d1 := ApplyF(s, d2, SIGMA2);
    XorMiddle(Hi(kl), Hi(kr), d1);
    d1 := Xor(d1, Hi(kr));
    d2 := ApplyF(s, d1, SIGMA3);
    XorComm(d2, Xor(w, Lo(kr)));
    d2 := Xor(d2, Xor(w, Lo(kr)));
    w := ApplyF(s, d2, SIGMA4);
    d1 := Xor(d1, w);
    ka := Join(d1, d2);
  }

  method MakeKB(s: Sboxes, ka: Quad, kr: Quad) returns (kb: Quad)
    ensures kb == KB(s, ka, kr)
  {
    hide Xor, SP, F;
    XorComm(Hi(ka), Hi(kr));
    XorComm(Lo(ka), Lo(kr));
    var d1, d2 := Xor(Hi(kr), Hi(ka)), Xor(Lo(kr), Lo(ka));
    var w := ApplyF(s, d1, SIGMA5);
    d2 := Xor(d2, w);
    w := ApplyF(s, d2, SIGMA6);
    d1 := Xor(d1, w);
    kb := Join(d1, d2);
  }
}
