/** The Camellia block cipher as sections 2.3 and 2.4 of RFC 3713 describe it, for
    an arbitrary list of subkeys and arbitrary S-boxes. */
module CamelliaCipher {
  import opened Words

  /** Half a block, or a 64-bit subkey. */
  datatype Half = Half(l: bv32, r: bv32)

  const ZERO := Half(0, 0)

  datatype Block = Block(d1: Half, d2: Half)

  /** SBOX1 to SBOX4. */
  datatype Sboxes = Sboxes(s1: bv8 -> bv8, s2: bv8 -> bv8, s3: bv8 -> bv8, s4: bv8 -> bv8)

  function Xor(a: Half, b: Half): Half { Half(X(a.l, b.l), X(a.r, b.r)) }

  function XorBlock(x: Block, a: Half, b: Half): Block { Block(Xor(x.d1, a), Xor(x.d2, b)) }

  /** The diffusion layer on the bytes that left the S-boxes (section 2.4.1). */
  function P(t1: bv8, t2: bv8, t3: bv8, t4: bv8, t5: bv8, t6: bv8, t7: bv8, t8: bv8): Half {
    Half(Word(Sum6(t1, t3, t4, t6, t7, t8), Sum6(t1, t2, t4, t5, t7, t8),
              Sum6(t1, t2, t3, t5, t6, t8), Sum6(t2, t3, t4, t5, t6, t7)),
         Word(Sum5(t1, t2, t6, t7, t8), Sum5(t2, t3, t5, t7, t8),
              Sum5(t3, t4, t5, t6, t8), Sum5(t1, t4, t5, t6, t7)))
  }

  function SP(s: Sboxes, x: Half): Half {
    P(s.s1(Byte3(x.l)), s.s2(Byte2(x.l)), s.s3(Byte1(x.l)), s.s4(Byte0(x.l)),
      s.s2(Byte3(x.r)), s.s3(Byte2(x.r)), s.s4(Byte1(x.r)), s.s1(Byte0(x.r)))
  }

  /** The F-function (section 2.4.1). */
  function F(s: Sboxes, x: Half, k: Half): Half { SP(s, Xor(x, k)) }

  /** The FL-function (section 2.4.2). */
  function FL(x: Half, k: Half): Half {
    var r := X(x.r, Rol1(And(x.l, k.l)));
    Half(X(x.l, Or(r, k.r)), r)
  }

  /** The FLINV-function (section 2.4.3). */
  function FLInv(y: Half, k: Half): Half {
    var l := X(y.l, Or(y.r, k.r));
    Half(l, X(y.r, Rol1(And(l, k.l))))
  }

  /** Two Feistel rounds. */
  function Two(s: Sboxes, ka: Half, kb: Half, x: Block): Block {
    var d2 := Xor(x.d2, F(s, x.d1, ka));
    Block(Xor(x.d1, F(s, d2, kb)), d2)
  }

  /** n pairs of rounds with the subkeys from position i on. */
  function Rounds(s: Sboxes, k: seq<Half>, i: nat, n: nat, x: Block): Block
    requires i + 2 * n <= |k|
    decreases n
  {
    if n == 0 then x else Rounds(s, k, i + 2, n - 1, Two(s, k[i], k[i + 1], x))
  }

  /** Subkeys are listed as kw1, kw2, then six round keys and two FL keys in turn,
      then kw3 and kw4: 26 subkeys for 18 rounds, 34 for 24 rounds. */
  predicate Schedule(k: seq<Half>) { |k| == 26 || |k| == 34 }

  predicate LastBlock(k: seq<Half>, b: nat) { 8 * b + 10 == |k| }

  /** The cipher from its b-th block of six rounds on. */
  function FromBlock(s: Sboxes, k: seq<Half>, b: nat, x: Block): Block
    requires Schedule(k) && 8 * b + 10 <= |k|
    decreases |k| - 8 * b
  {
    var y := Rounds(s, k, 8 * b + 2, 3, x);
    if LastBlock(k, b) then XorBlock(y, k[|k| - 1], k[|k| - 2])
    else FromBlock(s, k, b + 1, Block(FL(y.d1, k[8 * b + 8]), FLInv(y.d2, k[8 * b + 9])))
  }

  /** Encryption (section 2.3); the ciphertext is d2 followed by d1. */
  function Cipher(s: Sboxes, k: seq<Half>, x: Block): Block
    requires Schedule(k)
  {
    FromBlock(s, k, 0, XorBlock(x, k[0], k[1]))
  }

  // ----- laws of Xor -----

  lemma XorAssoc(a: Half, b: Half, c: Half)
    ensures Xor(Xor(a, b), c) == Xor(a, Xor(b, c))
  {
    hide X;
    XAssoc(a.l, b.l, c.l);
    XAssoc(a.r, b.r, c.r);
  }

  lemma XorComm(a: Half, b: Half)
    ensures Xor(a, b) == Xor(b, a)
  {
    hide X;
    XComm(a.l, b.l);
    XComm(a.r, b.r);
  }

  lemma XorCancel(a: Half, b: Half)
    ensures Xor(Xor(a, b), b) == a
  {
    hide X;
    XCancel(a.l, b.l);
    XCancel(a.r, b.r);
  }

  lemma XorZero(a: Half)
    ensures Xor(a, ZERO) == a && Xor(ZERO, a) == a
  {
    hide X;
    XZero(a.l);
    XZero(a.r);
    XorComm(a, ZERO);
  }

  /** A mask on both operands disappears. */
  lemma XorCommon(a: Half, b: Half, m: Half)
    ensures Xor(Xor(a, m), Xor(b, m)) == Xor(a, b)
  {
    hide *;
    XorAssoc(a, m, Xor(b, m));
    XorComm(m, Xor(b, m));
    XorCancel(b, m);
  }

  /** A mask can be put on last. */
  lemma XorLast(a: Half, b: Half, m: Half)
    ensures Xor(Xor(a, m), b) == Xor(Xor(a, b), m)
  {
    hide *;
    XorAssoc(a, m, b);
    XorComm(m, b);
    XorAssoc(a, b, m);
  }

  // ----- FL and FLINV are inverse to each other and affine -----

  lemma FLInverse(x: Half, k: Half)
    ensures FLInv(FL(x, k), k) == x && FL(FLInv(x, k), k) == x
  {
    hide X, And, Or, Rol1;
    XCancel(x.l, Or(FL(x, k).r, k.r));
    XCancel(x.r, Rol1(And(x.l, k.l)));
    XCancel(x.r, Rol1(And(FLInv(x, k).l, k.l)));
    XCancel(x.l, Or(x.r, k.r));
  }

  /** What a mask on the argument of FL becomes on the result. */
  function FLMask(m: Half, k: Half): Half {
    var r := X(m.r, Rol1(And(m.l, k.l)));
    Half(X(m.l, And(r, Not(k.r))), r)
  }

  /** What a mask on the argument of FLINV becomes on the result. */
  function FLInvMask(m: Half, k: Half): Half {
    var l := X(m.l, And(m.r, Not(k.r)));
    Half(l, X(m.r, Rol1(And(l, k.l))))
  }

  lemma RolAnd(a: bv32, b: bv32, k: bv32)
    ensures Rol1(And(X(a, b), k)) == X(Rol1(And(a, k)), Rol1(And(b, k)))
  {
    hide *;
    AndX(a, b, k);
    RolX(And(a, k), And(b, k));
  }

  lemma FLAffine(x: Half, m: Half, k: Half)
    ensures FL(Xor(x, m), k) == Xor(FL(x, k), FLMask(m, k))
  {
    hide X, And, Or, Not, Rol1;
    RolAnd(x.l, m.l, k.l);
    XSwap(x.r, m.r, Rol1(And(x.l, k.l)), Rol1(And(m.l, k.l)));
    var r, t := FL(x, k).r, FLMask(m, k).r;
    OrX(r, t, k.r);
    XSwap(x.l, m.l, Or(r, k.r), And(t, Not(k.r)));
  }

  lemma FLInvAffine(x: Half, m: Half, k: Half)
    ensures FLInv(Xor(x, m), k) == Xor(FLInv(x, k), FLInvMask(m, k))
  {
    hide X, And, Or, Not, Rol1;
    OrX(x.r, m.r, k.r);
    XSwap(x.l, m.l, Or(x.r, k.r), And(m.r, Not(k.r)));
    var l, t := FLInv(x, k).l, FLInvMask(m, k).l;
    RolAnd(l, t, k.l);
    XSwap(x.r, m.r, Rol1(And(l, k.l)), Rol1(And(t, k.l)));
  }

  lemma MaskInverse(m: Half, k: Half)
    ensures FLMask(FLInvMask(m, k), k) == m
  {
    hide X, And, Or, Not, Rol1;
    XCancel(m.r, Rol1(And(FLInvMask(m, k).l, k.l)));
    XCancel(m.l, And(m.r, Not(k.r)));
  }
}
