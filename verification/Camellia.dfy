/** crypto/camellia.c: the cipher on subkeys in which kw2, kw4, half of P and each
    key addition have been moved. */
module Camellia {
  import opened Words
  import opened CamelliaCipher
  import opened CamelliaAbsorb

  // The lookup tables, by the equations that define them.
  function Sp1110(s: Sboxes, i: bv8): bv32 { Word(s.s1(i), s.s1(i), s.s1(i), 0) }
  function Sp0222(s: Sboxes, i: bv8): bv32 { Word(0, s.s2(i), s.s2(i), s.s2(i)) }
  function Sp3033(s: Sboxes, i: bv8): bv32 { Word(s.s3(i), 0, s.s3(i), s.s3(i)) }
  function Sp4404(s: Sboxes, i: bv8): bv32 { Word(s.s4(i), s.s4(i), 0, s.s4(i)) }

  function LookupL(s: Sboxes, x: bv32): bv32 {
    X(X(X(Sp1110(s, Byte3(x)), Sp0222(s, Byte2(x))), Sp3033(s, Byte1(x))), Sp4404(s, Byte0(x)))
  }

  function LookupR(s: Sboxes, x: bv32): bv32 {
    X(X(X(Sp1110(s, Byte0(x)), Sp0222(s, Byte3(x))), Sp3033(s, Byte2(x))), Sp4404(s, Byte1(x)))
  }

  /** CAMELLIA_ROUNDSM: what y becomes; the key is added after the lookups. */
  function RoundSM(s: Sboxes, x: Half, k: Half, y: Half): Half {
    var il := X(LookupL(s, x.l), k.l);
    var ir := X(LookupR(s, x.r), X(il, k.r));
    Half(X(y.l, ir), X(y.r, X(Ror8(il), ir)))
  }

  /** The inverse of the last half of P, applied to a round key. */
  function InvP(k: Half): Half {
    var dw := Rol8(X(k.l, k.r));
    Half(dw, X(k.l, dw))
  }

  // ----- the rounds add what SP gives -----

  lemma SixBytes(a: bv8, b: bv8, c: bv8, d: bv8, e: bv8, f: bv8)
    ensures XB(Sum3(a, b, c), Sum3(d, e, f)) == Sum6(d, e, f, b, c, a)
    ensures XB(Sum3(a, b, c), Sum3(d, e, f)) == Sum6(d, e, f, a, b, c)
  {}

  lemma FiveBytes1(a: bv8, b: bv8, c: bv8, d: bv8, e: bv8, f: bv8, g: bv8)
    ensures XB(Sum3(b, c, d), Sum6(a, c, d, e, f, g)) == Sum5(a, b, e, f, g)
  {}

  lemma Sums(t1: bv8, t2: bv8, t3: bv8, t4: bv8, t5: bv8, t6: bv8, t7: bv8, t8: bv8)
    ensures XB(Sum3(t8, t6, t7), Sum3(t1, t3, t4)) == Sum6(t1, t3, t4, t6, t7, t8)
    ensures XB(Sum3(t8, t5, t7), Sum3(t1, t2, t4)) == Sum6(t1, t2, t4, t5, t7, t8)
    ensures XB(Sum3(t8, t5, t6), Sum3(t1, t2, t3)) == Sum6(t1, t2, t3, t5, t6, t8)
    ensures XB(Sum3(t5, t6, t7), Sum3(t2, t3, t4)) == Sum6(t2, t3, t4, t5, t6, t7)
    ensures XB(Sum3(t2, t3, t4), Sum6(t1, t3, t4, t6, t7, t8)) == Sum5(t1, t2, t6, t7, t8)
    ensures XB(Sum3(t1, t3, t4), Sum6(t1, t2, t4, t5, t7, t8)) == Sum5(t2, t3, t5, t7, t8)
    ensures XB(Sum3(t1, t2, t4), Sum6(t1, t2, t3, t5, t6, t8)) == Sum5(t3, t4, t5, t6, t8)
    ensures XB(Sum3(t1, t2, t3), Sum6(t2, t3, t4, t5, t6, t7)) == Sum5(t1, t4, t5, t6, t7)
  {
    hide *;
    SixBytes(t8, t6, t7, t1, t3, t4);
    SixBytes(t8, t5, t7, t1, t2, t4);
    SixBytes(t8, t5, t6, t1, t2, t3);
    SixBytes(t5, t6, t7, t2, t3, t4);
    FiveBytes1(t1, t2, t3, t4, t6, t7, t8);
    FiveBytes2(t1, t2, t3, t4, t5, t7, t8);
    FiveBytes3(t1, t2, t3, t4, t5, t6, t8);
    FiveBytes4(t1, t2, t3, t4, t5, t6, t7);
  }

  lemma FiveBytes2(t1: bv8, t2: bv8, t3: bv8, t4: bv8, t5: bv8, t7: bv8, t8: bv8)
    ensures XB(Sum3(t1, t3, t4), Sum6(t1, t2, t4, t5, t7, t8)) == Sum5(t2, t3, t5, t7, t8)
  {}

  lemma FiveBytes3(t1: bv8, t2: bv8, t3: bv8, t4: bv8, t5: bv8, t6: bv8, t8: bv8)
    ensures XB(Sum3(t1, t2, t4), Sum6(t1, t2, t3, t5, t6, t8)) == Sum5(t3, t4, t5, t6, t8)
  {}

  lemma FiveBytes4(t1: bv8, t2: bv8, t3: bv8, t4: bv8, t5: bv8, t6: bv8, t7: bv8)
    ensures XB(Sum3(t1, t2, t3), Sum6(t2, t3, t4, t5, t6, t7)) == Sum5(t1, t4, t5, t6, t7)
  {}

  lemma SumOf3(a: bv8, b: bv8, c: bv8)
    ensures XB(XB(a, b), c) == Sum3(a, b, c)
  {}

  lemma Spread(a: bv8, b: bv8, c: bv8, d: bv8)
    ensures X(X(X(Word(a, a, a, 0), Word(0, b, b, b)), Word(c, 0, c, c)), Word(d, d, 0, d))
         == Word(Sum3(a, c, d), Sum3(a, b, d), Sum3(a, b, c), Sum3(b, c, d))
  {
    hide X, XB, Word, Sum3;
    WordX(a, a, a, 0, 0, b, b, b);
    XBZero(a);
    XBZero(b);
    WordX(a, XB(a, b), XB(a, b), b, c, 0, c, c);
    XBZero(XB(a, b));
    WordX(XB(a, c), XB(a, b), XB(XB(a, b), c), XB(b, c), d, d, 0, d);
    XBZero(XB(XB(a, b), c));
    SumOf3(a, c, d);
    SumOf3(a, b, d);
    SumOf3(a, b, c);
    SumOf3(b, c, d);
  }

  lemma SpreadsAreP(t1: bv8, t2: bv8, t3: bv8, t4: bv8, t5: bv8, t6: bv8, t7: bv8, t8: bv8, il: bv32, ir: bv32)
    requires il == Word(Sum3(t1, t3, t4), Sum3(t1, t2, t4), Sum3(t1, t2, t3), Sum3(t2, t3, t4))
    requires ir == Word(Sum3(t8, t6, t7), Sum3(t8, t5, t7), Sum3(t8, t5, t6), Sum3(t5, t6, t7))
    ensures P(t1, t2, t3, t4, t5, t6, t7, t8) == Half(X(ir, il), X(Ror8(il), X(ir, il)))
  {
    hide X, XB, Word, Ror8, Sum3, Sum5, Sum6;
    Sums(t1, t2, t3, t4, t5, t6, t7, t8);
    WordX(Sum3(t8, t6, t7), Sum3(t8, t5, t7), Sum3(t8, t5, t6), Sum3(t5, t6, t7),
          Sum3(t1, t3, t4), Sum3(t1, t2, t4), Sum3(t1, t2, t3), Sum3(t2, t3, t4));
    WordRor(Sum3(t1, t3, t4), Sum3(t1, t2, t4), Sum3(t1, t2, t3), Sum3(t2, t3, t4));
    WordX(Sum3(t2, t3, t4), Sum3(t1, t3, t4), Sum3(t1, t2, t4), Sum3(t1, t2, t3),
          Sum6(t1, t3, t4, t6, t7, t8), Sum6(t1, t2, t4, t5, t7, t8),
          Sum6(t1, t2, t3, t5, t6, t8), Sum6(t2, t3, t4, t5, t6, t7));
  }

  /** The table lookups, combined as the code does, are the S-boxes and P. */
  lemma LookupsAreSP(s: Sboxes, x: Half)
    ensures var il, ir := LookupL(s, x.l), LookupR(s, x.r);
      SP(s, x) == Half(X(ir, il), X(Ror8(il), X(ir, il)))
  {
    hide X, Word, Ror8, Sum3, P;
    var t1, t2, t3, t4 := s.s1(Byte3(x.l)), s.s2(Byte2(x.l)), s.s3(Byte1(x.l)), s.s4(Byte0(x.l));
    var t5, t6, t7, t8 := s.s2(Byte3(x.r)), s.s3(Byte2(x.r)), s.s4(Byte1(x.r)), s.s1(Byte0(x.r));
    Spread(t1, t2, t3, t4);
    Spread(t8, t5, t6, t7);
    SpreadsAreP(t1, t2, t3, t4, t5, t6, t7, t8, LookupL(s, x.l), LookupR(s, x.r));
  }

  /** With InvP applied to its key, a round adds the key after SP. */
  lemma RoundAddsKeyLast(s: Sboxes, x: Half, k: Half, y: Half)
    ensures RoundSM(s, x, InvP(k), y) == Xor(y, Xor(SP(s, x), k))
  {
    hide X, Ror8, Rol8, SP, LookupL, LookupR;
    LookupsAreSP(s, x);
    var il, ir, dw := LookupL(s, x.l), LookupR(s, x.r), Rol8(X(k.l, k.r));
    // the left word: ir + (il + dw) + (kl + dw)
    XCommon(il, k.l, dw);
    XAssoc(ir, il, k.l);
    // the right word
    RorX(il, dw);
    RorRol(X(k.l, k.r));
    var u := X(ir, il);
    XSwap(Ror8(il), X(k.l, k.r), u, k.l);
    XComm(k.l, k.r);
    XCancel(k.r, k.l);
  }

  lemma XCommon(a: bv32, b: bv32, m: bv32)
    ensures X(X(a, m), X(b, m)) == X(a, b)
  {
    hide *;
    XSwap(a, m, b, m);
    XAssoc(X(a, b), m, m);
    XCancel(X(a, b), m);
    XAssoc(X(a, b), m, m);
  }

  // ----- camellia_do_encrypt and camellia_do_decrypt -----

  /** Rounds are counted in groups of six, starting at subkeys 2, 10, 18 and 26. */
  predicate ValidMax(max: nat) { max == 24 || max == 32 }

  function FastTwo(s: Sboxes, ka: Half, kb: Half, x: Block): Block {
    var d2 := RoundSM(s, x.d1, ka, x.d2);
    Block(RoundSM(s, d2, kb, x.d1), d2)
  }

  function FastRounds(s: Sboxes, t: seq<Half>, i: nat, n: nat, x: Block): Block
    requires i + 2 * n <= |t|
    decreases n
  {
    if n == 0 then x else FastRounds(s, t, i + 2, n - 1, FastTwo(s, t[i], t[i + 1], x))
  }

  /** CAMELLIA_FLS */
  function FLS(x: Block, ka: Half, kb: Half): Block { Block(FL(x.d1, ka), FLInv(x.d2, kb)) }

  /** Main iteration of the encryption from block b of six rounds on. */
  function EncFrom(s: Sboxes, t: seq<Half>, max: nat, b: nat, x: Block): Block
    requires ValidMax(max) && max < |t| && 8 * b < max
    decreases max - 8 * b
  {
    var y := FastRounds(s, t, 8 * b + 2, 3, x);
    if 8 * b + 8 == max then y else EncFrom(s, t, max, b + 1, FLS(y, t[8 * b + 8], t[8 * b + 9]))
  }

  /** camellia_do_encrypt: what the caller stores as ciphertext is d2 and then d1. */
  function Encrypt(s: Sboxes, t: seq<Half>, max: nat, x: Block): Block
    requires ValidMax(max) && max < |t|
  {
    var y := EncFrom(s, t, max, 0, Block(Xor(x.d1, t[0]), x.d2));
    Block(y.d1, Xor(y.d2, t[max]))
  }

  function FastRoundsBack(s: Sboxes, t: seq<Half>, i: nat, n: nat, x: Block): Block
    requires i + 2 * n <= |t|
    decreases n
  {
    if n == 0 then x else FastTwo(s, t[i + 1], t[i], FastRoundsBack(s, t, i + 2, n - 1, x))
  }

  /** Main iteration of the decryption down to block b. */
  function DecTo(s: Sboxes, t: seq<Half>, max: nat, b: nat, x: Block): Block
    requires ValidMax(max) && max < |t| && 8 * b < max
    decreases max - 8 * b
  {
    var y := if 8 * b + 8 == max then x else FLS(DecTo(s, t, max, b + 1, x), t[8 * b + 9], t[8 * b + 8]);
    FastRoundsBack(s, t, 8 * b + 2, 3, y)
  }

  /** camellia_do_decrypt */
  function Decrypt(s: Sboxes, t: seq<Half>, max: nat, x: Block): Block
    requires ValidMax(max) && max < |t|
  {
    var y := DecTo(s, t, max, 0, Block(Xor(x.d1, t[max]), x.d2));
    Block(y.d1, Xor(y.d2, t[0]))
  }

  function Swap(x: Block): Block { Block(x.d2, x.d1) }

  // ----- decryption undoes encryption, whatever is in the subkey table -----

  lemma RoundTwice(s: Sboxes, x: Half, k: Half, y: Half)
    ensures RoundSM(s, x, k, RoundSM(s, x, k, y)) == y
  {
    hide X, LookupL, LookupR, Ror8;
    var il := X(LookupL(s, x.l), k.l);
    var ir := X(LookupR(s, x.r), X(il, k.r));
    XCancel(y.l, ir);
    XCancel(y.r, X(Ror8(il), ir));
  }

  lemma {:induction false} RoundsBack(s: Sboxes, t: seq<Half>, i: nat, n: nat, x: Block)
    requires i + 2 * n <= |t|
    ensures FastRoundsBack(s, t, i, n, Swap(FastRounds(s, t, i, n, x))) == Swap(x)
    decreases n
  {
    hide RoundSM;
    if n > 0 {
      var y := FastTwo(s, t[i], t[i + 1], x);
      RoundsBack(s, t, i + 2, n - 1, y);
      RoundTwice(s, y.d2, t[i + 1], x.d1);
      RoundTwice(s, x.d1, t[i], x.d2);
    }
  }

  lemma {:induction false} DecToUndoes(s: Sboxes, t: seq<Half>, max: nat, b: nat, x: Block)
    requires ValidMax(max) && max < |t| && 8 * b < max
    ensures DecTo(s, t, max, b, Swap(EncFrom(s, t, max, b, x))) == Swap(x)
    decreases max - 8 * b
  {
    hide FastRounds, FastRoundsBack, FL, FLInv;
    var y := FastRounds(s, t, 8 * b + 2, 3, x);
    RoundsBack(s, t, 8 * b + 2, 3, x);
    if 8 * b + 8 != max {
      var k1, k2 := t[8 * b + 8], t[8 * b + 9];
      DecToUndoes(s, t, max, b + 1, FLS(y, k1, k2));
      FLInverse(y.d1, k1);
      FLInverse(y.d2, k2);
    }
  }

  /** Decrypting a ciphertext with the same table gives the plaintext back. */
  lemma DecryptUndoesEncrypt(s: Sboxes, t: seq<Half>, max: nat, x: Block)
    requires ValidMax(max) && max < |t|
    ensures Swap(Decrypt(s, t, max, Swap(Encrypt(s, t, max, x)))) == x
  {
    hide EncFrom, DecTo, Xor;
    var x1 := Block(Xor(x.d1, t[0]), x.d2);
    var y := EncFrom(s, t, max, 0, x1);
    DecToUndoes(s, t, max, 0, x1);
    XorCancel(y.d2, t[max]);
    XorCancel(x.d1, t[0]);
  }

  // ----- the second half of camellia_setup_tail -----

  /** The mask the other half carries when round key i is used. */
  function Left(a: seq<Half>, i: nat): Half
    requires Schedule(a) && 2 <= i < |a| - 2 && i % 8 >= 2
  {
    if i == 2 then ZERO else if i % 8 == 2 then FLInvMask(a[i - 3], a[i - 1]) else a[i - 1]
  }

  /** The mask that half has to carry afterwards. */
  function Right(a: seq<Half>, i: nat): Half
    requires Schedule(a) && 2 <= i < |a| - 2 && i % 8 >= 2
  {
    if i + 3 == |a| then ZERO else if i % 8 == 7 then FLInvMask(a[i + 3], a[i + 1]) else a[i + 1]
  }

  /** Entry i of the subkey table for absorbed subkeys a; entry 1 is never used. */
  function TableEntry(a: seq<Half>, i: nat): Half
    requires Schedule(a) && i < |a| - 1
  {
    if i == 0 then Xor(a[0], a[2])
    else if i == |a| - 2 then Xor(a[i], a[i - 1])
    else if i % 8 < 2 then a[i]
    else InvP(Xor(Left(a, i), Right(a, i)))
  }

  ghost predicate IsTable(t: seq<Half>, a: seq<Half>) {
    Schedule(a) && |a| - 1 <= |t| && forall i :: 0 <= i < |a| - 1 && i != 1 ==> t[i] == TableEntry(a, i)
  }

  lemma XorFold(a: Half, m: Half, t: Half, k: Half)
    ensures Xor(Xor(a, m), Xor(t, Xor(m, k))) == Xor(Xor(a, t), k)
  {
    hide *;
    XorAssoc(t, m, k);
    XorComm(t, m);
    XorAssoc(m, t, k);
    XorAssoc(Xor(a, m), m, Xor(t, k));
    XorCancel(a, m);
    XorAssoc(a, t, k);
  }

  /** Two rounds of the code on masked halves. */
  lemma FoldedTwo(s: Sboxes, m: Half, ka: Half, kb: Half, n: Half, x: Block)
    ensures var y := Two(s, ka, kb, x);
      FastTwo(s, InvP(Xor(m, kb)), InvP(Xor(ka, n)), Block(Xor(x.d1, ka), Xor(x.d2, m)))
      == Block(Xor(y.d1, n), Xor(y.d2, kb))
  {
    hide Xor, RoundSM, InvP, SP;
    var u := F(s, x.d1, ka);
    RoundAddsKeyLast(s, Xor(x.d1, ka), Xor(m, kb), Xor(x.d2, m));
    XorFold(x.d2, m, u, kb);
    var d2 := Xor(x.d2, u);
    RoundAddsKeyLast(s, Xor(d2, kb), Xor(ka, n), Xor(x.d1, ka));
    XorFold(x.d1, ka, F(s, d2, kb), n);
  }

  lemma {:induction false} FoldedRounds(s: Sboxes, t: seq<Half>, a: seq<Half>, b: nat, i: nat, n: nat, x: Block)
    requires IsTable(t, a) && i + 2 * n == 8 * b + 8 <= |a| - 2 && 1 <= n <= 3
    requires i % 8 == 8 - 2 * n && (8 * b + 7) % 8 == 7 && 8 * b + 7 < |a| - 2
    ensures var y := Rounds(s, a, i, n, x);
      FastRounds(s, t, i, n, Block(Xor(x.d1, a[i]), Xor(x.d2, Left(a, i))))
      == Block(Xor(y.d1, Right(a, 8 * b + 7)), Xor(y.d2, a[8 * b + 7]))
    decreases n
  {
    hide Xor, FastTwo, Two, InvP, FLInvMask;
    FoldedTwo(s, Left(a, i), a[i], a[i + 1], Right(a, i + 1), x);
    assert t[i] == TableEntry(a, i) && t[i + 1] == TableEntry(a, i + 1);
    if n > 1 {
      FoldedRounds(s, t, a, b, i + 2, n - 1, Two(s, a[i], a[i + 1], x));
    }
  }

  lemma {:induction false} FoldedFromBlock(s: Sboxes, t: seq<Half>, a: seq<Half>, b: nat, x: Block)
    requires IsTable(t, a) && 8 * b + 10 <= |a| && a[|a| - 1] == ZERO
    ensures var y := EncFrom(s, t, |a| - 2, b, Block(Xor(x.d1, a[8 * b + 2]), Xor(x.d2, Left(a, 8 * b + 2))));
      Block(y.d1, Xor(y.d2, t[|a| - 2])) == FromBlock(s, a, b, x)
    decreases |a| - 8 * b
  {
    hide Xor, FastRounds, Rounds, FL, FLInv, FLInvMask, FLMask, InvP;
    var y := Rounds(s, a, 8 * b + 2, 3, x);
    FoldedRounds(s, t, a, b, 8 * b + 2, 3, x);
    if LastBlock(a, b) {
      XorZero(y.d1);
      XorCommon(y.d2, a[|a| - 2], a[|a| - 3]);
    } else {
      var k1, k2 := a[8 * b + 8], a[8 * b + 9];
      assert t[8 * b + 8] == TableEntry(a, 8 * b + 8) && t[8 * b + 9] == TableEntry(a, 8 * b + 9);
      FLAffine(y.d1, FLInvMask(a[8 * b + 10], k1), k1);
      MaskInverse(a[8 * b + 10], k1);
      FLInvAffine(y.d2, a[8 * b + 7], k2);
      FoldedFromBlock(s, t, a, b + 1, Block(FL(y.d1, k1), FLInv(y.d2, k2)));
    }
  }

  /** Moving the key additions behind the F-functions does not change the cipher. */
  lemma FoldingKeepsCipher(s: Sboxes, t: seq<Half>, a: seq<Half>, x: Block)
    requires IsTable(t, a) && a[1] == ZERO && a[|a| - 1] == ZERO
    ensures Encrypt(s, t, |a| - 2, x) == Cipher(s, a, x)
  {
    hide Xor, EncFrom, FromBlock, InvP;
    var x1 := XorBlock(x, a[0], a[1]);
    FoldedFromBlock(s, t, a, 0, x1);
    XorZero(x.d2);
    XorAssoc(x.d1, a[0], a[2]);
  }

  /** The code's encryption with the table made from any subkeys is the cipher with
      those subkeys. */
  lemma EncryptIsCipher(s: Sboxes, t: seq<Half>, k: seq<Half>, x: Block)
    requires Schedule(k) && IsTable(t, Absorbed(k))
    ensures Encrypt(s, t, |k| - 2, x) == Cipher(s, k, x)
  {
    hide Encrypt, Cipher, IsTable;
    AbsorptionKeepsCipher(s, k, x);
    FoldingKeepsCipher(s, t, Absorbed(k), x);
  }
}
