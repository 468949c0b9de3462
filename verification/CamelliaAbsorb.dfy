/** The first half of camellia_setup_tail (crypto/camellia.c): kw2 and kw4 are
    absorbed into the other subkeys, through the FL layers, without changing the
    cipher. */
module CamelliaAbsorb {
  import opened Words
  import opened CamelliaCipher

  /** kw2 as it reaches block b: it stays on d2. */
  function Kw2(k: seq<Half>, b: nat): Half
    requires Schedule(k) && 8 * b + 10 <= |k|
  {
    if b == 0 then k[1] else FLInvMask(Kw2(k, b - 1), k[8 * b + 1])
  }

  /** kw4 as it must leave block b: it stays on d1. */
  function Kw4(k: seq<Half>, b: nat): Half
    requires Schedule(k) && 8 * b + 10 <= |k|
    decreases |k| - 8 * b
  {
    if LastBlock(k, b) then k[|k| - 1] else FLInvMask(Kw4(k, b + 1), k[8 * b + 8])
  }

  /** Subkey i after the absorption. */
  function AbsorbedKey(k: seq<Half>, i: nat): Half
    requires Schedule(k) && i < |k|
  {
    if i == 0 then Xor(k[0], Kw4(k, 0))
    else if i == 1 || i == |k| - 1 then ZERO
    else if i == |k| - 2 then Xor(k[i], Kw2(k, i / 8 - 1))
    else if i % 8 < 2 then k[i]
    else if i % 2 == 0 then Xor(k[i], Kw4(k, i / 8))
    else Xor(k[i], Kw2(k, i / 8))
  }

  function Absorbed(k: seq<Half>): (a: seq<Half>)
    requires Schedule(k)
    ensures |a| == |k| && Schedule(a)
  {
    seq(|k|, i requires 0 <= i < |k| => AbsorbedKey(k, i))
  }

  lemma MaskedTwo(s: Sboxes, ka: Half, kb: Half, x: Block, p: Half, q: Half)
    ensures Two(s, Xor(ka, p), Xor(kb, q), XorBlock(x, p, q)) == XorBlock(Two(s, ka, kb, x), p, q)
  {
    hide Xor, SP;
    XorCommon(x.d1, ka, p);
    var t := F(s, x.d1, ka);
    XorLast(x.d2, t, q);
    var d2 := Xor(x.d2, t);
    XorCommon(d2, kb, q);
    XorLast(x.d1, F(s, d2, kb), p);
  }

  lemma {:induction false} MaskedRounds(s: Sboxes, k: seq<Half>, a: seq<Half>, i: nat, n: nat, x: Block, p: Half, q: Half)
    requires i + 2 * n <= |k| == |a|
    requires forall j :: i <= j < i + 2 * n ==> a[j] == Xor(k[j], if (j - i) % 2 == 0 then p else q)
    ensures Rounds(s, a, i, n, XorBlock(x, p, q)) == XorBlock(Rounds(s, k, i, n, x), p, q)
    decreases n
  {
    hide Xor, XorBlock, Two;
    if n > 0 {
      MaskedTwo(s, k[i], k[i + 1], x, p, q);
      MaskedRounds(s, k, a, i + 2, n - 1, Two(s, k[i], k[i + 1], x), p, q);
    }
  }

  lemma BlockMasked(s: Sboxes, k: seq<Half>, b: nat, x: Block)
    requires Schedule(k) && 8 * b + 10 <= |k|
    ensures var p, q := Kw4(k, b), Kw2(k, b);
      Rounds(s, Absorbed(k), 8 * b + 2, 3, XorBlock(x, p, q)) == XorBlock(Rounds(s, k, 8 * b + 2, 3, x), p, q)
  {
    hide Xor, XorBlock, Rounds, Kw2, Kw4;
    MaskedRounds(s, k, Absorbed(k), 8 * b + 2, 3, x, Kw4(k, b), Kw2(k, b));
  }

  /** The keys that follow the last block. */
  lemma EndKeys(k: seq<Half>, b: nat)
    requires Schedule(k) && 8 * b + 10 == |k|
    ensures Kw4(k, b) == k[|k| - 1]
    ensures Absorbed(k)[|k| - 1] == ZERO && Absorbed(k)[|k| - 2] == Xor(k[|k| - 2], Kw2(k, b))
  {
    hide Xor, Kw2;
  }

  /** The keys of the FL layer behind another block. */
  lemma LayerKeys(k: seq<Half>, b: nat)
    requires Schedule(k) && 8 * b + 18 <= |k|
    ensures Absorbed(k)[8 * b + 8] == k[8 * b + 8] && Absorbed(k)[8 * b + 9] == k[8 * b + 9]
    ensures Kw4(k, b) == FLInvMask(Kw4(k, b + 1), k[8 * b + 8]) && Kw2(k, b + 1) == FLInvMask(Kw2(k, b), k[8 * b + 9])
  {
    hide FLInvMask;
  }

  lemma {:induction false} AbsorbedFromBlock(s: Sboxes, k: seq<Half>, b: nat, x: Block)
    requires Schedule(k) && 8 * b + 10 <= |k|
    ensures FromBlock(s, Absorbed(k), b, XorBlock(x, Kw4(k, b), Kw2(k, b))) == FromBlock(s, k, b, x)
    decreases |k| - 8 * b
  {
    hide Xor, Rounds, FL, FLInv, FLInvMask, FLMask, Absorbed, Kw2, Kw4;
    var p, q := Kw4(k, b), Kw2(k, b);
    var y := Rounds(s, k, 8 * b + 2, 3, x);
    BlockMasked(s, k, b, x);
    if LastBlock(k, b) {
      EndKeys(k, b);
      XorZero(Xor(y.d1, p));
      XorCommon(y.d2, k[|k| - 2], q);
    } else {
      var k1, k2 := k[8 * b + 8], k[8 * b + 9];
      LayerKeys(k, b);
      FLAffine(y.d1, p, k1);
      MaskInverse(Kw4(k, b + 1), k1);
      FLInvAffine(y.d2, q, k2);
      AbsorbedFromBlock(s, k, b + 1, Block(FL(y.d1, k1), FLInv(y.d2, k2)));
    }
  }

  /** Absorption does not change the cipher, whatever the subkeys are. */
  lemma AbsorptionKeepsCipher(s: Sboxes, k: seq<Half>, x: Block)
    requires Schedule(k)
    ensures Cipher(s, Absorbed(k), x) == Cipher(s, k, x)
    ensures Absorbed(k)[1] == ZERO && Absorbed(k)[|k| - 1] == ZERO
  {
    hide Xor, FromBlock;
    AbsorbedFromBlock(s, k, 0, XorBlock(x, k[0], k[1]));
    XorAssoc(x.d1, k[0], Kw4(k, 0));
    XorCancel(x.d2, k[1]);
    XorZero(x.d2);
  }
}
