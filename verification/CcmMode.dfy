/** Authenticated encryption with CBC-MAC and counter mode: sections 2.2 to 2.5 of
    RFC 3610, for any block cipher of 16-byte blocks and any key stream. */
module CcmMode {
  import opened Words
  import opened CbcMode

  const BS: nat := 16

  /** The block cipher, and the key stream that counter mode makes of a counter block. */
  datatype Keyed = Keyed(enc: Bytes -> Bytes, stream: (Bytes, nat) -> Bytes)

  ghost predicate KeyedOk(k: Keyed) {
    && (forall x: Bytes :: |x| == BS ==> |k.enc(x)| == BS)
    && (forall iv: Bytes, n: nat :: |iv| == BS ==> |k.stream(iv, n)| == n)
  }

  function Zeros(n: nat): (z: Bytes)
    ensures |z| == n
  {
    seq(n, i => 0)
  }

  /** n in k octets, most significant first. */
  function BE(n: nat, k: nat): (b: Bytes)
    ensures |b| == k
  {
    if k == 0 then [] else BE(n / 256, k - 1) + [(n % 256) as bv8]
  }

  /** The number that octets stand for. */
  function FromBE(b: Bytes): nat { if b == [] then 0 else FromBE(b[..|b| - 1]) * 256 + (b[|b| - 1] as nat) }

  function Pow256(k: nat): (p: nat)
    ensures p > 0
  {
    if k == 0 then 1 else 256 * Pow256(k - 1)
  }

  /** m padded with zeros to whole blocks. */
  function Padded(m: Bytes): Bytes
    decreases |m|
  {
    if m == [] then [] else if |m| < BS then m + Zeros(BS - |m|) else m[..BS] + Padded(m[BS..])
  }

  /** CBC-MAC from x over the blocks of data. */
  ghost function CbcMac(k: Keyed, x: Bytes, data: Bytes): (r: Bytes)
    requires KeyedOk(k) && |x| == BS
    ensures |r| == BS
    decreases |data|
  {
    if |data| < BS then x else CbcMac(k, k.enc(Xor(x, data[..BS])), data[BS..])
  }

  /** How the length of the additional data is encoded (section 2.2). */
  function AdataLength(a: nat): Bytes {
    if a < 0xFF00 then BE(a, 2) else [0xFF, 0xFE] + BE(a, 4)
  }

  predicate ValidTag(m: nat) { m in {4, 6, 8, 10, 12, 14, 16} }

  /** iv[0] holds L - 1, the nonce follows. */
  predicate ValidIv(iv: Bytes) { |iv| == BS && 1 <= iv[0] as nat <= 7 }

  function Flags(iv0: bv8, m: nat, adata: bool): bv8
    requires ValidTag(m)
  {
    (if adata then 64 else 0) | ((8 * ((m - 2) / 2)) as bv8) | iv0
  }

  function NonceEnd(iv: Bytes): nat
    requires ValidIv(iv)
  {
    15 - iv[0] as nat
  }

  /** The first block B_0. */
  function B0(iv: Bytes, m: nat, adata: bool, n: nat): (b: Bytes)
    requires ValidIv(iv) && ValidTag(m)
    ensures |b| == BS
  {
    [Flags(iv[0], m, adata)] + iv[1..NonceEnd(iv)] + BE(n, iv[0] as nat + 1)
  }

  /** The authentication value before it is truncated. */
  ghost function Mac(k: Keyed, iv: Bytes, m: nat, a: Bytes, p: Bytes): (r: Bytes)
    requires KeyedOk(k) && ValidIv(iv) && ValidTag(m)
    ensures |r| == BS
  {
    CbcMac(k, k.enc(B0(iv, m, a != [], |p|)), (if a == [] then [] else Padded(AdataLength(|a|) + a)) + Padded(p))
  }

  /** The counter block with which the key stream starts: A_0. */
  function A0(iv: Bytes): (b: Bytes)
    requires ValidIv(iv)
    ensures |b| == BS
  {
    iv[..NonceEnd(iv)] + Zeros(iv[0] as nat + 1)
  }

  /** What is sent: the encrypted message and the encrypted authentication value. */
  ghost function Sealed(k: Keyed, iv: Bytes, m: nat, a: Bytes, p: Bytes): (c: Bytes)
    requires KeyedOk(k) && ValidIv(iv) && ValidTag(m)
    ensures |c| == |p| + m
  {
    var s := k.stream(A0(iv), BS + |p|);
    Xor(p, s[BS..]) + Xor(Mac(k, iv, m, a, p), s[..BS])[..m]
  }

  // ----- the buffered MAC -----

  /** The chaining value and the bytes that do not fill a block yet. */
  ghost function Absorbed(k: Keyed, x: Bytes, data: Bytes): (r: (Bytes, Bytes))
    requires KeyedOk(k) && |x| == BS
    ensures |r.0| == BS && |r.1| < BS
    decreases |data|
  {
    if |data| < BS then (x, data) else Absorbed(k, k.enc(Xor(x, data[..BS])), data[BS..])
  }

  lemma AbsorbBlock(k: Keyed, x: Bytes, b: Bytes, rest: Bytes)
    requires KeyedOk(k) && |x| == BS == |b|
    ensures var y := k.enc(Xor(x, b)); |y| == BS && Absorbed(k, x, b + rest) == Absorbed(k, y, rest)
  {
    hide Xor;
    assert (b + rest)[..BS] == b && (b + rest)[BS..] == rest;
  }

  /** Absorbing data piece by piece, with a buffer for what is left over, is absorbing
      it all at once. */
  lemma {:induction false} AbsorbedAppend(k: Keyed, x: Bytes, a: Bytes, b: Bytes)
    requires KeyedOk(k) && |x| == BS
    ensures Absorbed(k, x, a + b) == Absorbed(k, Absorbed(k, x, a).0, Absorbed(k, x, a).1 + b)
    decreases |a|
  {
    hide Xor, KeyedOk;
    if |a| >= BS {
      var u, r := a[..BS], a[BS..];
      Split(a, BS, b);
      AbsorbBlock(k, x, u, r);
      AbsorbBlock(k, x, u, r + b);
      AbsorbedAppend(k, k.enc(Xor(x, u)), r, b);
    }
  }

  /** What is left over is padded with zeros and absorbed. */
  ghost function Finished(k: Keyed, s: (Bytes, Bytes)): (r: Bytes)
    requires KeyedOk(k) && |s.0| == BS && |s.1| < BS
    ensures |r| == BS
  {
    if s.1 == [] then s.0 else k.enc(Xor(s.0, s.1 + Zeros(BS - |s.1|)))
  }

  lemma {:induction false} FinishedIsMac(k: Keyed, x: Bytes, data: Bytes)
    requires KeyedOk(k) && |x| == BS
    ensures Finished(k, Absorbed(k, x, data)) == CbcMac(k, x, Padded(data))
    decreases |data|
  {
    hide Xor, Zeros;
    if data == [] {
    } else if |data| < BS {
      var p := Padded(data);
      assert p[..BS] == p && p[BS..] == [];
    } else {
      var p := Padded(data);
      assert p[..BS] == data[..BS] && p[BS..] == Padded(data[BS..]);
      FinishedIsMac(k, k.enc(Xor(x, data[..BS])), data[BS..]);
    }
  }

  lemma {:induction false} MacAppend(k: Keyed, x: Bytes, a: Bytes, b: Bytes)
    requires KeyedOk(k) && |x| == BS
    ensures CbcMac(k, x, Padded(a) + b) == CbcMac(k, CbcMac(k, x, Padded(a)), b)
    decreases |a|
  {
    hide Xor, Zeros;
    if a == [] {
      assert Padded(a) + b == b;
    } else {
      var p := Padded(a);
      var r := if |a| < BS then [] else a[BS..];
      assert |p| >= BS && p[BS..] == Padded(r);
      assert (p + b)[..BS] == p[..BS] && (p + b)[BS..] == Padded(r) + b;
      MacAppend(k, k.enc(Xor(x, p[..BS])), r, b);
    }
  }

  // ----- lengths -----

  lemma {:induction false} BEFrom(n: nat, k: nat)
    requires n < Pow256(k)
    ensures FromBE(BE(n, k)) == n
    decreases k
  {
    if k > 0 {
      var b := BE(n, k);
      assert b[..|b| - 1] == BE(n / 256, k - 1);
      BEFrom(n / 256, k - 1);
      OctetBack(n % 256);
    }
  }

  /** Counting up to n reaches the octet with that value: cheaper for the verifier than
      the bits of n. */
  lemma {:induction false} OctetReached(n: nat) returns (b: bv8)
    requires n < 256
    ensures b as int == n
    decreases n
  {
    b := 0;
    if n > 0 {
      b := OctetReached(n - 1);
      OctetNext(b);
      b := b + 1;
    }
  }

  lemma OctetNext(b: bv8)
    requires b != 255
    ensures (b + 1) as int == b as int + 1
  {}

  lemma OctetBack(n: int)
    requires 0 <= n < 256
    ensures (n as bv8) as int == n
  {
    var b := OctetReached(n);
    OctetAgain(b);
  }

  lemma OctetAgain(b: bv8)
    ensures (b as int) as bv8 == b
  {}

  lemma {:induction false} FromBEBelow(b: Bytes)
    ensures FromBE(b) < Pow256(|b|)
    decreases |b|
  {
    if b != [] { FromBEBelow(b[..|b| - 1]); }
  }

  /** A length field holds the length exactly when it is below 256^L; one more, which
      set_msg_len still accepts for L below 4, is stored as zero. */
  lemma LengthFieldFaithful(n: nat, l: nat)
    ensures FromBE(BE(n, l)) == n <==> n < Pow256(l)
  {
    FromBEBelow(BE(n, l));
    if n < Pow256(l) { BEFrom(n, l); }
  }

  /** A field wider than four octets is zeros and the 32-bit length. */
  lemma WideField(n: nat, l: nat)
    requires 4 <= l && n < Pow256(4)
    ensures BE(n, l) == Zeros(l - 4) + BE(n, 4)
  {
    NarrowSteps(n);
    assert Shifted(n, 4) == Shifted(n / 256, 3) == Shifted(n / 256 / 256, 2) == Shifted(n / 256 / 256 / 256, 1);
    assert Shifted(n / 256 / 256 / 256, 1) == Shifted(n / 256 / 256 / 256 / 256, 0);
    WideZeros(n, l, 4);
  }

  lemma NarrowSteps(n: nat)
    requires n < Pow256(4)
    ensures n / 256 / 256 / 256 / 256 == 0
  {
    assert Pow256(1) == 256 && Pow256(2) == 65536 && Pow256(3) == 16777216 && Pow256(4) == 4294967296;
  }

  lemma {:induction false} ZeroField(l: nat)
    ensures BE(0, l) == Zeros(l)
    decreases l
  {
    if l > 0 {
      ZeroField(l - 1);
      assert Zeros(l) == Zeros(l - 1) + [0];
    }
  }

  function Shifted(n: nat, k: nat): nat { if k == 0 then n else Shifted(n / 256, k - 1) }

  lemma {:induction false} WideZeros(n: nat, l: nat, k: nat)
    requires k <= l && Shifted(n, k) == 0
    ensures BE(n, l) == Zeros(l - k) + BE(n, k)
    decreases k
  {
    if k == 0 {
      ZeroField(l);
      assert Zeros(l) + [] == Zeros(l);
    } else {
      WideZeros(n / 256, l - 1, k - 1);
    }
  }

  // ----- opening what was sealed -----

  datatype Error = EINVAL | EOVERFLOW | EBADMSG
  datatype Result = Ok(data: Bytes) | Err(error: Error)

  lemma XorTake(a: Bytes, b: Bytes, m: nat)
    requires |a| == |b| && m <= |a|
    ensures Xor(a, b)[..m] == Xor(a[..m], b[..m])
  {
    hide XB;
  }

  lemma XorBack(a: Bytes, b: Bytes, c: Bytes)
    requires |a| == |b| == |c| && Xor(a, b) == c
    ensures a == Xor(c, b)
  {
    hide Xor;
    XorTwice(a, b);
  }

  /** Decryption accepts a message exactly when it is the sealed form of what it
      returns: the tag is the one that belongs to the decrypted text. */
  lemma OpensExactlySealed(k: Keyed, iv: Bytes, m: nat, a: Bytes, c: Bytes, p: Bytes)
    requires KeyedOk(k) && ValidIv(iv) && ValidTag(m) && |c| == |p| + m
    ensures var s := k.stream(A0(iv), BS + |p|);
      Sealed(k, iv, m, a, p) == c <==>
      p == Xor(c[..|p|], s[BS..]) && Xor(c[|p|..], s[..m]) == Mac(k, iv, m, a, p)[..m]
  {
    hide Xor, Mac, A0;
    var s := k.stream(A0(iv), BS + |p|);
    var t := Mac(k, iv, m, a, p);
    XorTake(t, s[..BS], m);
    assert s[..BS][..m] == s[..m];
    XorTwice(p, s[BS..]);
    XorTwice(c[..|p|], s[BS..]);
    XorTwice(t[..m], s[..m]);
    XorTwice(c[|p|..], s[..m]);
    assert c == c[..|p|] + c[|p|..];
    assert Sealed(k, iv, m, a, p)[..|p|] == Xor(p, s[BS..]) && Sealed(k, iv, m, a, p)[|p|..] == Xor(t[..m], s[..m]);
  }
}
