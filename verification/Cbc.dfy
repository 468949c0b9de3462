/** crypto/cbc.c: the segment and in-place loops, on the bytes of one step of a walk. */
module Cbc {
  import opened Words
  import opened CbcMode

  /** was with the bytes from o on replaced by v. */
  function Put(was: Bytes, o: nat, v: Bytes): (now: Bytes)
    requires o + |v| <= |was|
    ensures |now| == |was|
  {
    was[..o] + v + was[o + |v|..]
  }

  lemma PutBytes(was: Bytes, now: Bytes, o: nat, v: Bytes)
    requires o + |v| <= |was| == |now|
    requires forall k :: 0 <= k < |was| ==> now[k] == if o <= k < o + |v| then v[k - o] else was[k]
    ensures now == Put(was, o, v)
  {}

  /** Bytes that do not overlap what is put are as they were. */
  lemma PutAway(was: Bytes, o: nat, v: Bytes, p: nat, q: nat)
    requires o + |v| <= |was| && p <= q <= |was| && (q <= o || o + |v| <= p)
    ensures Put(was, o, v)[p..q] == was[p..q]
  {}

  lemma PutNothing(was: Bytes, o: nat)
    requires o <= |was|
    ensures Put(was, o, Xor([], [])) == was
  {}

  lemma PutNext(was: Bytes, o: nat, v: Bytes, w: Bytes)
    requires o + |v| + |w| <= |was|
    ensures Put(Put(was, o, v), o + |v|, w) == Put(was, o, v + w)
  {}

  lemma XorSplit(x: Bytes, y: Bytes, i: nat, j: nat)
    requires i <= j <= |x| == |y|
    ensures Xor(x[..j], y[..j]) == Xor(x[..i], y[..i]) + Xor(x[i..j], y[i..j])
  {}

  lemma SliceSlice<T>(a: seq<T>, o: nat, n: nat, i: nat, j: nat)
    requires i <= j <= n && o + n <= |a|
    ensures a[o..o + n][i..j] == a[o + i..o + j]
  {
    var b := a[o..o + n];
    assert forall k :: i <= k < j ==> b[k] == a[o + k];
    assert forall k :: 0 <= k < j - i ==> b[i..j][k] == a[o + i..o + j][k];
  }

  /** x and y have been combined up to i, in `now`; the rest of y is still in `from`. */
  ghost predicate XorState(now: Bytes, from: Bytes, was: Bytes, d: nat, s: nat, x: Bytes, y: Bytes, i: nat) {
    && i <= |x| == |y| && d + |x| <= |was| && s + |x| <= |from| && x == was[d..d + |x|]
    && now == Put(was, d, Xor(x[..i], y[..i])) && from[s + i..s + |x|] == y[i..]
  }

  lemma XorAdvance(was: Bytes, d: nat, x: Bytes, y: Bytes, i: nat, j: nat)
    requires d + |x| <= |was| && i <= j <= |x| == |y| && x == was[d..d + |x|]
    ensures var now := Put(was, d, Xor(x[..i], y[..i]));
      now[d + i..d + j] == x[i..j] && Put(now, d + i, Xor(x[i..j], y[i..j])) == Put(was, d, Xor(x[..j], y[..j]))
  {
    hide Xor, Put;
    XorSplit(x, y, i, j);
    PutNext(was, d, Xor(x[..i], y[..i]), Xor(x[i..j], y[i..j]));
    PutAway(was, d, Xor(x[..i], y[..i]), d + i, d + j);
    SliceSlice(was, d, |x|, i, j);
  }

  lemma FromStep(from: Bytes, s: nat, y: Bytes, i: nat, n: nat)
    requires s + |y| <= |from| && i + n <= |y| && from[s + i..s + |y|] == y[i..]
    ensures from[s + i..s + i + n] == y[i..i + n] && from[s + i + n..s + |y|] == y[i + n..]
  {
    var u, v := from[s + i..s + |y|], y[i..];
    assert forall k :: i <= k < |y| ==> u[k - i] == from[s + k] && v[k - i] == y[k];
  }

  /** What one step writes, when the two buffers are the same or not. */
  lemma XorStep(now: Bytes, from: Bytes, was: Bytes, d: nat, s: nat, x: Bytes, y: Bytes, i: nat, n: nat, same: bool)
    requires XorState(now, from, was, d, s, x, y, i) && i + n <= |x|
    requires same ==> from == now && (d + |x| <= s || s + |x| <= d)
    ensures d + i + n <= |now| && s + i + n <= |from|
    ensures var now' := Put(now, d + i, Xor(now[d + i..d + i + n], from[s + i..s + i + n]));
      XorState(now', if same then now' else from, was, d, s, x, y, i + n)
  {
    XorFits(now, from, was, d, s, x, y, i);
    XorWritten(now, from, was, d, s, x, y, i, n);
    hide Xor, Put, XorState;
    var v := Xor(now[d + i..d + i + n], from[s + i..s + i + n]);
    if same { XorKept(Put(now, d + i, v), from, now, d, s, x, y, i, n, v); }
  }

  lemma XorWritten(now: Bytes, from: Bytes, was: Bytes, d: nat, s: nat, x: Bytes, y: Bytes, i: nat, n: nat)
    requires XorState(now, from, was, d, s, x, y, i) && i + n <= |x| && d + i + n <= |now|
    ensures XorState(Put(now, d + i, Xor(now[d + i..d + i + n], from[s + i..s + i + n])), from, was, d, s, x, y, i + n)
  {
    hide Xor, Put;
    XorAdvance(was, d, x, y, i, i + n);
    FromStep(from, s, y, i, n);
  }

  lemma XorKept(now': Bytes, from: Bytes, was: Bytes, d: nat, s: nat, x: Bytes, y: Bytes, i: nat, n: nat, v: Bytes)
    requires |v| == n && i + n <= |x| && d + |x| <= |was| == |from| && from == was && now' == Put(was, d + i, v)
    requires d + |x| <= s || s + |x| <= d
    requires s + |x| <= |from|
    ensures now'[s + i + n..s + |x|] == from[s + i + n..s + |x|]
  {
    hide Put;
    PutAway(was, d + i, v, s + i + n, s + |x|);
  }

  lemma XorBegins(was: Bytes, from: Bytes, d: nat, s: nat, size: nat)
    requires d + size <= |was| && s + size <= |from|
    ensures XorState(was, from, was, d, s, was[d..d + size], from[s..s + size], 0)
  {
    hide Xor, Put;
    var x, y := was[d..d + size], from[s..s + size];
    PutNothing(was, d);
    assert x[..0] == [] && y[..0] == [];
  }

  lemma XorEnds(now: Bytes, from: Bytes, was: Bytes, d: nat, s: nat, x: Bytes, y: Bytes)
    requires XorState(now, from, was, d, s, x, y, |x|)
    ensures now == Put(was, d, Xor(x, y))
  {
    hide Xor, Put;
    assert x[..|x|] == x && y[..|y|] == y;
  }

  lemma XorFits(now: Bytes, from: Bytes, was: Bytes, d: nat, s: nat, x: Bytes, y: Bytes, i: nat)
    requires XorState(now, from, was, d, s, x, y, i)
    ensures |now| == |was|
  {
    hide Put;
  }

  /** crypto_xor (crypto/algapi.c): 32-bit words first, then the bytes that are left. */
  method CryptoXor(dst: array<bv8>, d: nat, src: array<bv8>, s: nat, size: nat)
    requires d + size <= dst.Length && s + size <= src.Length && (dst != src || d + size <= s || s + size <= d)
    modifies dst
    ensures dst[..] == Put(old(dst[..]), d, Xor(old(dst[..])[d..d + size], old(src[..])[s..s + size]))
  {
    hide Xor, Put, XorState;
    ghost var was, from := dst[..], src[..];
    ghost var x, y := was[d..d + size], from[s..s + size];
    XorBegins(was, from, d, s, size);
    var i := 0;
    while size - i >= 4
      invariant i <= size && XorState(dst[..], src[..], was, d, s, x, y, i)
    {
      XorPart(dst, d, src, s, i, 4, was, x, y);
      i := i + 4;
    }
    while i < size
      invariant i <= size && XorState(dst[..], src[..], was, d, s, x, y, i)
    {
      XorPart(dst, d, src, s, i, 1, was, x, y);
      i := i + 1;
    }
    XorEnds(dst[..], src[..], was, d, s, x, y);
  }

  /** One step of either loop: n bytes at i, all read before the first is written. */
  method XorPart(dst: array<bv8>, d: nat, src: array<bv8>, s: nat, i: nat, n: nat, ghost was: Bytes, ghost x: Bytes, ghost y: Bytes)
    requires d + |x| <= dst.Length && s + |x| <= src.Length && i + n <= |x|
    requires dst != src || d + |x| <= s || s + |x| <= d
    requires XorState(dst[..], src[..], was, d, s, x, y, i)
    modifies dst
    ensures XorState(dst[..], src[..], was, d, s, x, y, i + n)
  {
    hide Put, Xor, XB, XorState;
    ghost var now, from := dst[..], src[..];
    XorStep(now, from, was, d, s, x, y, i, n, dst == src);
    XorFits(now, from, was, d, s, x, y, i);
    var v := Xor(dst[..][d + i..d + i + n], src[..][s + i..s + i + n]);
    forall k | 0 <= k < n {
      dst[d + i + k] := v[k];
    }
    PutBytes(now, dst[..], d + i, v);
    assert src[..] == if dst == src then dst[..] else from;
  }

  /** fn: the block cipher from one buffer to another, or in place. */
  method ApplyBlock(f: Bytes -> Bytes, dst: array<bv8>, d: nat, src: array<bv8>, s: nat, size: nat)
    requires d + size <= dst.Length && s + size <= src.Length && |f(src[..][s..s + size])| == size
    modifies dst
    ensures dst[..] == Put(old(dst[..]), d, f(old(src[..])[s..s + size]))
  {
    hide Put;
    ghost var was := dst[..];
    var v := f(src[..][s..s + size]);
    forall k | 0 <= k < size {
      dst[d + k] := v[k];
    }
    PutBytes(was, dst[..], d, v);
  }

  lemma PutParts(was: Bytes, o: nat, v: Bytes)
    requires o + |v| <= |was|
    ensures Put(was, o, v)[..o] == was[..o] && Put(was, o, v)[o..o + |v|] == v && Put(was, o, v)[o + |v|..] == was[o + |v|..]
  {}

  lemma PutTwice(was: Bytes, o: nat, v: Bytes, w: Bytes)
    requires o + |v| <= |was| && |w| == |v|
    ensures Put(Put(was, o, v), o, w) == Put(was, o, w)
  {}

  /** What one step of encryption does to the rest of the data. */
  lemma EncStep(c: Cipher, iv: Bytes, data: Bytes)
    requires Sound(c) && |iv| == c.bsize <= |data|
    ensures var b := c.enc(Xor(data[..c.bsize], iv));
      |b| == c.bsize && Encrypted(c, iv, data) == b + Encrypted(c, b, data[c.bsize..])
      && EncIv(c, iv, data) == EncIv(c, b, data[c.bsize..])
  {}

  lemma DecStep(c: Cipher, iv: Bytes, data: Bytes)
    requires Sound(c) && |iv| == c.bsize <= |data|
    ensures Decrypted(c, iv, data) == Xor(c.dec(data[..c.bsize]), iv) + Decrypted(c, data[..c.bsize], data[c.bsize..])
    ensures DecIv(c, iv, data) == DecIv(c, data[..c.bsize], data[c.bsize..])
  {}

  lemma Before<T>(a: seq<T>, b: seq<T>, o: nat, p: nat, n: nat)
    requires p + n <= o <= |a| == |b| && a[..o] == b[..o]
    ensures a[p..p + n] == b[p..p + n]
  {
    assert a[p..p + n] == a[..o][p..p + n] && b[p..p + n] == b[..o][p..p + n];
  }

  lemma Slices<T>(a: seq<T>, o: nat, n: nat)
    requires o + n <= |a|
    ensures a[o..][..n] == a[o..o + n] && a[o..][n..] == a[o + n..] && a[..o] + a[o..o + n] == a[..o + n]
    ensures a[..o + n] + a[o + n..] == a
  {}

  /** The first o bytes of `now` are encrypted, the rest is as in `was`, and the next
      block will be chained with cur. */
  ghost predicate EncState(c: Cipher, iv: Bytes, data: Bytes, was: Bytes, now: Bytes, o: nat, cur: Bytes)
    requires Sound(c) && |iv| == c.bsize
  {
    && o <= |data| == |was| == |now| && |cur| == c.bsize && now[o..] == was[o..]
    && Encrypted(c, iv, data) == now[..o] + Encrypted(c, cur, data[o..])
    && EncIv(c, iv, data) == EncIv(c, cur, data[o..])
  }

  lemma EncAdvance(c: Cipher, iv: Bytes, data: Bytes, was: Bytes, now: Bytes, o: nat, cur: Bytes)
    requires Sound(c) && |iv| == c.bsize && EncState(c, iv, data, was, now, o, cur) && o + c.bsize <= |data|
    ensures var b := c.enc(Xor(data[o..o + c.bsize], cur));
      |b| == c.bsize && EncState(c, iv, data, was, Put(now, o, b), o + c.bsize, b)
  {
    hide Xor, Put, Encrypted, EncIv, Sound;
    Slices(data, o, c.bsize);
    Slices(now, o, c.bsize);
    Slices(was, o, c.bsize);
    EncStep(c, cur, data[o..]);
    var b := c.enc(Xor(data[o..o + c.bsize], cur));
    PutParts(now, o, b);
    Regroup(now[..o], b, Encrypted(c, b, data[o + c.bsize..]));
    Slices(Put(now, o, b), o, c.bsize);
  }

  lemma EncDone(c: Cipher, iv: Bytes, data: Bytes, was: Bytes, now: Bytes, o: nat, cur: Bytes)
    requires Sound(c) && |iv| == c.bsize && EncState(c, iv, data, was, now, o, cur) && |data| < o + c.bsize
    ensures EncIv(c, iv, data) == cur && now[o..] == was[o..] && Encrypted(c, iv, data) == now[..o] + data[o..]
  {
    hide Encrypted, EncIv, Sound;
    Tail(c, cur, data[o..]);
  }

  ghost predicate DecState(c: Cipher, iv: Bytes, data: Bytes, was: Bytes, now: Bytes, o: nat, cur: Bytes)
    requires Sound(c) && |iv| == c.bsize
  {
    && o <= |data| == |was| == |now| && |cur| == c.bsize && now[o..] == was[o..]
    && Decrypted(c, iv, data) == now[..o] + Decrypted(c, cur, data[o..])
    && DecIv(c, iv, data) == DecIv(c, cur, data[o..])
  }

  lemma DecAdvance(c: Cipher, iv: Bytes, data: Bytes, was: Bytes, now: Bytes, o: nat, cur: Bytes)
    requires Sound(c) && |iv| == c.bsize && DecState(c, iv, data, was, now, o, cur) && o + c.bsize <= |data|
    ensures var x := data[o..o + c.bsize];
      |c.dec(x)| == c.bsize && DecState(c, iv, data, was, Put(now, o, Xor(c.dec(x), cur)), o + c.bsize, x)
  {
    hide Xor, Put, Decrypted, DecIv, Sound;
    Slices(data, o, c.bsize);
    Slices(now, o, c.bsize);
    Slices(was, o, c.bsize);
    var x := data[o..o + c.bsize];
    Blocks(c, x);
    DecStep(c, cur, data[o..]);
    var b := Xor(c.dec(x), cur);
    PutParts(now, o, b);
    Regroup(now[..o], b, Decrypted(c, x, data[o + c.bsize..]));
    Slices(Put(now, o, b), o, c.bsize);
  }

  lemma DecDone(c: Cipher, iv: Bytes, data: Bytes, was: Bytes, now: Bytes, o: nat, cur: Bytes)
    requires Sound(c) && |iv| == c.bsize && DecState(c, iv, data, was, now, o, cur) && |data| < o + c.bsize
    ensures DecIv(c, iv, data) == cur && now[o..] == was[o..] && Decrypted(c, iv, data) == now[..o] + data[o..]
  {
    hide Decrypted, DecIv, Sound;
    Tail(c, cur, data[o..]);
  }

  lemma Start(c: Cipher, iv: Bytes, data: Bytes, was: Bytes)
    requires Sound(c) && |iv| == c.bsize && |was| == |data|
    ensures EncState(c, iv, data, was, was, 0, iv) && DecState(c, iv, data, was, was, 0, iv)
  {
    hide Encrypted, EncIv, Decrypted, DecIv, Sound;
    assert data[0..] == data;
    Positive(c);
  }

  /** One block of crypto_cbc_encrypt_inplace; the chaining value is at p of `prev`. */
  method EncryptBlockAt(c: Cipher, buf: array<bv8>, o: nat, prev: array<bv8>, p: nat)
    requires Sound(c) && o + c.bsize <= buf.Length && p + c.bsize <= prev.Length && (prev != buf || p + c.bsize <= o)
    modifies buf
    ensures var b := c.enc(Xor(old(buf[..])[o..o + c.bsize], old(prev[..])[p..p + c.bsize]));
      |b| == c.bsize && buf[..] == Put(old(buf[..]), o, b)
  {
    hide Xor, Put, Sound;
    ghost var was := buf[..];
    ghost var v := Xor(was[o..o + c.bsize], prev[..][p..p + c.bsize]);
    Blocks(c, v);
    PutParts(was, o, v);
    PutTwice(was, o, v, c.enc(v));
    CryptoXor(buf, o, prev, p, c.bsize);
    ApplyBlock(c.enc, buf, o, buf, o, c.bsize);
  }

  /** crypto_cbc_encrypt_inplace; returns the bytes of the tail. */
  method EncryptInPlace(c: Cipher, buf: array<bv8>, iv: array<bv8>) returns (left: nat)
    requires Sound(c) && buf != iv && iv.Length == c.bsize <= buf.Length
    modifies buf, iv
    ensures buf[..] == Encrypted(c, old(iv[..]), old(buf[..])) && iv[..] == EncIv(c, old(iv[..]), old(buf[..]))
    ensures left < c.bsize && buf[buf.Length - left..] == old(buf[buf.Length - left..])
  {
    hide Xor, Put, Encrypted, EncIv, Sound, EncState;
    ghost var data, iv0 := buf[..], iv[..];
    var prev, p, o, nbytes := iv, 0, 0, buf.Length;
    Positive(c);
    Start(c, iv0, data, data);
    assert iv[0..0 + c.bsize] == iv0;
    while true
      modifies buf
      invariant o + nbytes == buf.Length && c.bsize <= nbytes && (if o == 0 then prev == iv && p == 0 else prev == buf && p + c.bsize == o)
      invariant EncState(c, iv0, data, data, buf[..], o, prev[p..p + c.bsize])
      decreases nbytes
    {
      ghost var was, cur := buf[..], prev[p..p + c.bsize];
      EncAdvance(c, iv0, data, data, was, o, cur);
      Untouched(c, iv0, data, was, o, cur);
      assert buf[o..o + c.bsize] == was[o..o + c.bsize];
      EncryptBlockAt(c, buf, o, prev, p);
      ghost var b := c.enc(Xor(data[o..o + c.bsize], cur));
      PutParts(was, o, b);
      assert buf[o..o + c.bsize] == buf[..][o..o + c.bsize];
      prev, p := buf, o;
      o, nbytes := o + c.bsize, nbytes - c.bsize;
      if nbytes < c.bsize { break; }
    }
    EncDone(c, iv0, data, data, buf[..], o, prev[p..p + c.bsize]);
    assert buf[..] == buf[..o] + buf[o..];
    CopyBlock(iv, prev, p);
    left := nbytes;
  }

  lemma Untouched(c: Cipher, iv: Bytes, data: Bytes, now: Bytes, o: nat, cur: Bytes)
    requires Sound(c) && |iv| == c.bsize && EncState(c, iv, data, data, now, o, cur) && o + c.bsize <= |data|
    ensures now[o..o + c.bsize] == data[o..o + c.bsize]
  {
    hide Encrypted, EncIv, Sound;
    Slices(now, o, c.bsize);
    Slices(data, o, c.bsize);
  }

  lemma Positive(c: Cipher)
    requires Sound(c)
    ensures c.bsize > 0
  {}

  lemma Tail(c: Cipher, iv: Bytes, data: Bytes)
    requires Sound(c) && |iv| == c.bsize && |data| < c.bsize
    ensures Encrypted(c, iv, data) == data == Decrypted(c, iv, data) && EncIv(c, iv, data) == iv == DecIv(c, iv, data)
  {}

  /** memcpy of a block. */
  method CopyBlock(dst: array<bv8>, src: array<bv8>, s: nat)
    requires s + dst.Length <= src.Length && dst != src
    modifies dst
    ensures dst[..] == src[..][s..s + dst.Length]
  {
    forall k | 0 <= k < dst.Length {
      dst[k] := src[s + k];
    }
  }

  /** One block of crypto_cbc_encrypt_segment. */
  method EncryptBlockTo(c: Cipher, dst: array<bv8>, src: array<bv8>, o: nat, iv: array<bv8>)
    requires Sound(c) && dst != src && dst != iv && iv != src && iv.Length == c.bsize
    requires o + c.bsize <= dst.Length && o + c.bsize <= src.Length
    modifies dst, iv
    ensures var b := c.enc(Xor(old(src[..])[o..o + c.bsize], old(iv[..])));
      |b| == c.bsize && dst[..] == Put(old(dst[..]), o, b) && iv[..] == b
  {
    hide Xor, Put, Sound;
    ghost var was, x, v := dst[..], src[..][o..o + c.bsize], iv[..];
    ghost var b := c.enc(Xor(v, x));
    assert v[0..0 + c.bsize] == v;
    XorComm(v, x);
    Blocks(c, Xor(v, x));
    PutParts(v, 0, Xor(v, x));
    PutParts(was, o, b);
    CryptoXor(iv, 0, src, o, c.bsize);
    assert iv[..] == iv[..][0..0 + c.bsize];
    ApplyBlock(c.enc, dst, o, iv, 0, c.bsize);
    CopyBlock(iv, dst, o);
  }

  /** crypto_cbc_encrypt_segment: dst gets what the in-place form would leave, except
      that a tail of dst stays as it was. */
  method EncryptSegment(c: Cipher, dst: array<bv8>, src: array<bv8>, iv: array<bv8>) returns (left: nat)
    requires Sound(c) && dst != src && dst != iv && iv != src && iv.Length == c.bsize <= src.Length == dst.Length
    modifies dst, iv
    ensures left < c.bsize && iv[..] == EncIv(c, old(iv[..]), src[..])
    ensures dst[..dst.Length - left] == Encrypted(c, old(iv[..]), src[..])[..dst.Length - left]
    ensures dst[dst.Length - left..] == old(dst[dst.Length - left..])
  {
    hide Xor, Put, Encrypted, EncIv, Sound, EncState;
    ghost var data, was, iv0 := src[..], dst[..], iv[..];
    var o, nbytes := 0, src.Length;
    Positive(c);
    Start(c, iv0, data, was);
    while true
      invariant o + nbytes == src.Length && c.bsize <= nbytes
      invariant EncState(c, iv0, data, was, dst[..], o, iv[..])
      decreases nbytes
    {
      EncAdvance(c, iv0, data, was, dst[..], o, iv[..]);
      assert src[o..o + c.bsize] == data[o..o + c.bsize];
      EncryptBlockTo(c, dst, src, o, iv);
      o, nbytes := o + c.bsize, nbytes - c.bsize;
      if nbytes < c.bsize { break; }
    }
    EncDone(c, iv0, data, was, dst[..], o, iv[..]);
    left := nbytes;
  }

  /** One block of the decrypting loops: decrypted from src to dst, then chained with the
      block at p of `prev`. */
  method DecryptBlockTo(c: Cipher, dst: array<bv8>, src: array<bv8>, o: nat, prev: array<bv8>, p: nat)
    requires Sound(c) && o + c.bsize <= dst.Length && o + c.bsize <= src.Length && p + c.bsize <= prev.Length
    requires dst != prev || p + c.bsize <= o
    modifies dst
    ensures |c.dec(old(src[..])[o..o + c.bsize])| == c.bsize
    ensures dst[..] == Put(old(dst[..]), o, Xor(c.dec(old(src[..])[o..o + c.bsize]), old(prev[..])[p..p + c.bsize]))
  {
    hide Xor, Put, Sound;
    ghost var was, from := dst[..], prev[..];
    ghost var x := c.dec(src[..][o..o + c.bsize]);
    Blocks(c, src[..][o..o + c.bsize]);
    PutParts(was, o, x);
    if dst == prev { PutAway(was, o, x, p, p + c.bsize); }
    PutTwice(was, o, x, Xor(x, from[p..p + c.bsize]));
    ApplyBlock(c.dec, dst, o, src, o, c.bsize);
    CryptoXor(dst, o, prev, p, c.bsize);
  }

  /** crypto_cbc_decrypt_segment */
  method DecryptSegment(c: Cipher, dst: array<bv8>, src: array<bv8>, iv: array<bv8>) returns (left: nat)
    requires Sound(c) && dst != src && dst != iv && iv != src && iv.Length == c.bsize <= src.Length == dst.Length
    modifies dst, iv
    ensures left < c.bsize && iv[..] == DecIv(c, old(iv[..]), src[..])
    ensures dst[..dst.Length - left] == Decrypted(c, old(iv[..]), src[..])[..dst.Length - left]
    ensures dst[dst.Length - left..] == old(dst[dst.Length - left..])
  {
    hide Xor, Put, Decrypted, DecIv, Sound, DecState;
    ghost var data, was, iv0 := src[..], dst[..], iv[..];
    var prev, p, o, nbytes := iv, 0, 0, src.Length;
    Positive(c);
    Start(c, iv0, data, was);
    assert iv[0..0 + c.bsize] == iv0;
    while true
      modifies dst
      invariant o + nbytes == src.Length && c.bsize <= nbytes
      invariant if o == 0 then prev == iv && p == 0 else prev == src && p + c.bsize == o
      invariant DecState(c, iv0, data, was, dst[..], o, prev[p..p + c.bsize])
      decreases nbytes
    {
      DecAdvance(c, iv0, data, was, dst[..], o, prev[p..p + c.bsize]);
      assert src[o..o + c.bsize] == data[o..o + c.bsize];
      DecryptBlockTo(c, dst, src, o, prev, p);
      prev, p := src, o;
      o, nbytes := o + c.bsize, nbytes - c.bsize;
      if nbytes < c.bsize { break; }
    }
    DecDone(c, iv0, data, was, dst[..], o, prev[p..p + c.bsize]);
    CopyBlock(iv, prev, p);
    left := nbytes;
  }

  lemma Blocks(c: Cipher, x: Bytes)
    requires Sound(c) && |x| == c.bsize
    ensures |c.dec(x)| == c.bsize && |c.enc(x)| == c.bsize
  {}

  /** Where the last whole block starts; the source masks with b - 1, a power of two. */
  function LastBlock(n: nat, b: nat): (o: nat)
    requires 0 < b <= n
    ensures o + b <= n < o + b + b
  {
    n - n % b - b
  }

  lemma LastBlockTimes(n: nat, b: nat)
    requires 0 < b <= n
    ensures n / b >= 1 && LastBlock(n, b) == (n / b - 1) * b && LastBlock(n, b) + b == (n / b) * b
  {
    assert n == (n / b) * b + n % b;
    assert (n / b - 1) * b == (n / b) * b - b;
  }

  lemma LastWhole(c: Cipher, data: Bytes)
    requires 0 < c.bsize <= |data|
    ensures var o := LastBlock(|data|, c.bsize);
      WholeBlocks(c, data[..o]) && WholeBlocks(c, data[..o + c.bsize])
  {
    hide LastBlock, WholeBlocks;
    LastBlockTimes(|data|, c.bsize);
    var o := LastBlock(|data|, c.bsize);
    WholeTimes(c, data[..o], |data| / c.bsize - 1);
    WholeTimes(c, data[..o + c.bsize], |data| / c.bsize);
  }

  lemma {:induction false} WholeTimes(c: Cipher, a: Bytes, k: nat)
    requires c.bsize > 0 && |a| == k * c.bsize
    ensures WholeBlocks(c, a)
    decreases k
  {
    if k > 0 {
      assert k * c.bsize == (k - 1) * c.bsize + c.bsize;
      WholeTimes(c, a[c.bsize..], k - 1);
    }
  }

  lemma {:induction false} WholeLess(c: Cipher, a: Bytes)
    requires c.bsize > 0 && WholeBlocks(c, a) && a != []
    ensures |a| >= c.bsize && WholeBlocks(c, a[..|a| - c.bsize])
    decreases |a|
  {
    var r := a[c.bsize..];
    if r != [] {
      WholeLess(c, r);
      assert a[..|a| - c.bsize][c.bsize..] == r[..|r| - c.bsize];
    } else {
      assert a[..|a| - c.bsize] == [];
    }
  }

  /** The chaining value decryption leaves is the last whole block. */
  lemma {:induction false} LastBlockIsIv(c: Cipher, iv: Bytes, data: Bytes, o: nat)
    requires Sound(c) && |iv| == c.bsize && o + c.bsize <= |data| < o + c.bsize + c.bsize && WholeBlocks(c, data[..o])
    ensures DecIv(c, iv, data) == data[o..o + c.bsize]
    decreases |data|
  {
    if o == 0 {
      assert |data[c.bsize..]| < c.bsize;
    } else {
      assert data[..o][c.bsize..] == data[c.bsize..][..o - c.bsize];
      LastBlockIsIv(c, data[..c.bsize], data[c.bsize..], o - c.bsize);
    }
  }

  /** The block at o is next, going backwards: it and those before it are as they were,
      those behind it are decrypted. */
  ghost predicate BackState(c: Cipher, data: Bytes, now: Bytes, o: nat)
    requires Sound(c)
  {
    && o + c.bsize <= |data| == |now| && WholeBlocks(c, data[..o]) && now[..o + c.bsize] == data[..o + c.bsize]
    && now[o + c.bsize..] == Decrypted(c, data[o..o + c.bsize], data[o + c.bsize..])
  }

  lemma BackInit(c: Cipher, data: Bytes, o: nat)
    requires Sound(c) && o + c.bsize <= |data| < o + c.bsize + c.bsize && WholeBlocks(c, data[..o])
    ensures BackState(c, data, data, o)
  {
    hide Decrypted, Sound, WholeBlocks;
    Tail(c, data[o..o + c.bsize], data[o + c.bsize..]);
  }

  /** What the loop of the in-place decryption starts with. */
  lemma BackStart(c: Cipher, iv: Bytes, data: Bytes)
    requires Sound(c) && |iv| == c.bsize <= |data|
    ensures var o := LastBlock(|data|, c.bsize);
      && BackState(c, data, data, o) && DecIv(c, iv, data) == data[o..o + c.bsize]
      && Decrypted(c, iv, data)[o + c.bsize..] == data[o + c.bsize..]
  {
    hide Decrypted, DecIv, Sound, WholeBlocks, LastBlock, BackState;
    Positive(c);
    var o := LastBlock(|data|, c.bsize);
    LastWhole(c, data);
    BackInit(c, data, o);
    LastBlockIsIv(c, iv, data, o);
    TailKept(c, iv, data, o + c.bsize);
  }

  lemma TailKept(c: Cipher, iv: Bytes, data: Bytes, k: nat)
    requires Sound(c) && |iv| == c.bsize && k <= |data| < k + c.bsize && WholeBlocks(c, data[..k])
    ensures Decrypted(c, iv, data)[k..] == data[k..]
  {
    hide Decrypted, DecIv, Sound, WholeBlocks;
    var a, b := data[..k], data[k..];
    assert data == a + b;
    DecryptedAppend(c, iv, a, b);
    Tail(c, DecIv(c, iv, a), b);
  }

  lemma BackStep(c: Cipher, data: Bytes, was: Bytes, o: nat, y: Bytes)
    requires Sound(c) && |y| == c.bsize && BackState(c, data, was, o)
    ensures var x := data[o..o + c.bsize];
      && was[o..o + c.bsize] == x && |c.dec(x)| == c.bsize && was[..o] == data[..o]
      && Put(was, o, Xor(c.dec(x), y))[..o] == data[..o]
      && Put(was, o, Xor(c.dec(x), y))[o..] == Decrypted(c, y, data[o..])
  {
    hide Xor, Put, Decrypted, DecIv, Sound, WholeBlocks;
    Slices(data, o, c.bsize);
    var x := data[o..o + c.bsize];
    assert was[o..o + c.bsize] == was[..o + c.bsize][o..] && x == data[..o + c.bsize][o..];
    assert was[..o] == was[..o + c.bsize][..o] && data[..o] == data[..o + c.bsize][..o];
    Blocks(c, x);
    DecStep(c, y, data[o..]);
    var b := Xor(c.dec(x), y);
    PutParts(was, o, b);
    Slices(Put(was, o, b), o, c.bsize);
    assert Put(was, o, b)[o..] == b + Put(was, o, b)[o + c.bsize..];
  }

  lemma BackNext(c: Cipher, data: Bytes, now: Bytes, o: nat)
    requires Sound(c) && c.bsize <= o <= |data| == |now| && WholeBlocks(c, data[..o]) && now[..o] == data[..o]
    requires now[o..] == Decrypted(c, data[o - c.bsize..o], data[o..])
    ensures BackState(c, data, now, o - c.bsize)
  {
    hide Decrypted, Sound, WholeBlocks;
    Positive(c);
    WholeLess(c, data[..o]);
    assert data[..o][..o - c.bsize] == data[..o - c.bsize];
  }

  lemma FirstOrMore(c: Cipher, data: Bytes, now: Bytes, o: nat)
    requires Sound(c) && BackState(c, data, now, o)
    ensures o == 0 || o >= c.bsize
  {
    if o > 0 { assert data[..o] != []; }
  }

  /** crypto_cbc_decrypt_inplace: from the last block to the first. */
  method DecryptInPlace(c: Cipher, buf: array<bv8>, iv: array<bv8>) returns (left: nat)
    requires Sound(c) && buf != iv && iv.Length == c.bsize <= buf.Length
    modifies buf, iv
    ensures buf[..] == Decrypted(c, old(iv[..]), old(buf[..])) && iv[..] == DecIv(c, old(iv[..]), old(buf[..]))
    ensures left < c.bsize && buf[buf.Length - left..] == old(buf[buf.Length - left..])
  {
    hide Xor, Put, Decrypted, DecIv, Sound, BackState;
    ghost var data, iv0 := buf[..], iv[..];
    Positive(c);
    BackStart(c, iv0, data);
    var o: nat := LastBlock(buf.Length, c.bsize);
    var lastIv := new bv8[c.bsize];
    CopyBlock(lastIv, buf, o);
    left := buf.Length - o - c.bsize;
    var nbytes := buf.Length;
    while true
      modifies buf
      invariant o + c.bsize + left == nbytes && o + c.bsize <= buf.Length && BackState(c, data, buf[..], o)
      decreases nbytes
    {
      nbytes := nbytes - c.bsize;
      FirstOrMore(c, data, buf[..], o);
      if nbytes < c.bsize { break; }
      o := DecryptBack(c, buf, o, data);
    }
    DecryptOne(c, buf, 0, iv, 0, data);
    assert data[0..] == data && buf[0..] == buf[..] && iv[0..0 + c.bsize] == iv0;
    CopyBlock(iv, lastIv, 0);
  }

  method DecryptBack(c: Cipher, buf: array<bv8>, o: nat, ghost data: Bytes) returns (o': nat)
    requires Sound(c) && BackState(c, data, buf[..], o) && c.bsize <= o
    modifies buf
    ensures o' == o - c.bsize && BackState(c, data, buf[..], o')
  {
    hide Xor, Put, Decrypted, Sound, WholeBlocks;
    Positive(c);
    ghost var was := buf[..];
    assert was[..o] == was[..o + c.bsize][..o] && data[..o] == data[..o + c.bsize][..o];
    Before(was, data, o, o - c.bsize, c.bsize);
    assert buf[o - c.bsize..o - c.bsize + c.bsize] == was[o - c.bsize..o - c.bsize + c.bsize];
    DecryptOne(c, buf, o, buf, o - c.bsize, data);
    BackNext(c, data, buf[..], o);
    o' := o - c.bsize;
  }

  /** The block at o is decrypted in place and chained with the block at p of `prev`. */
  method DecryptOne(c: Cipher, buf: array<bv8>, o: nat, prev: array<bv8>, p: nat, ghost data: Bytes)
    requires Sound(c) && BackState(c, data, buf[..], o) && p + c.bsize <= prev.Length && (prev != buf || p + c.bsize <= o)
    modifies buf
    ensures o <= |data| == buf.Length
    ensures buf[..o] == data[..o] && buf[o..] == Decrypted(c, old(prev[p..p + c.bsize]), data[o..])
  {
    hide Xor, Put, Decrypted, Sound, WholeBlocks;
    ghost var was, y := buf[..], prev[p..p + c.bsize];
    BackStep(c, data, was, o, y);
    assert buf[o..o + c.bsize] == was[o..o + c.bsize];
    DecryptBlockTo(c, buf, buf, o, prev, p);
    assert buf[..o] == buf[..][..o] && buf[o..] == buf[..][o..];
  }
}
