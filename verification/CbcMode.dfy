/** The CBC mode of section 6.2 of NIST SP 800-38A for any block cipher, on byte
    strings whose length need not be a multiple of the block size: a tail that fills
    no block stays as it is. */
module CbcMode {
  import opened Words

  type Bytes = seq<bv8>

  /** A block cipher with one key. */
  datatype Cipher = Cipher(bsize: nat, enc: Bytes -> Bytes, dec: Bytes -> Bytes)

  ghost predicate Sound(c: Cipher) {
    && c.bsize > 0
    && (forall x: Bytes :: |x| == c.bsize ==> |c.enc(x)| == c.bsize && |c.dec(x)| == c.bsize)
    && (forall x: Bytes :: |x| == c.bsize ==> c.dec(c.enc(x)) == x)
  }

  function Xor(a: Bytes, b: Bytes): (r: Bytes)
    requires |a| == |b|
    ensures |r| == |a| && forall i :: 0 <= i < |a| ==> r[i] == XB(a[i], b[i])
  {
    seq(|a|, i requires 0 <= i < |a| && i < |b| => XB(a[i], b[i]))
  }

  ghost function Encrypted(c: Cipher, iv: Bytes, data: Bytes): (r: Bytes)
    requires Sound(c) && |iv| == c.bsize
    ensures |r| == |data|
    decreases |data|
  {
    if |data| < c.bsize then data
    else
      var b := c.enc(Xor(data[..c.bsize], iv));
      b + Encrypted(c, b, data[c.bsize..])
  }

  ghost function Decrypted(c: Cipher, iv: Bytes, data: Bytes): (r: Bytes)
    requires Sound(c) && |iv| == c.bsize
    ensures |r| == |data|
    decreases |data|
  {
    if |data| < c.bsize then data
    else Xor(c.dec(data[..c.bsize]), iv) + Decrypted(c, data[..c.bsize], data[c.bsize..])
  }

  /** The chaining value after data was encrypted. */
  ghost function EncIv(c: Cipher, iv: Bytes, data: Bytes): (r: Bytes)
    requires Sound(c) && |iv| == c.bsize
    ensures |r| == c.bsize
    decreases |data|
  {
    if |data| < c.bsize then iv else EncIv(c, c.enc(Xor(data[..c.bsize], iv)), data[c.bsize..])
  }

  /** The chaining value after data was decrypted: its last whole block. */
  ghost function DecIv(c: Cipher, iv: Bytes, data: Bytes): (r: Bytes)
    requires Sound(c) && |iv| == c.bsize
    ensures |r| == c.bsize
    decreases |data|
  {
    if |data| < c.bsize then iv else DecIv(c, data[..c.bsize], data[c.bsize..])
  }

  lemma XorTwice(a: Bytes, b: Bytes)
    requires |a| == |b|
    ensures Xor(Xor(a, b), b) == a
  {
    hide XB;
    var t := Xor(Xor(a, b), b);
    forall i | 0 <= i < |a| ensures t[i] == a[i] { ByteTwice(a[i], b[i]); }
  }

  lemma ByteTwice(a: bv8, b: bv8)
    ensures XB(XB(a, b), b) == a
  {}

  lemma XorComm(a: Bytes, b: Bytes)
    requires |a| == |b|
    ensures Xor(a, b) == Xor(b, a)
  {
    hide XB;
    forall i | 0 <= i < |a| ensures XB(a[i], b[i]) == XB(b[i], a[i]) { ByteComm(a[i], b[i]); }
  }

  lemma ByteComm(a: bv8, b: bv8)
    ensures XB(a, b) == XB(b, a)
  {}

  /** Decryption undoes encryption, and both leave the same chaining value. */
  lemma {:induction false} DecryptUndoesEncrypt(c: Cipher, iv: Bytes, data: Bytes)
    requires Sound(c) && |iv| == c.bsize
    ensures Decrypted(c, iv, Encrypted(c, iv, data)) == data
    ensures DecIv(c, iv, Encrypted(c, iv, data)) == EncIv(c, iv, data)
    decreases |data|
  {
    hide Xor;
    if |data| >= c.bsize {
      var x := Xor(data[..c.bsize], iv);
      var b := c.enc(x);
      var e := Encrypted(c, iv, data);
      assert e[..c.bsize] == b && e[c.bsize..] == Encrypted(c, b, data[c.bsize..]);
      XorTwice(data[..c.bsize], iv);
      DecryptUndoesEncrypt(c, b, data[c.bsize..]);
      assert data[..c.bsize] + data[c.bsize..] == data;
    }
  }

  // ----- chunks -----

  /** a is a number of whole blocks. */
  ghost predicate WholeBlocks(c: Cipher, a: Bytes)
    requires c.bsize > 0
    decreases |a|
  {
    a == [] || (|a| >= c.bsize && WholeBlocks(c, a[c.bsize..]))
  }

  lemma EncBlock(c: Cipher, iv: Bytes, x: Bytes, rest: Bytes)
    requires Sound(c) && |iv| == c.bsize == |x|
    ensures var b := c.enc(Xor(x, iv));
      |b| == c.bsize && Encrypted(c, iv, x + rest) == b + Encrypted(c, b, rest) && EncIv(c, iv, x + rest) == EncIv(c, b, rest)
  {
    hide Xor;
    assert (x + rest)[..c.bsize] == x && (x + rest)[c.bsize..] == rest;
  }

  lemma DecBlock(c: Cipher, iv: Bytes, x: Bytes, rest: Bytes)
    requires Sound(c) && |iv| == c.bsize == |x|
    ensures Decrypted(c, iv, x + rest) == Xor(c.dec(x), iv) + Decrypted(c, x, rest)
    ensures DecIv(c, iv, x + rest) == DecIv(c, x, rest)
  {
    hide Xor;
    assert (x + rest)[..c.bsize] == x && (x + rest)[c.bsize..] == rest;
  }

  lemma Split<T>(a: seq<T>, n: nat, b: seq<T>)
    requires n <= |a|
    ensures a == a[..n] + a[n..] && a + b == a[..n] + (a[n..] + b)
  {}

  lemma Regroup<T>(a: seq<T>, b: seq<T>, c: seq<T>)
    ensures (a + b) + c == a + (b + c)
  {}

  lemma NoBlock(c: Cipher, iv: Bytes, a: Bytes)
    requires Sound(c) && |iv| == c.bsize && |a| < c.bsize
    ensures Encrypted(c, iv, a) == a == Decrypted(c, iv, a) && EncIv(c, iv, a) == iv == DecIv(c, iv, a)
  {}

  /** Encrypting in two chunks, the second with the chaining value the first leaves,
      is encrypting all at once. */
  lemma {:induction false} EncryptedAppend(c: Cipher, iv: Bytes, a: Bytes, b: Bytes)
    requires Sound(c) && |iv| == c.bsize && WholeBlocks(c, a)
    ensures Encrypted(c, iv, a + b) == Encrypted(c, iv, a) + Encrypted(c, EncIv(c, iv, a), b)
    ensures EncIv(c, iv, a + b) == EncIv(c, EncIv(c, iv, a), b)
    decreases |a|
  {
    hide Xor, Encrypted, EncIv;
    if a == [] {
      assert a + b == b;
      NoBlock(c, iv, a);
    } else {
      var x, r := a[..c.bsize], a[c.bsize..];
      Split(a, c.bsize, b);
      EncBlock(c, iv, x, r);
      EncBlock(c, iv, x, r + b);
      var y := c.enc(Xor(x, iv));
      EncryptedAppend(c, y, r, b);
      Regroup(y, Encrypted(c, y, r), Encrypted(c, EncIv(c, y, r), b));
    }
  }

  lemma {:induction false} DecryptedAppend(c: Cipher, iv: Bytes, a: Bytes, b: Bytes)
    requires Sound(c) && |iv| == c.bsize && WholeBlocks(c, a)
    ensures Decrypted(c, iv, a + b) == Decrypted(c, iv, a) + Decrypted(c, DecIv(c, iv, a), b)
    ensures DecIv(c, iv, a + b) == DecIv(c, DecIv(c, iv, a), b)
    decreases |a|
  {
    hide Xor, Decrypted, DecIv;
    if a == [] {
      assert a + b == b;
      NoBlock(c, iv, a);
    } else {
      var x, r := a[..c.bsize], a[c.bsize..];
      Split(a, c.bsize, b);
      DecBlock(c, iv, x, r);
      DecBlock(c, iv, x, r + b);
      DecryptedAppend(c, x, r, b);
      Regroup(Xor(c.dec(x), iv), Decrypted(c, x, r), Decrypted(c, DecIv(c, x, r), b));
    }
  }

  ghost function Concat(chunks: seq<Bytes>): Bytes { if chunks == [] then [] else chunks[0] + Concat(chunks[1..]) }

  /** All chunks but the last are whole blocks, as blkcipher_walk hands them out. */
  ghost predicate Chunks(c: Cipher, chunks: seq<Bytes>)
    requires c.bsize > 0
  {
    forall i :: 0 <= i < |chunks| - 1 ==> WholeBlocks(c, chunks[i])
  }

  /** crypto_cbc_encrypt over the chunks of a walk. */
  ghost function EncryptedChunks(c: Cipher, iv: Bytes, chunks: seq<Bytes>): Bytes
    requires Sound(c) && |iv| == c.bsize
    decreases |chunks|
  {
    if chunks == [] then []
    else Encrypted(c, iv, chunks[0]) + EncryptedChunks(c, EncIv(c, iv, chunks[0]), chunks[1..])
  }

  ghost function DecryptedChunks(c: Cipher, iv: Bytes, chunks: seq<Bytes>): Bytes
    requires Sound(c) && |iv| == c.bsize
    decreases |chunks|
  {
    if chunks == [] then []
    else Decrypted(c, iv, chunks[0]) + DecryptedChunks(c, DecIv(c, iv, chunks[0]), chunks[1..])
  }

  lemma {:induction false} ChunksEncryptAlike(c: Cipher, iv: Bytes, chunks: seq<Bytes>)
    requires Sound(c) && |iv| == c.bsize && Chunks(c, chunks)
    ensures EncryptedChunks(c, iv, chunks) == Encrypted(c, iv, Concat(chunks))
    decreases |chunks|
  {
    hide Encrypted, EncIv, Sound;
    if chunks == [] {
      NoData(c, iv);
    } else if |chunks| == 1 {
      assert Concat(chunks) == chunks[0];
    } else {
      EncryptedAppend(c, iv, chunks[0], Concat(chunks[1..]));
      assert forall i :: 0 <= i < |chunks[1..]| - 1 ==> chunks[1..][i] == chunks[i + 1];
      ChunksEncryptAlike(c, EncIv(c, iv, chunks[0]), chunks[1..]);
    }
  }

  lemma {:induction false} ChunksDecryptAlike(c: Cipher, iv: Bytes, chunks: seq<Bytes>)
    requires Sound(c) && |iv| == c.bsize && Chunks(c, chunks)
    ensures DecryptedChunks(c, iv, chunks) == Decrypted(c, iv, Concat(chunks))
    decreases |chunks|
  {
    hide Decrypted, DecIv, Sound;
    if chunks == [] {
      NoData(c, iv);
    } else if |chunks| == 1 {
      assert Concat(chunks) == chunks[0];
    } else {
      DecryptedAppend(c, iv, chunks[0], Concat(chunks[1..]));
      assert forall i :: 0 <= i < |chunks[1..]| - 1 ==> chunks[1..][i] == chunks[i + 1];
      ChunksDecryptAlike(c, DecIv(c, iv, chunks[0]), chunks[1..]);
    }
  }

  lemma NoData(c: Cipher, iv: Bytes)
    requires Sound(c) && |iv| == c.bsize
    ensures Encrypted(c, iv, []) == [] && Decrypted(c, iv, []) == []
  {}

  /** However the plaintext was split when it was encrypted and the ciphertext when it
      is decrypted, the plaintext comes back. */
  lemma RoundTripAcrossChunks(c: Cipher, iv: Bytes, plain: seq<Bytes>, coded: seq<Bytes>)
    requires Sound(c) && |iv| == c.bsize && Chunks(c, plain) && Chunks(c, coded)
    requires Concat(coded) == EncryptedChunks(c, iv, plain)
    ensures DecryptedChunks(c, iv, coded) == Concat(plain)
  {
    hide Encrypted, Decrypted, Sound;
    ChunksEncryptAlike(c, iv, plain);
    ChunksDecryptAlike(c, iv, coded);
    DecryptUndoesEncrypt(c, iv, Concat(plain));
  }
}
