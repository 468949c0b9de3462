/** crypto/ccm.c: the buffers of a request and the calls that use them. */
module Ccm {
  import opened Words
  import opened CbcMode
  import opened CcmMode

  ghost function Concatenated(pieces: seq<Bytes>): Bytes {
    if pieces == [] then [] else pieces[0] + Concatenated(pieces[1..])
  }

  /** struct crypto_ccm_req_priv_ctx */
  class Request {
    const k: Keyed
    const odata: array<bv8>
    const idata: array<bv8>
    const authTag: array<bv8>
    var ilen: nat

    ghost predicate Valid()
      reads this
    {
      odata.Length == idata.Length == authTag.Length == BS && odata != idata && odata != authTag && idata != authTag
      && KeyedOk(k)
    }

    constructor (k: Keyed)
      requires KeyedOk(k)
      ensures Valid() && this.k == k && fresh(odata) && fresh(idata) && fresh(authTag)
    {
      this.k, odata, idata, authTag, ilen := k, new bv8[BS], new bv8[BS], new bv8[BS], 0;
    }

    /** The chaining value and the bytes that wait for a full block. */
    ghost function Mac(): (r: (Bytes, Bytes))
      requires Valid() && ilen <= BS
      reads this, odata, idata
      ensures |r.0| == BS
    {
      (odata[..], idata[..ilen])
    }

    /** crypto_xor of a block into odata, and crypto_cipher_encrypt_one. */
    method Chain(b: Bytes)
      requires Valid() && |b| == BS
      modifies odata
      ensures odata[..] == k.enc(Xor(old(odata[..]), b))
    {
      hide Xor;
      var y := k.enc(Xor(odata[..], b));
      forall i | 0 <= i < BS {
        odata[i] := y[i];
      }
    }

    /** memcpy to the end of what waits in idata. */
    method Keep(b: Bytes)
      requires Valid() && ilen + |b| <= BS
      modifies this`ilen, idata
      ensures ilen == old(ilen) + |b| && idata[..ilen] == old(idata[..ilen]) + b
    {
      forall i | 0 <= i < |b| {
        idata[ilen + i] := b[i];
      }
      ilen := ilen + |b|;
    }

    /** compute_mac: whatever waits is completed first. */
    method ComputeMac(data: Bytes)
      requires Valid() && ilen < BS
      modifies this`ilen, odata, idata
      ensures ilen < BS && Mac() == Absorbed(k, old(Mac()).0, old(Mac()).1 + data)
    {
      hide Xor, KeyedOk;
      ghost var x0, wait := odata[..], idata[..ilen];
      var rest := data;
      var getlen := BS - ilen;
      if |rest| >= getlen {
        Keep(rest[..getlen]);
        assert idata[..] == idata[..ilen];
        Chain(idata[..]);
        rest := rest[getlen..];
        ilen := 0;
        assert wait + data == (wait + data[..getlen]) + rest;
        AbsorbBlock(k, x0, wait + data[..getlen], rest);
        assert idata[..0] + rest == rest;
      } else {
        assert wait + data == idata[..ilen] + rest;
      }
      ghost var w := idata[..ilen];
      while |rest| >= BS
        modifies odata
        invariant ilen + |rest| >= BS ==> ilen == 0
        invariant idata[..ilen] == w
        invariant Absorbed(k, x0, wait + data) == Absorbed(k, odata[..], w + rest)
        decreases |rest|
      {
        assert w + rest == rest && rest == rest[..BS] + rest[BS..];
        AbsorbBlock(k, odata[..], rest[..BS], rest[BS..]);
        Chain(rest[..BS]);
        rest := rest[BS..];
        assert w + rest == rest;
      }
      if rest != [] {
        Keep(rest);
      } else {
        assert w + rest == w;
      }
      AbsorbShort(odata[..], idata[..ilen]);
    }

    lemma AbsorbShort(x: Bytes, r: Bytes)
      requires Valid() && |x| == BS && |r| < BS
      ensures Absorbed(k, x, r) == (x, r)
    {}

    /** get_data_to_compute: the first len bytes of a scatterlist, then the padding. */
    method GetData(pieces: seq<Bytes>, len: nat)
      requires Valid() && ilen < BS && len <= |Concatenated(pieces)|
      modifies this`ilen, odata, idata
      ensures ilen == 0
      ensures odata[..] == Finished(k, Absorbed(k, old(Mac()).0, old(Mac()).1 + Concatenated(pieces)[..len]))
    {
      hide Xor, KeyedOk, Absorbed, Finished, Zeros;
      ghost var s0, all := Mac(), Concatenated(pieces);
      var left: nat, i: nat := len, 0;
      AbsorbedKeep(s0.0, s0.1);
      assert s0.1 + all[..0] == s0.1;
      while left > 0
        invariant left <= len && i <= |pieces| && ilen < BS && Valid()
        invariant left <= |Concatenated(pieces[i..])| && all[len - left..] == Concatenated(pieces[i..])
        invariant Mac() == Absorbed(k, s0.0, s0.1 + all[..len - left])
        decreases |pieces| - i
      {
        var n := if |pieces[i]| < left then |pieces[i]| else left;
        ghost var done := all[..len - left];
        assert pieces[i..][1..] == pieces[i + 1..];
        assert all[len - left..] == pieces[i] + Concatenated(pieces[i + 1..]);
        ComputeMac(pieces[i][..n]);
        AbsorbedAppend(k, s0.0, s0.1 + done, pieces[i][..n]);
        assert (s0.1 + done) + pieces[i][..n] == s0.1 + all[..len - left + n];
        if n == left {
          left := 0;
          break;
        }
        assert all[len - (left - n)..] == Concatenated(pieces[i + 1..]);
        left, i := left - n, i + 1;
      }
      assert all[..len] == all[..len - left] by { assert left == 0; }
      if ilen > 0 {
        ghost var w := idata[..ilen];
        ghost var x := odata[..];
        Keep(Zeros(BS - ilen));
        assert idata[..] == idata[..ilen];
        Chain(idata[..]);
        FinishedWith(x, w);
        ilen := 0;
      } else {
        FinishedEmpty(odata[..]);
        assert idata[..0] == [];
      }
    }

    lemma AbsorbedKeep(x: Bytes, r: Bytes)
      requires Valid() && |x| == BS && |r| < BS
      ensures Absorbed(k, x, r) == (x, r)
    {}

    lemma FinishedWith(x: Bytes, r: Bytes)
      requires Valid() && |x| == BS && 0 < |r| < BS
      ensures Finished(k, (x, r)) == k.enc(Xor(x, r + Zeros(BS - |r|)))
    {}

    lemma FinishedEmpty(x: Bytes)
      requires Valid() && |x| == BS
      ensures Finished(k, (x, [])) == x
    {}

    /** set_msg_len: the length in the last csize bytes of odata. */
    method SetMsgLen(msglen: nat, csize: nat) returns (ok: bool)
      requires Valid() && 2 <= csize <= 8 && msglen < Pow256(4)
      modifies odata
      ensures ok == (csize >= 4 || msglen <= Pow256(csize))
      ensures odata[..BS - csize] == old(odata[..BS - csize]) && (ok ==> odata[BS - csize..] == BE(msglen, csize))
    {
      hide BE, Zeros, KeyedOk;
      forall i | 0 <= i < csize {
        odata[BS - csize + i] := 0;
      }
      var n := csize;
      if csize >= 4 {
        n := 4;
        WideField(msglen, csize);
      } else if msglen > Pow256(csize) {
        return false;
      } else {
        assert Zeros(0) + BE(msglen, csize) == BE(msglen, csize);
      }
      assert odata[BS - csize..BS - n] == Zeros(csize - n) by { AllZero(csize - n); }
      var data := BE(msglen, n);
      forall i | 0 <= i < n {
        odata[BS - n + i] := data[i];
      }
      assert odata[BS - csize..] == odata[BS - csize..BS - n] + odata[BS - n..];
      ok := true;
    }

    lemma AllZero(n: nat)
      ensures |Zeros(n)| == n && forall i :: 0 <= i < n ==> Zeros(n)[i] == 0
    {}

    /** format_input: B_0 into odata; false is -EOVERFLOW. */
    method FormatInput(iv: Bytes, m: nat, assoclen: nat, cryptlen: nat) returns (ok: bool)
      requires Valid() && ValidIv(iv) && ValidTag(m) && cryptlen < Pow256(4)
      modifies odata
      ensures ok == (iv[0] as nat >= 3 || cryptlen <= Pow256(iv[0] as nat + 1))
      ensures ok ==> odata[..] == B0(iv, m, assoclen > 0, cryptlen)
    {
      hide BE, KeyedOk, Flags, Pow256;
      var l := iv[0] as nat + 1;
      forall i | 0 <= i < BS {
        odata[i] := iv[i];
      }
      FlagOrder(iv, m, assoclen > 0);
      odata[0] := FlagByte(odata[0], m, assoclen > 0);
      ghost var first := odata[..];
      ok := SetMsgLen(cryptlen, l);
      if ok { FirstBlock(iv, m, assoclen > 0, cryptlen, first, odata[..]); }
    }

    /** The first byte as format_input sets its bits. */
    function FlagByte(b: bv8, m: nat, adata: bool): bv8
      requires ValidTag(m)
    {
      var f := b | ((8 * ((m - 2) / 2)) as bv8);
      if adata then f | 64 else f
    }

    lemma FlagOrder(iv: Bytes, m: nat, adata: bool)
      requires ValidIv(iv) && ValidTag(m)
      ensures FlagByte(iv[0], m, adata) == Flags(iv[0], m, adata)
    {
      OrOrder(iv[0], (8 * ((m - 2) / 2)) as bv8);
    }

    lemma OrOrder(a: bv8, b: bv8)
      ensures a | b == (0 | b) | a && (a | b) | 64 == (64 | b) | a
    {}

    lemma FirstBlock(iv: Bytes, m: nat, adata: bool, n: nat, was: Bytes, now: Bytes)
      requires ValidIv(iv) && ValidTag(m) && |was| == |now| == BS && was == [Flags(iv[0], m, adata)] + iv[1..]
      requires var e := NonceEnd(iv); now[..e] == was[..e] && now[e..] == BE(n, iv[0] as nat + 1)
      ensures now == B0(iv, m, adata, n)
    {
      hide BE, Flags;
      var e := NonceEnd(iv);
      assert now == now[..e] + now[e..];
      assert was[..e] == [Flags(iv[0], m, adata)] + iv[1..e];
    }

    /** format_adata: the length of the additional data into idata. */
    method FormatAdata(a: nat)
      requires Valid() && ilen == 0
      modifies this`ilen, idata
      ensures 0 < ilen < BS && idata[..ilen] == AdataLength(a)
    {
      assert idata[..0] == [];
      var b := if a < 65280 then BE(a, 2) else [0xFF, 0xFE] + BE(a, 4);
      Keep(b);
    }

    /** crypto_ccm_auth: the authentication value into odata, however the additional data
        and the plaintext are split into pieces. */
    method Auth(iv: Bytes, m: nat, assoc: seq<Bytes>, assoclen: nat, plain: seq<Bytes>, cryptlen: nat) returns (ok: bool)
      requires Valid() && ValidIv(iv) && ValidTag(m) && cryptlen < Pow256(4)
      requires assoclen <= |Concatenated(assoc)| && cryptlen <= |Concatenated(plain)|
      modifies this`ilen, odata, idata
      ensures ok == (iv[0] as nat >= 3 || cryptlen <= Pow256(iv[0] as nat + 1))
      ensures ok ==> odata[..] == CcmMode.Mac(k, iv, m, Concatenated(assoc)[..assoclen], Concatenated(plain)[..cryptlen])
    {
      hide Xor, KeyedOk, Absorbed, Finished, Padded, AdataLength, B0;
      ok := FormatInput(iv, m, assoclen, cryptlen);
      if !ok { return; }
      ghost var a, p := Concatenated(assoc)[..assoclen], Concatenated(plain)[..cryptlen];
      EncryptFirst();
      ghost var x := odata[..];
      ilen := 0;
      ghost var d := if a == [] then [] else AdataLength(|a|) + a;
      if assoclen > 0 {
        FormatAdata(assoclen);
        GetData(assoc, assoclen);
      } else {
        NothingPadded(x);
      }
      FinishedIsMac(k, x, d);
      ghost var y := odata[..];
      assert idata[..0] + p == p;
      GetData(plain, cryptlen);
      FinishedIsMac(k, y, p);
      MacAppend(k, x, d, Padded(p));
      AsOneMac(iv, m, a, p, d);
    }

    lemma NothingPadded(x: Bytes)
      requires Valid() && |x| == BS
      ensures Padded([]) == [] && Finished(k, Absorbed(k, x, [])) == x
    {}

    lemma AsOneMac(iv: Bytes, m: nat, a: Bytes, p: Bytes, d: Bytes)
      requires Valid() && ValidIv(iv) && ValidTag(m) && d == if a == [] then [] else AdataLength(|a|) + a
      ensures CcmMode.Mac(k, iv, m, a, p) == CbcMac(k, k.enc(B0(iv, m, a != [], |p|)), Padded(d) + Padded(p))
    {
      hide CbcMac, B0;
      assert Padded([]) == [];
      if a == [] { assert [] + Padded(p) == Padded(p); }
    }

    method EncryptFirst()
      requires Valid()
      modifies odata
      ensures odata[..] == k.enc(old(odata[..]))
    {
      var y := k.enc(odata[..]);
      forall i | 0 <= i < BS {
        odata[i] := y[i];
      }
    }

    /** crypto_ccm_encrypt: ciphertext and tag, or the error. */
    method Encrypt(iv: Bytes, m: nat, assoc: seq<Bytes>, assoclen: nat, src: seq<Bytes>, cryptlen: nat) returns (r: Result)
      requires Valid() && |iv| == BS && ValidTag(m) && cryptlen < Pow256(4)
      requires assoclen <= |Concatenated(assoc)| && cryptlen <= |Concatenated(src)|
      modifies this`ilen, odata, idata
      ensures r == if !ValidIv(iv) then Err(EINVAL)
                   else if iv[0] as nat < 3 && cryptlen > Pow256(iv[0] as nat + 1) then Err(EOVERFLOW)
                   else Ok(Sealed(k, iv, m, Concatenated(assoc)[..assoclen], Concatenated(src)[..cryptlen]))
    {
      hide Xor, KeyedOk, CcmMode.Mac;
      if iv[0] as nat < 1 || iv[0] as nat > 7 { return Err(EINVAL); }
      var ok := Auth(iv, m, assoc, assoclen, src, cryptlen);
      if !ok { return Err(EOVERFLOW); }
      StreamLength(A0(iv), BS + cryptlen);
      var s := k.stream(A0(iv), BS + cryptlen);
      var tag := Xor(odata[..], s[..BS]);
      var data := Flat(src)[..cryptlen];
      r := Ok(Xor(data, s[BS..]) + tag[..m]);
    }

    lemma StreamLength(iv: Bytes, n: nat)
      requires Valid() && |iv| == BS
      ensures |k.stream(iv, n)| == n
    {}

    function Flat(pieces: seq<Bytes>): (b: Bytes)
      ensures b == Concatenated(pieces)
    {
      if pieces == [] then [] else pieces[0] + Flat(pieces[1..])
    }

    /** crypto_ccm_decrypt: it returns a plaintext exactly when the input is the sealed
        form of that plaintext. */
    method Decrypt(iv: Bytes, m: nat, assoc: seq<Bytes>, assoclen: nat, src: seq<Bytes>, srclen: nat) returns (r: Result)
      requires Valid() && |iv| == BS && ValidTag(m) && srclen < Pow256(4)
      requires assoclen <= |Concatenated(assoc)| && srclen <= |Concatenated(src)|
      modifies this`ilen, odata, idata, authTag
      ensures srclen < m || !ValidIv(iv) ==> r == Err(EINVAL)
      ensures srclen >= m && ValidIv(iv) ==>
        (r == Err(EOVERFLOW) <==> iv[0] as nat < 3 && srclen - m > Pow256(iv[0] as nat + 1))
      ensures srclen >= m && ValidIv(iv) ==> r.Ok? || r == Err(EOVERFLOW) || r == Err(EBADMSG)
      ensures r.Ok? ==> |r.data| == srclen - m
      ensures srclen >= m && ValidIv(iv) && r != Err(EOVERFLOW) ==>
        forall p: Bytes :: |p| == srclen - m ==>
          (r == Ok(p) <==> Sealed(k, iv, m, Concatenated(assoc)[..assoclen], p) == Concatenated(src)[..srclen])
    {
      hide Xor, KeyedOk, CcmMode.Mac, Sealed, A0;
      if srclen < m { return Err(EINVAL); }
      var n := srclen - m;
      if iv[0] as nat < 1 || iv[0] as nat > 7 { return Err(EINVAL); }
      var c := Flat(src)[..srclen];
      forall i | 0 <= i < m {
        authTag[i] := c[n + i];
      }
      StreamLength(A0(iv), BS + n);
      var s := k.stream(A0(iv), BS + n);
      assert authTag[..m] == c[n..];
      var tag := Xor(authTag[..], s[..BS]);
      XorTake(authTag[..], s[..BS], m);
      assert authTag[..][..m] == c[n..] && s[..BS][..m] == s[..m];
      forall i | 0 <= i < BS {
        authTag[i] := tag[i];
      }
      assert authTag[..] == tag && authTag[..m] == tag[..m];
      var data := Xor(c[..n], s[BS..]);
      OnePiece(data);
      var ok := Auth(iv, m, assoc, assoclen, [data], n);
      if !ok { return Err(EOVERFLOW); }
      ghost var a := Concatenated(assoc)[..assoclen];
      assert data[..n] == data;
      assert odata[..m] == CcmMode.Mac(k, iv, m, a, data)[..m];
      forall p: Bytes | |p| == n ensures Sealed(k, iv, m, a, p) == c <==> p == data && authTag[..m] == odata[..m] {
        OpensExactlySealed(k, iv, m, a, c, p);
      }
      if authTag[..m] != odata[..m] { return Err(EBADMSG); }
      r := Ok(data);
    }

    lemma OnePiece(data: Bytes)
      ensures Concatenated([data]) == data
    {
      assert [data][1..] == [];
    }
  }

  /** What was encrypted decrypts to the plaintext, and the tag is accepted, however both
      were split into pieces. */
  method RoundTrip(q: Request, iv: Bytes, m: nat, assoc: seq<Bytes>, src: seq<Bytes>, assoc': seq<Bytes>, coded: seq<Bytes>)
    returns (r: Result)
    requires q.Valid() && ValidIv(iv) && ValidTag(m) && |Concatenated(src)| + m < Pow256(4)
    requires iv[0] as nat < 3 ==> |Concatenated(src)| <= Pow256(iv[0] as nat + 1)
    requires Concatenated(assoc') == Concatenated(assoc)
    requires Concatenated(coded) == Sealed(q.k, iv, m, Concatenated(assoc), Concatenated(src))
    modifies q`ilen, q.odata, q.idata, q.authTag
    ensures r == Ok(Concatenated(src))
  {
    hide Sealed, KeyedOk;
    var a, c := q.Flat(assoc'), q.Flat(coded);
    assert a[..|a|] == a && c[..|c|] == c;
    r := q.Decrypt(iv, m, assoc', |a|, coded, |c|);
  }
}
