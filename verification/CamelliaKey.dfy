/** camellia_set_key, camellia_encrypt and camellia_decrypt: the cipher as its users
    see it, on bytes. */
module CamelliaKey {
  import opened Words
  import opened CamelliaCipher
  import opened Camellia
  import opened CamelliaInPlace
  import opened CamelliaSetup
  import opened CamelliaSchedule
  import opened CamelliaShift

  method Fill<T>(s: seq<T>) returns (a: array<T>)
    ensures fresh(a) && a[..] == s
  {
    a := new T[|s|](i requires 0 <= i < |s| => s[i]);
  }

  lemma RotNone(q: Quad)
    ensures Rot(q, 0) == q
  {}

  /** The rotations of KL in camellia_setup128. */
  method Subkeys128(s: Sboxes, kl: Quad) returns (k: seq<Half>)
    ensures k == Schedule128(s, kl)
  {
    hide Rot, Shift, KA, Hi, Lo;
    RotNone(kl);
    var l15 := Rotate(kl, 15, kl, 0);
    var l45 := Rotate(l15, 30, kl, 15);
    var l60 := Rotate(l45, 15, kl, 45);
    var l77 := Rotate(l60, 17, kl, 60);
    var l94 := Rotate(l77, 17, kl, 77);
    var l111 := Rotate(l94, 17, kl, 94);
    var a := MakeKA128(s, kl);
    RotNone(a);
    var a15 := Rotate(a, 15, a, 0);
    var a30 := Rotate(a15, 15, a, 15);
    var a45 := Rotate(a30, 15, a, 30);
    var a60 := Rotate(a45, 15, a, 45);
    var a94 := Rotate(a60, 34, a, 60);
    var a111 := Rotate(a94, 17, a, 94);
    k := [Hi(kl), Lo(kl),
          Hi(a), Lo(a), Hi(l15), Lo(l15), Hi(a15), Lo(a15),
          Hi(a30), Lo(a30),
          Hi(l45), Lo(l45), Hi(a45), Lo(l60), Hi(a60), Lo(a60),
          Hi(l77), Lo(l77),
          Hi(l94), Lo(l94), Hi(a94), Lo(a94), Hi(l111), Lo(l111),
          Hi(a111), Lo(a111)];
  }

  method Subkeys256(s: Sboxes, kl: Quad, kr: Quad) returns (k: seq<Half>)
    ensures k == Schedule256(s, kl, kr)
  {
    hide Rot, Shift, KA, KB, Hi, Lo;
    RotNone(kl);
    var l45 := Rotate(kl, 45, kl, 0);
    var l60 := Rotate(l45, 15, kl, 45);
    var l77 := Rotate(l60, 17, kl, 60);
    var l111 := Rotate(l77, 34, kl, 77);
    RotNone(kr);
    var r15 := Rotate(kr, 15, kr, 0);
    var r30 := Rotate(r15, 15, kr, 15);
    var r60 := Rotate(r30, 30, kr, 30);
    var r94 := Rotate(r60, 34, kr, 60);
    var r128 := Rotate(r94, 34, kr, 94);
    RotFull(kr);
    var a := MakeKA256(s, kl, r128);
    var b := MakeKB(s, a, r128);
    RotNone(a);
    var a15 := Rotate(a, 15, a, 0);
    var a45 := Rotate(a15, 30, a, 15);
    var a77 := Quad(a45.lr, a45.rl, a45.rr, a45.ll);
    RotWord(a45);
    RotAdd(a, 45, 32);
    var a94 := Rotate(a45, 49, a, 45);
    RotNone(b);
    var b30 := Rotate(b, 30, b, 0);
    var b60 := Rotate(b30, 30, b, 30);
    var b111 := Rotate(b60, 51, b, 60);
    k := [Hi(kl), Lo(kl),
          Hi(b), Lo(b), Hi(r15), Lo(r15), Hi(a15), Lo(a15),
          Hi(r30), Lo(r30),
          Hi(b30), Lo(b30), Hi(l45), Lo(l45), Hi(a45), Lo(a45),
          Hi(l60), Lo(l60),
          Hi(r60), Lo(r60), Hi(b60), Lo(b60), Hi(l77), Lo(l77),
          Hi(a77), Lo(a77),
          Hi(r94), Lo(r94), Hi(a94), Lo(a94), Hi(l111), Lo(l111),
          Hi(b111), Lo(b111)];
  }

  /** The plaintext or ciphertext of 16 bytes, most significant first. */
  function QuadOf(b: seq<bv8>): Quad
    requires |b| == 16
  {
    Quad(Word(b[0], b[1], b[2], b[3]), Word(b[4], b[5], b[6], b[7]), Word(b[8], b[9], b[10], b[11]),
         Word(b[12], b[13], b[14], b[15]))
  }

  function BytesOf(w: bv32): seq<bv8> { [Byte3(w), Byte2(w), Byte1(w), Byte0(w)] }

  function BytesOfQuad(q: Quad): (b: seq<bv8>)
    ensures |b| == 16
  {
    BytesOf(q.ll) + BytesOf(q.lr) + BytesOf(q.rl) + BytesOf(q.rr)
  }

  lemma WordOfBytes(w: bv32)
    ensures Word(Byte3(w), Byte2(w), Byte1(w), Byte0(w)) == w
  {}

  lemma QuadOfBytes(q: Quad)
    ensures QuadOf(BytesOfQuad(q)) == q
  {
    hide Word, Byte3, Byte2, Byte1, Byte0;
    WordOfBytes(q.ll);
    WordOfBytes(q.lr);
    WordOfBytes(q.rl);
    WordOfBytes(q.rr);
  }

  lemma BytesOfWord(a: bv8, b: bv8, c: bv8, d: bv8)
    ensures BytesOf(Word(a, b, c, d)) == [a, b, c, d]
  {}

  lemma BytesOfQuadOf(b: seq<bv8>)
    requires |b| == 16
    ensures BytesOfQuad(QuadOf(b)) == b
  {
    hide Word, BytesOf;
    BytesOfWord(b[0], b[1], b[2], b[3]);
    BytesOfWord(b[4], b[5], b[6], b[7]);
    BytesOfWord(b[8], b[9], b[10], b[11]);
    BytesOfWord(b[12], b[13], b[14], b[15]);
  }

  // ----- what the RFC says about keys and blocks of bytes -----

  predicate KeyLength(n: nat) { n == 16 || n == 24 || n == 32 }

  /** The subkeys of a key of 16, 24 or 32 bytes; a 192-bit key is extended with the
      complement of its last 64 bits. */
  function RfcSubkeys(s: Sboxes, key: seq<bv8>): (k: seq<Half>)
    requires KeyLength(|key|)
    ensures Schedule(k) && |k| == if |key| == 16 then 26 else 34
  {
    if |key| == 16 then Schedule128(s, QuadOf(key))
    else if |key| == 32 then Schedule256(s, QuadOf(key[..16]), QuadOf(key[16..]))
    else
      var r := Half(Word(key[16], key[17], key[18], key[19]), Word(key[20], key[21], key[22], key[23]));
      Schedule256(s, QuadOf(key[..16]), Join(r, NotHalf(r)))
  }

  function ToBlock(b: seq<bv8>): Block
    requires |b| == 16
  {
    Block(Hi(QuadOf(b)), Lo(QuadOf(b)))
  }

  /** The bytes of a cipher result: d2 comes first. */
  function FromBlockSwapped(x: Block): (b: seq<bv8>)
    ensures |b| == 16
  {
    BytesOfQuad(Join(x.d2, x.d1))
  }

  function RfcEncrypt(s: Sboxes, key: seq<bv8>, block: seq<bv8>): seq<bv8>
    requires KeyLength(|key|) && |block| == 16
  {
    FromBlockSwapped(Cipher(s, RfcSubkeys(s, key), ToBlock(block)))
  }

  function NotByte(b: bv8): bv8 { !b }

  lemma NotBytes(a: bv8, b: bv8, c: bv8, d: bv8)
    ensures Word(!a, !b, !c, !d) == Not(Word(a, b, c, d))
  {}

  lemma NotWord(a: bv8, b: bv8, c: bv8, d: bv8)
    ensures Word(NotByte(a), NotByte(b), NotByte(c), NotByte(d)) == Not(Word(a, b, c, d))
  {
    hide Word, Not;
    NotBytes(a, b, c, d);
  }

  /** The extended key of camellia_setup192 has the RFC's KR. */
  lemma Extended192(key: seq<bv8>, kk: seq<bv8>)
    requires |key| == 24 && |kk| == 32 && kk[..24] == key && forall i :: 24 <= i < 32 ==> kk[i] == NotByte(key[i - 8])
    ensures var r := Half(Word(key[16], key[17], key[18], key[19]), Word(key[20], key[21], key[22], key[23]));
      QuadOf(kk[..16]) == QuadOf(key[..16]) && QuadOf(kk[16..]) == Join(r, NotHalf(r))
  {
    hide Word, Not, NotByte;
    assert kk[..16] == key[..16];
    assert kk[24] == NotByte(key[16]) && kk[25] == NotByte(key[17]) && kk[26] == NotByte(key[18]) && kk[27] == NotByte(key[19]);
    assert kk[28] == NotByte(key[20]) && kk[29] == NotByte(key[21]) && kk[30] == NotByte(key[22]) && kk[31] == NotByte(key[23]);
    assert kk[16] == key[16] && kk[17] == key[17] && kk[18] == key[18] && kk[19] == key[19];
    assert kk[20] == key[20] && kk[21] == key[21] && kk[22] == key[22] && kk[23] == key[23];
    NotWord(key[16], key[17], key[18], key[19]);
    NotWord(key[20], key[21], key[22], key[23]);
    var t := kk[16..];
    assert t[0] == kk[16] && t[1] == kk[17] && t[2] == kk[18] && t[3] == kk[19] && t[4] == kk[20] && t[5] == kk[21];
    assert t[6] == kk[22] && t[7] == kk[23] && t[8] == kk[24] && t[9] == kk[25] && t[10] == kk[26] && t[11] == kk[27];
    assert t[12] == kk[28] && t[13] == kk[29] && t[14] == kk[30] && t[15] == kk[31];
  }

  function MaxFor(keyLength: nat): nat { if keyLength == 16 then 24 else 32 }

  /** struct camellia_ctx */
  class Context {
    const s: Sboxes
    var keyLength: nat
    const keyTable: array<bv32>
    ghost var key: seq<bv8>

    ghost predicate Valid()
      reads this, keyTable
    {
      && keyTable.Length == 68
      && (keyLength != 0 ==>
            && KeyLength(keyLength) && |key| == keyLength
            && forall x :: Encrypt(s, Table(keyTable[..]), MaxFor(keyLength), x) == Cipher(s, RfcSubkeys(s, key), x))
    }

    constructor (s: Sboxes)
      ensures Valid() && keyLength == 0 && this.s == s && fresh(keyTable)
    {
      this.s, keyLength, keyTable, key := s, 0, new bv32[68], [];
    }

    method Setup(k: seq<Half>, max: nat)
      requires keyTable.Length == 68 && ValidMax(max) && |k| == max + 2
      modifies keyTable
      ensures forall x :: Encrypt(s, Table(keyTable[..]), max, x) == Cipher(s, k, x)
    {
      var sub := Fill(k);
      SetupTail(keyTable, sub, max);
    }

    /** camellia_set_key: false is -EINVAL. */
    method SetKey(inKey: seq<bv8>) returns (ok: bool)
      requires Valid()
      modifies this, keyTable
      ensures Valid() && ok == KeyLength(|inKey|)
      ensures ok ==> key == inKey && keyLength == |inKey|
      ensures !ok ==> key == old(key) && keyLength == old(keyLength) && keyTable[..] == old(keyTable[..])
    {
      hide Encrypt, Cipher, Schedule128, Schedule256, Word, Not;
      if |inKey| != 16 && |inKey| != 24 && |inKey| != 32 {
        return false;
      }
      var k;
      if |inKey| == 16 {
        k := Subkeys128(s, QuadOf(inKey));
        Setup(k, 24);
      } else if |inKey| == 32 {
        k := Subkeys256(s, QuadOf(inKey[..16]), QuadOf(inKey[16..]));
        Setup(k, 32);
      } else {
        var kk := inKey + seq(8, i requires 0 <= i < 8 => NotByte(inKey[16 + i]));
        Extended192(inKey, kk);
        k := Subkeys256(s, QuadOf(kk[..16]), QuadOf(kk[16..]));
        Setup(k, 32);
      }
      keyLength, key := |inKey|, inKey;
      ok := true;
    }

    /** The four words of a block are loaded, worked on and stored with the halves
        swapped. */
    method Load(src: array<bv8>) returns (io: array<bv32>)
      requires src.Length == 16
      ensures fresh(io) && io.Length == 4 && BlockOf(io[..]) == ToBlock(src[..])
    {
      hide Word;
      var q := QuadOf(src[..]);
      io := new bv32[4];
      io[0], io[1], io[2], io[3] := q.ll, q.lr, q.rl, q.rr;
    }

    method StoreSwapped(dst: array<bv8>, io: array<bv32>)
      requires dst.Length == 16 && io.Length == 4
      modifies dst
      ensures dst[..] == FromBlockSwapped(BlockOf(io[..]))
    {
      hide Byte3, Byte2, Byte1, Byte0;
      var b := BytesOfQuad(Quad(io[2], io[3], io[0], io[1]));
      forall i | 0 <= i < 16 {
        dst[i] := b[i];
      }
    }

    /** camellia_encrypt, also in place: what is stored is what the RFC prescribes. */
    method EncryptBlock(dst: array<bv8>, src: array<bv8>)
      requires Valid() && keyLength != 0 && dst.Length == 16 && src.Length == 16
      modifies dst
      ensures dst[..] == RfcEncrypt(s, key, old(src[..]))
    {
      hide Encrypt, Cipher, RfcSubkeys, BytesOfQuad, QuadOf;
      var io := Load(src);
      EncryptInPlace(s, keyTable, io, MaxFor(keyLength));
      StoreSwapped(dst, io);
    }

    /** camellia_decrypt gives back the plaintext of which src is the ciphertext. */
    method DecryptBlock(dst: array<bv8>, src: array<bv8>)
      requires Valid() && keyLength != 0 && dst.Length == 16 && src.Length == 16
      modifies dst
      ensures forall p :: |p| == 16 && old(src[..]) == RfcEncrypt(s, key, p) ==> dst[..] == p
    {
      hide Encrypt, Decrypt, Cipher, RfcSubkeys, BytesOfQuad, QuadOf;
      var io := Load(src);
      ghost var b := src[..];
      ghost var t := Table(keyTable[..]);
      var max := MaxFor(keyLength);
      DecryptInPlace(s, keyTable, io, max);
      StoreSwapped(dst, io);
      ghost var y := Decrypt(s, t, max, ToBlock(b));
      forall p | |p| == 16 && b == RfcEncrypt(s, key, p) ensures FromBlockSwapped(y) == p {
        SwappedBack(Encrypt(s, t, max, ToBlock(p)));
        DecryptUndoesEncrypt(s, t, max, ToBlock(p));
        BytesOfQuadOf(p);
      }
    }
  }

  lemma SwappedBack(x: Block)
    ensures ToBlock(FromBlockSwapped(x)) == Swap(x)
  {
    hide BytesOfQuad, QuadOf;
    QuadOfBytes(Join(x.d2, x.d1));
  }
}
