/** crypto_aes_expand_key, aes_encrypt and aes_decrypt. */
module AesKey {
  import opened Words
  import opened AesCipher
  import opened Aes

  predicate KeyLength(n: nat) { n == 16 || n == 24 || n == 32 }

  function NumRounds(keyLen: nat): nat
    requires KeyLength(keyLen)
  {
    keyLen / 4 + 6
  }

  function KeyCols(key: seq<bv8>): (c: seq<Col>)
    requires KeyLength(|key|)
    ensures |c| == |key| / 4
  {
    seq(|key| / 4, i requires 0 <= i < |key| / 4 => Col(key[4 * i], key[4 * i + 1], key[4 * i + 2], key[4 * i + 3]))
  }

  /** The round keys of the cipher for a key of 16, 24 or 32 bytes. */
  function Schedule(s: Sbox, key: seq<bv8>): (w: seq<Col>)
    requires KeyLength(|key|)
    ensures |w| == |key| + 28 == 4 * NumRounds(|key|) + 4
  {
    seq(|key| + 28, i requires 0 <= i < |key| + 28 => Expanded(s, KeyCols(key), i))
  }

  // ----- key expansion -----

  const RCO_TAB: seq<bv8> := [1, 2, 4, 8, 16, 32, 64, 128, 27, 54]

  /** The table holds the powers of x. */
  lemma RconTable(i: nat)
    requires i < 10
    ensures RCO_TAB[i] == Rcon(i)
  {
    assert Xtime(1) == 2 && Xtime(2) == 4 && Xtime(4) == 8 && Xtime(8) == 16 && Xtime(16) == 32;
    assert Xtime(32) == 64 && Xtime(64) == 128 && Xtime(128) == 27 && Xtime(27) == 54;
    assert Rcon(0) == 1 && Rcon(1) == 2 && Rcon(2) == 4 && Rcon(3) == 8 && Rcon(4) == 16;
    assert Rcon(5) == 32 && Rcon(6) == 64 && Rcon(7) == 128 && Rcon(8) == 27 && Rcon(9) == 54;
  }

  /** ls_box */
  function LsBox(s: Sbox, t: bv32): bv32 {
    X(X(X(FlTab(s, 0, Byte0(t)), FlTab(s, 1, Byte1(t))), FlTab(s, 2, Byte2(t))), FlTab(s, 3, Byte3(t)))
  }

  lemma LsBoxIs(s: Sbox, c: Col)
    ensures LsBox(s, WordOf(c)) == WordOf(MapCol(s.sub, c))
  {
    hide X, WordOf, XorCol, Byte0, Byte1, Byte2, Byte3;
    ColOfWord(c);
    var m := MapCol(s.sub, c);
    var u0, u1, u2, u3 := Unit(0, m.b0), Unit(1, m.b1), Unit(2, m.b2), Unit(3, m.b3);
    XorWords(u0, u1);
    XorWords(XorCol(u0, u1), u2);
    XorWords(XorCol(XorCol(u0, u1), u2), u3);
    XorColAssoc(XorCol(u0, u1), u2, u3);
    AsUnits(m);
  }

  /** The words below n have been expanded. */
  ghost predicate ExpandedBelow(s: Sbox, key: seq<Col>, enc: array<bv32>, n: nat)
    requires key != []
    reads enc
  {
    n <= enc.Length && forall i :: 0 <= i < n ==> enc[i] == WordOf(Expanded(s, key, i))
  }

  /** t ^= key_enc[n - nk]; key_enc[n] = t. */
  method NextWord(s: Sbox, ghost key: seq<Col>, enc: array<bv32>, nk: nat, n: nat, t: bv32) returns (t': bv32)
    requires 4 <= nk == |key| && nk <= n < enc.Length && ExpandedBelow(s, key, enc, n)
    requires t == WordOf(Change(s, key, n))
    modifies enc
    ensures ExpandedBelow(s, key, enc, n + 1) && t' == WordOf(Expanded(s, key, n))
  {
    hide X, WordOf, XorCol, MapCol, Rcon, RotWord;
    ExpandedIs(s, key, n);
    XorWords(Expanded(s, key, n - nk), Change(s, key, n));
    t' := X(enc[n - nk], t);
    enc[n] := t';
  }

  /** What is added to word n - nk to get word n. */
  function Change(s: Sbox, key: seq<Col>, n: nat): Col
    requires 0 < |key| <= n
  {
    var t := Expanded(s, key, n - 1);
    if n % |key| == 0 then XorCol(MapCol(s.sub, RotWord(t)), Col(Rcon(n / |key| - 1), 0, 0, 0))
    else if |key| > 6 && n % |key| == 4 then MapCol(s.sub, t)
    else t
  }

  lemma ExpandedIs(s: Sbox, key: seq<Col>, n: nat)
    requires 0 < |key| <= n
    ensures Expanded(s, key, n) == XorCol(Expanded(s, key, n - |key|), Change(s, key, n))
  {
    hide XorCol, MapCol, Rcon, RotWord;
  }

  /** t = ror32(t, 8); t = ls_box(t) ^ rco_tab[i]. */
  method RoundChange(s: Sbox, ghost key: seq<Col>, i: nat, t: bv32) returns (t': bv32)
    requires (|key| == 4 || |key| == 6 || |key| == 8) && i < 10 && t == WordOf(Expanded(s, key, |key| * (i + 1) - 1))
    ensures t' == WordOf(Change(s, key, |key| * (i + 1)))
  {
    hide X, WordOf, XorCol, MapCol, Rcon, Expanded, Ror8, LsBox;
    ghost var c := Expanded(s, key, |key| * (i + 1) - 1);
    RorWords(c);
    LsBoxIs(s, RotWord(c));
    RconTable(i);
    RconWord(i);
    XorWords(MapCol(s.sub, RotWord(c)), Col(Rcon(i), 0, 0, 0));
    Multiple(|key|, i);
    t' := Ror8(t);
    t' := X(LsBox(s, t'), RCO_TAB[i] as bv32);
  }

  lemma Multiple(nk: nat, i: nat)
    requires nk == 4 || nk == 6 || nk == 8
    ensures nk * (i + 1) % nk == 0 && nk * (i + 1) / nk == i + 1
  {
    if nk == 4 {
      assert 4 * (i + 1) % 4 == 0;
    } else if nk == 6 {
      assert 6 * (i + 1) % 6 == 0;
    } else {
      assert 8 * (i + 1) % 8 == 0;
    }
  }

  lemma RconWord(i: nat)
    requires i < 10
    ensures RCO_TAB[i] as bv32 == WordOf(Col(RCO_TAB[i], 0, 0, 0))
  {
    ByteWord(RCO_TAB[i]);
  }

  lemma ByteWord(b: bv8)
    ensures b as bv32 == WordOf(Col(b, 0, 0, 0))
  {}

  /** loop4, loop6 and the first half of loop8: word nk * (i + 1) and those after it
      that take their predecessor over unchanged. */
  method LoopBody(s: Sbox, ghost key: seq<Col>, enc: array<bv32>, nk: nat, i: nat, words: nat, t: bv32) returns (t': bv32)
    requires nk == |key| && (nk == 4 || nk == 6 || nk == 8) && i < 10 && 1 <= words <= 6 && words <= nk && (nk == 8 ==> words == 4)
    requires nk * (i + 1) + words <= enc.Length && ExpandedBelow(s, key, enc, nk * (i + 1))
    requires t == WordOf(Expanded(s, key, nk * (i + 1) - 1))
    modifies enc
    ensures ExpandedBelow(s, key, enc, nk * (i + 1) + words) && t' == WordOf(Expanded(s, key, nk * (i + 1) + words - 1))
  {
    hide WordOf, Change, Expanded;
    var b := nk * (i + 1);
    t' := RoundChange(s, key, i, t);
    t' := NextWord(s, key, enc, nk, b, t');
    for j := 1 to words
      invariant ExpandedBelow(s, key, enc, b + j) && t' == WordOf(Expanded(s, key, b + j - 1))
    {
      PlainChange(s, key, i, j);
      t' := NextWord(s, key, enc, nk, b + j, t');
    }
  }

  lemma PlainChange(s: Sbox, key: seq<Col>, i: nat, j: nat)
    requires (|key| == 4 || |key| == 6 || |key| == 8) && 0 < j < |key| && (|key| == 8 ==> j != 4)
    ensures Change(s, key, |key| * (i + 1) + j) == Expanded(s, key, |key| * (i + 1) + j - 1)
  {
    hide Expanded, XorCol, MapCol, Rcon, RotWord;
    Multiple(|key|, i);
  }

  /** The second half of loop8. */
  method LoopSecondHalf(s: Sbox, ghost key: seq<Col>, enc: array<bv32>, i: nat, t: bv32) returns (t': bv32)
    requires |key| == 8 && i < 10 && 8 * i + 16 <= enc.Length && ExpandedBelow(s, key, enc, 8 * i + 12)
    requires t == WordOf(Expanded(s, key, 8 * i + 11))
    modifies enc
    ensures ExpandedBelow(s, key, enc, 8 * i + 16) && t' == WordOf(Expanded(s, key, 8 * i + 15))
  {
    hide WordOf, Expanded, MapCol, LsBox;
    LsBoxIs(s, Expanded(s, key, 8 * i + 11));
    assert Change(s, key, 8 * i + 12) == MapCol(s.sub, Expanded(s, key, 8 * i + 11));
    t' := LsBox(s, t);
    t' := NextWord(s, key, enc, 8, 8 * i + 12, t');
    for j := 5 to 8
      invariant ExpandedBelow(s, key, enc, 8 * i + 8 + j) && t' == WordOf(Expanded(s, key, 8 * i + 8 + j - 1))
    {
      PlainChange(s, key, i, j);
      t' := NextWord(s, key, enc, 8, 8 * i + 8 + j, t');
    }
  }

  /** The loops of crypto_aes_expand_key over key_enc. */
  method ExpandEnc(s: Sbox, ghost key: seq<Col>, enc: array<bv32>, keyLen: nat)
    requires KeyLength(keyLen) && |key| == keyLen / 4 && enc.Length == 60 && ExpandedBelow(s, key, enc, keyLen / 4)
    modifies enc
    ensures ExpandedBelow(s, key, enc, keyLen + 28)
  {
    hide WordOf, Expanded;
    var t := enc[keyLen / 4 - 1];
    if keyLen == 16 {
      for i := 0 to 10
        invariant ExpandedBelow(s, key, enc, 4 * i + 4) && t == WordOf(Expanded(s, key, 4 * i + 3))
      {
        t := LoopBody(s, key, enc, 4, i, 4, t);
      }
    } else if keyLen == 24 {
      for i := 0 to 8
        invariant ExpandedBelow(s, key, enc, 6 * i + 6) && t == WordOf(Expanded(s, key, 6 * i + 5))
      {
        t := LoopBody(s, key, enc, 6, i, 6, t);
      }
    } else {
      for i := 0 to 6
        invariant ExpandedBelow(s, key, enc, 8 * i + 8) && t == WordOf(Expanded(s, key, 8 * i + 7))
      {
        t := LoopBody(s, key, enc, 8, i, 4, t);
        t := LoopSecondHalf(s, key, enc, i, t);
      }
      t := LoopBody(s, key, enc, 8, 6, 4, t);
    }
  }

  // ----- the keys of the equivalent inverse cipher (section 5.3.5) -----

  /** Word i of the decryption keys for a schedule w of n rounds. */
  function DecWord(w: seq<Col>, n: nat, i: nat): Col
    requires 4 * n + 4 <= |w| && i < 4 * n + 4
  {
    var c := w[4 * (n - i / 4) + i % 4];
    if i / 4 == 0 || i / 4 == n then c else InvMix(c)
  }

  ghost predicate DecKeys(w: seq<Col>, n: nat, dec: seq<bv32>)
    requires 4 * n + 4 <= |w|
  {
    4 * n + 4 <= |dec| && forall i :: 0 <= i < 4 * n + 4 ==> dec[i] == WordOf(DecWord(w, n, i))
  }

  /** The last loop of crypto_aes_expand_key: the middle round keys are reversed and
      passed through imix_col. */
  method FillDec(ghost w: seq<Col>, enc: array<bv32>, dec: array<bv32>, keyLen: nat)
    requires KeyLength(keyLen) && |w| == keyLen + 28 && enc.Length == dec.Length == 60 && enc != dec
    requires forall i :: 0 <= i < |w| ==> enc[i] == WordOf(w[i])
    modifies dec
    ensures DecKeys(w, NumRounds(keyLen), dec[..])
  {
    hide WordOf, ImixCol, InvMix, Mirror;
    ghost var n := NumRounds(keyLen);
    for i := 0 to 4
      invariant forall j :: 0 <= j < i ==> dec[j] == enc[keyLen + 24 + j] && dec[keyLen + 24 + j] == enc[j]
    {
      dec[keyLen + 24 + i] := enc[i];
      dec[i] := enc[keyLen + 24 + i];
    }
    for i := 4 to keyLen + 24
      invariant forall j :: 0 <= j < 4 ==> dec[j] == enc[keyLen + 24 + j] && dec[keyLen + 24 + j] == enc[j]
      invariant forall m :: 4 <= m < i ==> dec[Mirror(keyLen, m)] == WordOf(InvMix(w[m]))
    {
      var j := keyLen + 24 - (i - i % 4) + i % 4;
      ImixIsInvMix(w[i]);
      MirrorsApart(keyLen, i);
      dec[j] := ImixCol(enc[i]);
    }
    forall i | 0 <= i < 4 * n + 4 ensures dec[i] == WordOf(DecWord(w, n, i)) {
      MirrorBack(keyLen, i);
    }
  }

  lemma MirrorBack(keyLen: nat, i: nat)
    requires KeyLength(keyLen) && i < keyLen + 28
    ensures var n := NumRounds(keyLen); var m := 4 * (n - i / 4) + i % 4;
      && (i / 4 == 0 ==> m == keyLen + 24 + i) && (i / 4 == n ==> m == i - (keyLen + 24))
      && (0 < i / 4 < n ==> 4 <= m < keyLen + 24 && Mirror(keyLen, m) == i)
  {}

  function Mirror(keyLen: nat, i: nat): (j: nat)
    requires i < keyLen + 24
    ensures j <= keyLen + 27
  {
    keyLen + 24 - (i - i % 4) + i % 4
  }

  lemma MirrorsApart(keyLen: nat, i: nat)
    requires KeyLength(keyLen) && 4 <= i < keyLen + 24
    ensures Mirror(keyLen, i) == keyLen + 24 - (i - i % 4) + i % 4
    ensures 4 <= Mirror(keyLen, i) < keyLen + 24
    ensures forall m :: 4 <= m < i ==> Mirror(keyLen, m) != Mirror(keyLen, i)
  {}

  // ----- encryption and decryption of a block -----

  /** Two rounds with the key words from k on. */
  method TwoRounds(s: Sbox, b0: array<bv32>, b1: array<bv32>, key: array<bv32>, k: nat, ghost n: nat)
    requires b0.Length == b1.Length == 4 && b0 != b1 && b0 != key && b1 != key
    requires k % 4 == 0 && 0 < k && k / 4 + 2 <= n && 4 * n + 4 <= key.Length
    modifies b0, b1
    ensures RoundsFrom(s, Cols(key[..]), n, k / 4 + 2, StateOf(b0[..]))
         == RoundsFrom(s, Cols(key[..]), n, k / 4, old(StateOf(b0[..])))
  {
    hide XorState, Substituted, MixColumns, StateOf, RoundKey;
    FNRound(s, b1, b0, key, k);
    FNRound(s, b0, b1, key, k + 4);
  }

  /** The rounds of aes_encrypt on the whitened block in b0. */
  method EncryptRounds(s: Sbox, b0: array<bv32>, b1: array<bv32>, key: array<bv32>, keyLen: nat)
    requires KeyLength(keyLen) && b0.Length == b1.Length == 4 && b0 != b1 && b0 != key && b1 != key && key.Length == 60
    modifies b0, b1
    ensures StateOf(b0[..]) == RoundsFrom(s, Cols(key[..]), NumRounds(keyLen), 1, old(StateOf(b0[..])))
  {
    hide XorState, Substituted, MixColumns, StateOf, RoundKey;
    ghost var n, w, x := NumRounds(keyLen), Cols(key[..]), StateOf(b0[..]);
    var k := 4;
    if keyLen > 24 {
      TwoRounds(s, b0, b1, key, k, n);
      k := k + 8;
    }
    if keyLen > 16 {
      TwoRounds(s, b0, b1, key, k, n);
      k := k + 8;
    }
    TwoRounds(s, b0, b1, key, k, n);
    TwoRounds(s, b0, b1, key, k + 8, n);
    TwoRounds(s, b0, b1, key, k + 16, n);
    TwoRounds(s, b0, b1, key, k + 24, n);
    assert RoundsFrom(s, w, n, n - 1, StateOf(b0[..])) == RoundsFrom(s, w, n, 1, x);
    FNRound(s, b1, b0, key, k + 32);
    FLRound(s, b0, b1, key, k + 36);
  }

  lemma XorStateMix(x: State, k: State)
    ensures InvMixColumns(XorState(x, k)) == XorState(InvMixColumns(x), InvMixColumns(k))
  {
    hide InvMix, XorCol;
    InvMixX(x.c0, k.c0);
    InvMixX(x.c1, k.c1);
    InvMixX(x.c2, k.c2);
    InvMixX(x.c3, k.c3);
  }

  lemma DecEntry(w: seq<Col>, n: nat, dec: seq<bv32>, r: nat, j: nat)
    requires 4 * n + 4 <= |w| && DecKeys(w, n, dec) && r <= n && j < 4
    ensures var c := w[4 * (n - r) + j];
      |dec| >= 4 * n + 4 && Cols(dec)[4 * r + j] == if r == 0 || r == n then c else InvMix(c)
  {
    hide WordOf, ColOf, InvMix;
    DecCol(w, n, dec, 4 * r + j);
  }

  lemma DecRoundKey(w: seq<Col>, n: nat, dec: seq<bv32>, r: nat)
    requires 4 * n + 4 <= |w| && DecKeys(w, n, dec) && r <= n
    ensures RoundKey(Cols(dec), r) == if r == 0 || r == n then RoundKey(w, n - r) else InvMixColumns(RoundKey(w, n - r))
  {
    hide WordOf, ColOf, InvMix, DecWord, DecKeys, Cols;
    DecEntry(w, n, dec, r, 0);
    DecEntry(w, n, dec, r, 1);
    DecEntry(w, n, dec, r, 2);
    DecEntry(w, n, dec, r, 3);
  }

  lemma DecCol(w: seq<Col>, n: nat, dec: seq<bv32>, i: nat)
    requires 4 * n + 4 <= |w| && DecKeys(w, n, dec) && i < 4 * n + 4
    ensures Cols(dec)[i] == DecWord(w, n, i)
  {
    hide WordOf, ColOf, InvMix;
    ColOfWord(DecWord(w, n, i));
  }

  /** A round of the code is a round of the inverse cipher, InvMixColumns included. */
  method InvRound(s: Sbox, ghost w: seq<Col>, ghost n: nat, bo: array<bv32>, bi: array<bv32>, key: array<bv32>, k: nat)
    requires bo.Length == bi.Length == 4 && bo != bi && bo != key && k % 4 == 0 && 0 < k < 4 * n
    requires 4 * n + 4 <= |w| && DecKeys(w, n, key[..])
    modifies bo
    ensures InvRoundsFrom(s, w, n - k / 4 - 1, StateOf(bo[..])) == InvRoundsFrom(s, w, n - k / 4, StateOf(bi[..]))
  {
    hide XorState, Unsubstituted, InvMixColumns, StateOf, RoundKey;
    DecRoundKey(w, n, key[..], k / 4);
    INRound(s, bo, bi, key, k);
    XorStateMix(Unsubstituted(s, StateOf(bi[..])), RoundKey(w, n - k / 4));
  }

  method TwoInvRounds(s: Sbox, ghost w: seq<Col>, ghost n: nat, b0: array<bv32>, b1: array<bv32>, key: array<bv32>, k: nat)
    requires b0.Length == b1.Length == 4 && b0 != b1 && b0 != key && b1 != key && k % 4 == 0 && 0 < k && k + 4 < 4 * n
    requires 4 * n + 4 <= |w| && DecKeys(w, n, key[..])
    modifies b0, b1
    ensures InvRoundsFrom(s, w, n - k / 4 - 2, StateOf(b0[..])) == InvRoundsFrom(s, w, n - k / 4, old(StateOf(b0[..])))
  {
    hide InvRoundsFrom, StateOf;
    InvRound(s, w, n, b1, b0, key, k);
    InvRound(s, w, n, b0, b1, key, k + 4);
  }

  /** The rounds of aes_decrypt on the whitened block in b0. */
  method DecryptRounds(s: Sbox, ghost w: seq<Col>, b0: array<bv32>, b1: array<bv32>, key: array<bv32>, keyLen: nat)
    requires KeyLength(keyLen) && b0.Length == b1.Length == 4 && b0 != b1 && b0 != key && b1 != key
    requires |w| == keyLen + 28 && DecKeys(w, NumRounds(keyLen), key[..])
    modifies b0, b1
    ensures StateOf(b0[..]) == InvRoundsFrom(s, w, NumRounds(keyLen) - 1, old(StateOf(b0[..])))
  {
    hide XorState, Unsubstituted, InvMixColumns, StateOf, RoundKey;
    ghost var n, x := NumRounds(keyLen), StateOf(b0[..]);
    var k := 4;
    if keyLen > 24 {
      TwoInvRounds(s, w, n, b0, b1, key, k);
      k := k + 8;
    }
    if keyLen > 16 {
      TwoInvRounds(s, w, n, b0, b1, key, k);
      k := k + 8;
    }
    TwoInvRounds(s, w, n, b0, b1, key, k);
    TwoInvRounds(s, w, n, b0, b1, key, k + 8);
    TwoInvRounds(s, w, n, b0, b1, key, k + 16);
    TwoInvRounds(s, w, n, b0, b1, key, k + 24);
    assert InvRoundsFrom(s, w, 1, StateOf(b0[..])) == InvRoundsFrom(s, w, n - 1, x);
    InvRound(s, w, n, b1, b0, key, k + 32);
    DecRoundKey(w, n, key[..], n);
    ILRound(s, b0, b1, key, k + 36);
  }

  function StateOfBytes(b: seq<bv8>): State
    requires |b| == 16
  {
    State(Col(b[0], b[1], b[2], b[3]), Col(b[4], b[5], b[6], b[7]), Col(b[8], b[9], b[10], b[11]),
          Col(b[12], b[13], b[14], b[15]))
  }

  function BytesOfState(x: State): (b: seq<bv8>)
    ensures |b| == 16 && StateOfBytes(b) == x
  {
    [x.c0.b0, x.c0.b1, x.c0.b2, x.c0.b3, x.c1.b0, x.c1.b1, x.c1.b2, x.c1.b3,
     x.c2.b0, x.c2.b1, x.c2.b2, x.c2.b3, x.c3.b0, x.c3.b1, x.c3.b2, x.c3.b3]
  }

  /** AES encryption of a block of bytes as the standard defines it. */
  function FipsEncrypt(s: Sbox, key: seq<bv8>, block: seq<bv8>): seq<bv8>
    requires KeyLength(|key|) && |block| == 16
  {
    BytesOfState(Cipher(s, Schedule(s, key), NumRounds(|key|), StateOfBytes(block)))
  }

  function FipsDecrypt(s: Sbox, key: seq<bv8>, block: seq<bv8>): seq<bv8>
    requires KeyLength(|key|) && |block| == 16
  {
    BytesOfState(InvCipher(s, Schedule(s, key), NumRounds(|key|), StateOfBytes(block)))
  }

  /** Decrypting what was encrypted with the same key gives the block back. */
  lemma DecryptUndoesEncrypt(s: Sbox, key: seq<bv8>, block: seq<bv8>)
    requires Inverse(s) && KeyLength(|key|) && |block| == 16
    ensures FipsDecrypt(s, key, FipsEncrypt(s, key, block)) == block
  {
    hide InvCipher, Cipher, Schedule;
    InvCipherUndoesCipher(s, Schedule(s, key), NumRounds(|key|), StateOfBytes(block));
    BytesBack(block);
  }

  lemma BytesBack(b: seq<bv8>)
    requires |b| == 16
    ensures BytesOfState(StateOfBytes(b)) == b
  {}

  // ----- struct crypto_aes_ctx -----

  class Context {
    const s: Sbox
    var keyLength: nat
    const keyEnc: array<bv32>
    const keyDec: array<bv32>
    ghost var key: seq<bv8>

    ghost predicate Valid()
      reads this, keyEnc, keyDec
    {
      && keyEnc.Length == keyDec.Length == 60 && keyEnc != keyDec
      && (keyLength != 0 ==>
            && KeyLength(keyLength) && |key| == keyLength
            && (forall i :: 0 <= i < keyLength + 28 ==> keyEnc[i] == WordOf(Schedule(s, key)[i]))
            && DecKeys(Schedule(s, key), NumRounds(keyLength), keyDec[..]))
    }

    constructor (s: Sbox)
      ensures Valid() && keyLength == 0 && this.s == s && fresh(keyEnc) && fresh(keyDec)
    {
      this.s, keyLength, keyEnc, keyDec, key := s, 0, new bv32[60], new bv32[60], [];
    }

    /** crypto_aes_expand_key: false is -EINVAL. */
    method ExpandKey(inKey: seq<bv8>) returns (ok: bool)
      requires Valid()
      modifies this, keyEnc, keyDec
      ensures Valid() && ok == KeyLength(|inKey|)
      ensures ok ==> key == inKey && keyLength == |inKey|
      ensures !ok ==> key == old(key) && keyLength == old(keyLength) && keyEnc[..] == old(keyEnc[..])
      ensures !ok ==> keyDec[..] == old(keyDec[..])
    {
      hide WordOf, Expanded, InvMix;
      if |inKey| != 16 && |inKey| != 24 && |inKey| != 32 {
        return false;
      }
      var nk := |inKey| / 4;
      for i := 0 to nk
        invariant forall j :: 0 <= j < i ==> keyEnc[j] == WordOf(KeyCols(inKey)[j])
      {
        keyEnc[i] := WordOf(Col(inKey[4 * i], inKey[4 * i + 1], inKey[4 * i + 2], inKey[4 * i + 3]));
      }
      ghost var cols := KeyCols(inKey);
      forall i | 0 <= i < nk ensures Expanded(s, cols, i) == cols[i] { FirstWords(s, cols, i); }
      ExpandEnc(s, cols, keyEnc, |inKey|);
      FillDec(Schedule(s, inKey), keyEnc, keyDec, |inKey|);
      keyLength, key := |inKey|, inKey;
      ok := true;
    }

    lemma FirstWords(s: Sbox, cols: seq<Col>, i: nat)
      requires i < |cols|
      ensures Expanded(s, cols, i) == cols[i]
    {}

    /** The block is loaded and the first round key added. */
    method Load(src: array<bv8>, rk: array<bv32>) returns (b0: array<bv32>)
      requires src.Length == 16 && rk.Length == 60
      ensures fresh(b0) && b0.Length == 4 && StateOf(b0[..]) == XorState(StateOfBytes(src[..]), RoundKey(Cols(rk[..]), 0))
    {
      hide X, WordOf, ColOf, XorCol;
      b0 := new bv32[4];
      for n := 0 to 4
        invariant forall m :: 0 <= m < n ==>
          ColOf(b0[m]) == XorCol(Col(src[4 * m], src[4 * m + 1], src[4 * m + 2], src[4 * m + 3]), ColOf(rk[m]))
      {
        var c := Col(src[4 * n], src[4 * n + 1], src[4 * n + 2], src[4 * n + 3]);
        WordOfCol(rk[n]);
        XorWords(c, ColOf(rk[n]));
        ColOfWord(XorCol(c, ColOf(rk[n])));
        b0[n] := X(WordOf(c), rk[n]);
      }
    }

    method Store(dst: array<bv8>, b: array<bv32>)
      requires dst.Length == 16 && b.Length == 4
      modifies dst
      ensures dst[..] == BytesOfState(StateOf(b[..]))
    {
      hide Byte0, Byte1, Byte2, Byte3;
      var bytes := BytesOfState(StateOf(b[..]));
      forall i | 0 <= i < 16 {
        dst[i] := bytes[i];
      }
    }

    lemma SameRounds(w: seq<Col>, v: seq<Col>, n: nat, r: nat, x: State)
      requires 0 < r <= n && 4 * n + 4 <= |w| && 4 * n + 4 <= |v| && forall i :: 0 <= i < 4 * n + 4 ==> w[i] == v[i]
      ensures RoundsFrom(s, w, n, r, x) == RoundsFrom(s, v, n, r, x)
      decreases n - r
    {
      hide XorState, Substituted, MixColumns;
      if r < n {
        SameRounds(w, v, n, r + 1, XorState(MixColumns(Substituted(s, x)), RoundKey(w, r)));
      }
    }

    /** aes_encrypt, also in place: the block is encrypted as the standard says. */
    method EncryptBlock(dst: array<bv8>, src: array<bv8>)
      requires Valid() && keyLength != 0 && dst.Length == 16 && src.Length == 16
      modifies dst
      ensures dst[..] == FipsEncrypt(s, key, old(src[..]))
    {
      hide XorState, WordOf, ColOf, RoundsFrom, StateOf, BytesOfState, StateOfBytes;
      ghost var w, v, x := Cols(keyEnc[..]), Schedule(s, key), StateOfBytes(src[..]);
      forall i | 0 <= i < keyLength + 28 ensures w[i] == v[i] { ColOfWord(v[i]); }
      SameRounds(w, v, NumRounds(keyLength), 1, XorState(x, RoundKey(w, 0)));
      var b0 := Load(src, keyEnc);
      var b1 := new bv32[4];
      EncryptRounds(s, b0, b1, keyEnc, keyLength);
      Store(dst, b0);
    }

    /** aes_decrypt */
    method DecryptBlock(dst: array<bv8>, src: array<bv8>)
      requires Valid() && keyLength != 0 && dst.Length == 16 && src.Length == 16
      modifies dst
      ensures dst[..] == FipsDecrypt(s, key, old(src[..]))
    {
      hide XorState, WordOf, ColOf, InvRoundsFrom, StateOf, BytesOfState, StateOfBytes, InvMix;
      ghost var w := Schedule(s, key);
      DecRoundKey(w, NumRounds(keyLength), keyDec[..], 0);
      var b0 := Load(src, keyDec);
      var b1 := new bv32[4];
      DecryptRounds(s, w, b0, b1, keyDec, keyLength);
      Store(dst, b0);
    }
  }
}
