/** camellia_setup_tail, camellia_do_encrypt and camellia_do_decrypt as they work on
    arrays of 32-bit words, proved against the functions of Camellia. */
module CamelliaInPlace {
  import opened Words
  import opened CamelliaCipher
  import opened CamelliaAbsorb
  import opened Camellia

  /** Entry i of a subkey table: SUBKEY_L(i) and SUBKEY_R(i). */
  function Entry(w: seq<bv32>, i: nat): Half
    requires 2 * i + 1 < |w|
  {
    Half(w[2 * i], w[2 * i + 1])
  }

  function Table(w: seq<bv32>): (t: seq<Half>)
    ensures |t| == |w| / 2 && forall i :: 0 <= i < |t| ==> t[i] == Entry(w, i)
  {
    seq(|w| / 2, i requires 0 <= i < |w| / 2 => Entry(w, i))
  }

  function BlockOf(io: seq<bv32>): Block
    requires |io| == 4
  {
    Block(Entry(io, 0), Entry(io, 1))
  }

  // ----- encryption and decryption -----

  /** CAMELLIA_ROUNDSM on words x, x + 1 and y, y + 1 of io. */
  method RoundAt(s: Sboxes, kl: bv32, kr: bv32, io: array<bv32>, x: nat, y: nat)
    requires io.Length == 4 && (x, y) in {(0, 2), (2, 0)}
    modifies io
    ensures Half(io[y], io[y + 1])
      == RoundSM(s, old(Half(io[x], io[x + 1])), Half(kl, kr), old(Half(io[y], io[y + 1])))
    ensures io[x] == old(io[x]) && io[x + 1] == old(io[x + 1])
  {
    hide X, LookupL, LookupR, Ror8;
    var il, ir := LookupL(s, io[x]), LookupR(s, io[x + 1]);
    il := X(il, kl);
    ir := X(ir, X(il, kr));
    io[y] := X(io[y], ir);
    io[y + 1] := X(io[y + 1], X(Ror8(il), ir));
  }

  /** Two rounds with the subkeys a and b. */
  method TwoAt(s: Sboxes, subkey: array<bv32>, a: nat, b: nat, io: array<bv32>)
    requires io.Length == 4 && io != subkey && 2 * a + 1 < subkey.Length && 2 * b + 1 < subkey.Length
    modifies io
    ensures BlockOf(io[..]) == FastTwo(s, Entry(subkey[..], a), Entry(subkey[..], b), old(BlockOf(io[..])))
  {
    hide RoundSM;
    RoundAt(s, subkey[2 * a], subkey[2 * a + 1], io, 0, 2);
    RoundAt(s, subkey[2 * b], subkey[2 * b + 1], io, 2, 0);
  }

  method SixRounds(s: Sboxes, subkey: array<bv32>, i: nat, io: array<bv32>)
    requires io.Length == 4 && io != subkey && 2 * i + 16 <= subkey.Length
    modifies io
    ensures BlockOf(io[..]) == FastRounds(s, Table(subkey[..]), i + 2, 3, old(BlockOf(io[..])))
  {
    hide FastTwo;
    ghost var t, x := Table(subkey[..]), BlockOf(io[..]);
    TwoAt(s, subkey, i + 2, i + 3, io);
    ghost var x1 := BlockOf(io[..]);
    TwoAt(s, subkey, i + 4, i + 5, io);
    ghost var x2 := BlockOf(io[..]);
    TwoAt(s, subkey, i + 6, i + 7, io);
    assert FastRounds(s, t, i + 6, 1, x2) == FastRounds(s, t, i + 8, 0, BlockOf(io[..]));
    assert FastRounds(s, t, i + 4, 2, x1) == FastRounds(s, t, i + 6, 1, x2);
  }

  method SixRoundsBack(s: Sboxes, subkey: array<bv32>, i: nat, io: array<bv32>)
    requires io.Length == 4 && io != subkey && 2 * i + 16 <= subkey.Length
    modifies io
    ensures BlockOf(io[..]) == FastRoundsBack(s, Table(subkey[..]), i + 2, 3, old(BlockOf(io[..])))
  {
    hide FastTwo;
    ghost var t, x := Table(subkey[..]), BlockOf(io[..]);
    assert FastRoundsBack(s, t, i + 8, 0, x) == x;
    TwoAt(s, subkey, i + 7, i + 6, io);
    assert BlockOf(io[..]) == FastRoundsBack(s, t, i + 6, 1, x);
    TwoAt(s, subkey, i + 5, i + 4, io);
    assert BlockOf(io[..]) == FastRoundsBack(s, t, i + 4, 2, x);
    TwoAt(s, subkey, i + 3, i + 2, io);
  }

  /** CAMELLIA_FLS with the subkeys a and b. */
  method FLSAt(subkey: array<bv32>, a: nat, b: nat, io: array<bv32>)
    requires io.Length == 4 && io != subkey && 2 * a + 1 < subkey.Length && 2 * b + 1 < subkey.Length
    modifies io
    ensures BlockOf(io[..]) == FLS(old(BlockOf(io[..])), Entry(subkey[..], a), Entry(subkey[..], b))
  {
    hide X, And, Or, Rol1;
    io[2] := X(io[2], Or(io[3], subkey[2 * b + 1]));
    io[1] := X(io[1], Rol1(And(io[0], subkey[2 * a])));
    io[0] := X(io[0], Or(io[1], subkey[2 * a + 1]));
    io[3] := X(io[3], Rol1(And(io[2], subkey[2 * b])));
  }

  method Whiten(subkey: array<bv32>, k: nat, io: array<bv32>, x: nat)
    requires io.Length == 4 && io != subkey && 2 * k + 1 < subkey.Length && x in {0, 1}
    modifies io
    ensures Entry(io[..], x) == Xor(old(Entry(io[..], x)), Entry(subkey[..], k))
    ensures Entry(io[..], 1 - x) == old(Entry(io[..], 1 - x))
  {
    hide X;
    io[2 * x] := X(io[2 * x], subkey[2 * k]);
    io[2 * x + 1] := X(io[2 * x + 1], subkey[2 * k + 1]);
  }

  /** camellia_do_encrypt */
  method EncryptInPlace(s: Sboxes, subkey: array<bv32>, io: array<bv32>, max: nat)
    requires ValidMax(max) && io.Length == 4 && io != subkey && 2 * max + 2 <= subkey.Length
    modifies io
    ensures BlockOf(io[..]) == Encrypt(s, Table(subkey[..]), max, old(BlockOf(io[..])))
  {
    hide FastRounds, FLS, Xor;
    ghost var t := Table(subkey[..]);
    Whiten(subkey, 0, io, 0);
    ghost var x0 := BlockOf(io[..]);
    SixRounds(s, subkey, 0, io);
    FLSAt(subkey, 8, 9, io);
    ghost var x1 := BlockOf(io[..]);
    assert EncFrom(s, t, max, 0, x0) == EncFrom(s, t, max, 1, x1);
    SixRounds(s, subkey, 8, io);
    FLSAt(subkey, 16, 17, io);
    ghost var x2 := BlockOf(io[..]);
    assert EncFrom(s, t, max, 1, x1) == EncFrom(s, t, max, 2, x2);
    SixRounds(s, subkey, 16, io);
    if max == 32 {
      FLSAt(subkey, 24, 25, io);
      ghost var x3 := BlockOf(io[..]);
      assert EncFrom(s, t, max, 2, x2) == EncFrom(s, t, max, 3, x3);
      SixRounds(s, subkey, 24, io);
    }
    assert BlockOf(io[..]) == EncFrom(s, t, max, 0, x0);
    Whiten(subkey, max, io, 1);
  }

  /** camellia_do_decrypt */
  method DecryptInPlace(s: Sboxes, subkey: array<bv32>, io: array<bv32>, max: nat)
    requires ValidMax(max) && io.Length == 4 && io != subkey && 2 * max + 2 <= subkey.Length
    modifies io
    ensures BlockOf(io[..]) == Decrypt(s, Table(subkey[..]), max, old(BlockOf(io[..])))
  {
    hide FastRoundsBack, FLS, Xor;
    ghost var t := Table(subkey[..]);
    Whiten(subkey, max, io, 0);
    ghost var x := BlockOf(io[..]);
    if max == 32 {
      SixRoundsBack(s, subkey, 24, io);
      assert BlockOf(io[..]) == DecTo(s, t, max, 3, x);
      FLSAt(subkey, 25, 24, io);
    }
    SixRoundsBack(s, subkey, 16, io);
    assert BlockOf(io[..]) == DecTo(s, t, max, 2, x);
    FLSAt(subkey, 17, 16, io);
    SixRoundsBack(s, subkey, 8, io);
    assert BlockOf(io[..]) == DecTo(s, t, max, 1, x);
    FLSAt(subkey, 9, 8, io);
    SixRoundsBack(s, subkey, 0, io);
    assert BlockOf(io[..]) == DecTo(s, t, max, 0, x);
    Whiten(subkey, 0, io, 1);
  }
}
