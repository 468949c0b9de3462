/** camellia_setup_tail on the arrays it rewrites in place. */
module CamelliaSetup {
  import opened Words
  import opened CamelliaCipher
  import opened CamelliaAbsorb
  import opened Camellia
  import opened CamelliaInPlace

  /** The arrays subL and subR are one array of pairs here. */
  predicate ValidLength(sub: array<Half>) { sub.Length == 26 || sub.Length == 34 }

  /** The recurring `tl = l ^ (r & ~kr), tr = r ^ rol32(tl & kl, 1)`. */
  method MaskKey(m: Half, k: Half) returns (t: Half)
    ensures t == FLInvMask(m, k)
  {
    var tl := X(m.l, And(m.r, Not(k.r)));
    var dw := And(tl, k.l);
    t := Half(tl, X(m.r, Rol1(dw)));
  }

  method XorInto(sub: array<Half>, i: nat, m: Half)
    requires ValidLength(sub) && i < sub.Length
    modifies sub
    ensures sub[i] == Xor(old(sub[i]), m)
    ensures forall j :: 0 <= j < sub.Length && j != i ==> sub[j] == old(sub[j])
  {
    sub[i] := Xor(sub[i], m);
  }

  method XorThree(sub: array<Half>, i: nat, m: Half)
    requires ValidLength(sub) && i + 4 < sub.Length
    modifies sub
    ensures forall j :: 0 <= j < sub.Length ==>
      sub[j] == if j in {i, i + 2, i + 4} then Xor(old(sub[j]), m) else old(sub[j])
  {
    hide Xor;
    XorInto(sub, i, m);
    XorInto(sub, i + 2, m);
    XorInto(sub, i + 4, m);
  }

  // ----- absorbing kw2 -----

  function WithKw2(k: seq<Half>, i: nat): Half
    requires Schedule(k) && i < |k| - 1
  {
    if i == |k| - 2 then Xor(k[i], Kw2(k, i / 8 - 1))
    else if i > 1 && i % 8 in {3, 5, 7} then Xor(k[i], Kw2(k, i / 8))
    else k[i]
  }

  /** kw2 has been absorbed by the subkeys below n. */
  ghost predicate Kw2Below(k: seq<Half>, sub: array<Half>, n: nat)
    requires Schedule(k)
    reads sub
  {
    && ValidLength(sub) && |k| == sub.Length
    && (forall i :: 0 <= i < |k| - 1 && i != 1 ==> sub[i] == if i < n then WithKw2(k, i) else k[i])
    && sub[|k| - 1] == k[|k| - 1]
  }

  method AbsorbKw2Block(ghost k: seq<Half>, sub: array<Half>, b: nat)
    requires Schedule(k) && 8 * b + 10 <= |k| && Kw2Below(k, sub, 8 * b) && sub[1] == Kw2(k, b)
    modifies sub
    ensures Kw2Below(k, sub, 8 * b + 8) && sub[1] == Kw2(k, b)
  {
    hide Xor, FLInvMask, Kw2;
    XorThree(sub, 8 * b + 3, sub[1]);
  }

  method NextKw2(ghost k: seq<Half>, sub: array<Half>, b: nat)
    requires Schedule(k) && 8 * b + 18 <= |k| && Kw2Below(k, sub, 8 * b + 8) && sub[1] == Kw2(k, b)
    modifies sub
    ensures Kw2Below(k, sub, 8 * b + 8) && sub[1] == Kw2(k, b + 1)
  {
    hide Xor, FLInvMask;
    assert sub[8 * b + 9] == k[8 * b + 9];
    var t := MaskKey(sub[1], sub[8 * b + 9]);
    sub[1] := t;
  }

  method AbsorbKw2(sub: array<Half>, max: nat)
    requires ValidLength(sub) && sub.Length == max + 2
    modifies sub
    ensures Schedule(old(sub[..])) && Kw2Below(old(sub[..]), sub, max + 1)
  {
    hide Xor, FLInvMask;
    ghost var k := sub[..];
    AbsorbKw2Block(k, sub, 0);
    NextKw2(k, sub, 0);
    AbsorbKw2Block(k, sub, 1);
    NextKw2(k, sub, 1);
    AbsorbKw2Block(k, sub, 2);
    if max == 24 {
      XorInto(sub, 24, sub[1]);
    } else {
      NextKw2(k, sub, 2);
      AbsorbKw2Block(k, sub, 3);
      XorInto(sub, 32, sub[1]);
    }
  }

  // ----- absorbing kw4 -----

  /** kw4 has been absorbed by the subkeys from n on, kw2 by all. */
  ghost predicate Kw4From(k: seq<Half>, sub: array<Half>, n: nat)
    requires Schedule(k)
    reads sub
  {
    && ValidLength(sub) && |k| == sub.Length
    && (forall i :: 0 <= i < |k| - 1 && i != 1 ==> sub[i] == if n <= i then AbsorbedKey(k, i) else WithKw2(k, i))
    && sub[|k| - 1] == k[|k| - 1]
  }

  method AbsorbKw4Block(ghost k: seq<Half>, sub: array<Half>, b: nat, m: Half)
    requires Schedule(k) && 8 * b + 10 <= |k| && Kw4From(k, sub, 8 * b + 8) && m == Kw4(k, b)
    modifies sub
    ensures Kw4From(k, sub, 8 * b + 2)
  {
    hide Xor, FLInvMask, Kw2, Kw4;
    XorThree(sub, 8 * b + 2, m);
  }

  method NextKw4(ghost k: seq<Half>, sub: array<Half>, b: nat, m: Half) returns (t: Half)
    requires Schedule(k) && 8 * b + 18 <= |k| && Kw4From(k, sub, 8 * b + 10) && m == Kw4(k, b + 1)
    ensures Kw4From(k, sub, 8 * b + 8) && t == Kw4(k, b)
  {
    hide Xor, FLInvMask;
    assert sub[8 * b + 8] == k[8 * b + 8];
    t := MaskKey(m, sub[8 * b + 8]);
  }

  method AbsorbKw4Blocks(ghost k: seq<Half>, sub: array<Half>, max: nat) returns (m: Half)
    requires Schedule(k) && |k| == max + 2 && Kw4From(k, sub, max)
    modifies sub
    ensures Kw4From(k, sub, 2) && m == Kw4(k, 0)
  {
    hide AbsorbedKey, WithKw2, FLInvMask;
    m := sub[max + 1];
    if max == 32 {
      AbsorbKw4Block(k, sub, 3, m);
      m := NextKw4(k, sub, 2, m);
    }
    AbsorbKw4Block(k, sub, 2, m);
    m := NextKw4(k, sub, 1, m);
    AbsorbKw4Block(k, sub, 1, m);
    m := NextKw4(k, sub, 0, m);
    AbsorbKw4Block(k, sub, 0, m);
  }

  method AbsorbKw4(ghost k: seq<Half>, sub: array<Half>, max: nat)
    requires Schedule(k) && |k| == max + 2 && Kw2Below(k, sub, max + 1)
    modifies sub
    ensures Kw4From(k, sub, 0)
  {
    hide Xor, FLInvMask;
    assert Kw4From(k, sub, max);
    var m := AbsorbKw4Blocks(k, sub, max);
    XorInto(sub, 0, m);
  }

  // ----- the subkey table -----

  /** Entry i of the table before half of P is moved into it. */
  function Folded(a: seq<Half>, i: nat): Half
    requires Schedule(a) && i < |a| - 1
  {
    if i == 0 then Xor(a[0], a[2])
    else if i == |a| - 2 then Xor(a[i], a[i - 1])
    else if i % 8 < 2 then a[i]
    else if i == 2 then a[3]
    else if i + 3 == |a| then a[i - 1]
    else Xor(Left(a, i), Right(a, i))
  }

  /** Entries lo to hi - 1 are folded. */
  ghost predicate FoldedIn(a: seq<Half>, w: seq<bv32>, lo: nat, hi: nat)
    requires Schedule(a) && hi < |a| && 2 * |a| <= |w|
  {
    forall i :: lo <= i < hi && i != 1 ==> Entry(w, i) == Folded(a, i)
  }

  method Put(subkey: array<bv32>, i: nat, v: Half)
    requires 2 * i + 1 < subkey.Length
    modifies subkey
    ensures Entry(subkey[..], i) == v
    ensures forall j :: 0 <= j && j != i && 2 * j + 1 < subkey.Length ==> Entry(subkey[..], j) == old(Entry(subkey[..], j))
  {
    subkey[2 * i] := v.l;
    subkey[2 * i + 1] := v.r;
  }

  method PutXor(subkey: array<bv32>, i: nat, a: Half, b: Half)
    requires 2 * i + 1 < subkey.Length
    modifies subkey
    ensures Entry(subkey[..], i) == Xor(a, b)
    ensures forall j :: 0 <= j && j != i && 2 * j + 1 < subkey.Length ==> Entry(subkey[..], j) == old(Entry(subkey[..], j))
  {
    hide X;
    Put(subkey, i, Half(X(a.l, b.l), X(a.r, b.r)));
  }

  ghost predicate Folding(subkey: array<bv32>, sub: array<Half>, n: nat)
    reads subkey, sub
  {
    && ValidLength(sub) && subkey.Length >= 2 * sub.Length && n < sub.Length
    && FoldedIn(sub[..], subkey[..], 0, n)
  }

  method FoldFirst(subkey: array<bv32>, sub: array<Half>, i: nat)
    requires Folding(subkey, sub, i) && i % 8 == 2 && i + 1 < sub.Length - 1
    modifies subkey
    ensures Folding(subkey, sub, i + 1)
  {
    hide Xor, FLInvMask;
    if i == 2 {
      Put(subkey, i, sub[3]);
    } else {
      var t := MaskKey(sub[i - 3], sub[i - 1]);
      PutXor(subkey, i, t, sub[i + 1]);
    }
  }

  method FoldMiddle(subkey: array<bv32>, sub: array<Half>, i: nat)
    requires Folding(subkey, sub, i) && 3 <= i % 8 <= 6 && i + 1 < sub.Length - 1
    modifies subkey
    ensures Folding(subkey, sub, i + 1)
  {
    hide Xor, FLInvMask;
    PutXor(subkey, i, sub[i - 1], sub[i + 1]);
  }

  method FoldLast(subkey: array<bv32>, sub: array<Half>, i: nat)
    requires Folding(subkey, sub, i) && i % 8 == 7 && i + 1 < sub.Length - 1
    modifies subkey
    ensures Folding(subkey, sub, i + 1)
  {
    hide Xor, FLInvMask;
    if i + 3 == sub.Length {
      Put(subkey, i, sub[i - 1]);
    } else {
      var t := MaskKey(sub[i + 3], sub[i + 1]);
      PutXor(subkey, i, sub[i - 1], t);
    }
  }

  method FoldBlock(subkey: array<bv32>, sub: array<Half>, b: nat)
    requires Folding(subkey, sub, 8 * b + 2) && 8 * b + 10 <= sub.Length
    modifies subkey
    ensures Folding(subkey, sub, 8 * b + 8)
  {
    hide Folded, FoldedIn;
    FoldFirst(subkey, sub, 8 * b + 2);
    FoldMiddle(subkey, sub, 8 * b + 3);
    FoldMiddle(subkey, sub, 8 * b + 4);
    FoldMiddle(subkey, sub, 8 * b + 5);
    FoldMiddle(subkey, sub, 8 * b + 6);
    FoldLast(subkey, sub, 8 * b + 7);
  }

  /** The keys of the FL layer are copied. */
  method CopyKeys(subkey: array<bv32>, sub: array<Half>, i: nat)
    requires Folding(subkey, sub, i) && i % 8 == 0 && 8 <= i && i + 2 < sub.Length - 1
    modifies subkey
    ensures Folding(subkey, sub, i + 2)
  {
    Put(subkey, i, sub[i]);
    Put(subkey, i + 1, sub[i + 1]);
  }

  method FoldKeys(subkey: array<bv32>, sub: array<Half>, max: nat)
    requires Folding(subkey, sub, 0) && sub.Length == max + 2
    modifies subkey
    ensures Folding(subkey, sub, max + 1)
  {
    hide Xor, FLInvMask;
    PutXor(subkey, 0, sub[0], sub[2]);
    assert Folding(subkey, sub, 2);
    FoldBlocks(subkey, sub, max);
    PutXor(subkey, max, sub[max], sub[max - 1]);
  }

  method FoldBlocks(subkey: array<bv32>, sub: array<Half>, max: nat)
    requires Folding(subkey, sub, 2) && sub.Length == max + 2
    modifies subkey
    ensures Folding(subkey, sub, max)
  {
    hide Folded, FoldedIn;
    FoldBlock(subkey, sub, 0);
    CopyKeys(subkey, sub, 8);
    FoldBlock(subkey, sub, 1);
    CopyKeys(subkey, sub, 16);
    FoldBlock(subkey, sub, 2);
    if max == 32 {
      CopyKeys(subkey, sub, 24);
      FoldBlock(subkey, sub, 3);
    }
  }

  /** Half of P is moved into round key i. */
  method InvertKey(subkey: array<bv32>, i: nat)
    requires 2 * i + 1 < subkey.Length
    modifies subkey
    ensures Entry(subkey[..], i) == InvP(old(Entry(subkey[..], i)))
    ensures forall j :: 0 <= j && j != i && 2 * j + 1 < subkey.Length ==> Entry(subkey[..], j) == old(Entry(subkey[..], j))
  {
    hide X, Rol8;
    var dw := Rol8(X(subkey[2 * i], subkey[2 * i + 1]));
    Put(subkey, i, Half(dw, X(subkey[2 * i], dw)));
  }

  /** Half of P has been moved into the round keys below n. */
  ghost predicate InvertedBelow(a: seq<Half>, w: seq<bv32>, n: nat)
    requires Schedule(a) && 2 * |a| <= |w|
  {
    forall i :: 0 <= i < |a| - 1 && i != 1 ==>
      Entry(w, i) == if i < n && i < |a| - 2 && i % 8 >= 2 then InvP(Folded(a, i)) else Folded(a, i)
  }

  method InvertNext(ghost a: seq<Half>, subkey: array<bv32>, i: nat)
    requires Schedule(a) && 2 * |a| <= subkey.Length && InvertedBelow(a, subkey[..], i) && i < |a| - 2 && i % 8 >= 2
    modifies subkey
    ensures InvertedBelow(a, subkey[..], i + 1)
  {
    hide InvP, Folded;
    InvertKey(subkey, i);
  }

  method InvertKeys(ghost a: seq<Half>, subkey: array<bv32>, max: nat)
    requires Schedule(a) && |a| == max + 2 && 2 * |a| <= subkey.Length && FoldedIn(a, subkey[..], 0, max + 1)
    modifies subkey
    ensures InvertedBelow(a, subkey[..], max)
  {
    var i := 2;
    while true
      invariant i in {2, 10, 18, 26} && i < max && InvertedBelow(a, subkey[..], i)
      decreases max - i
    {
      InvertSix(a, subkey, i);
      i := i + 8;
      if i >= max { break; }
    }
  }

  method InvertSix(ghost a: seq<Half>, subkey: array<bv32>, i: nat)
    requires Schedule(a) && 2 * |a| <= subkey.Length && InvertedBelow(a, subkey[..], i) && i % 8 == 2 && i + 8 <= |a|
    modifies subkey
    ensures InvertedBelow(a, subkey[..], i + 8)
  {
    hide InvP, Folded;
    InvertNext(a, subkey, i);
    InvertNext(a, subkey, i + 1);
    InvertNext(a, subkey, i + 2);
    InvertNext(a, subkey, i + 3);
    InvertNext(a, subkey, i + 4);
    InvertNext(a, subkey, i + 5);
  }

  lemma InvertedIsTable(a: seq<Half>, k: seq<Half>, w: seq<bv32>)
    requires Schedule(a) && Schedule(k) && |a| == |k| && 2 * |a| <= |w| && InvertedBelow(a, w, |a| - 2)
    requires forall i :: 0 <= i < |k| - 1 && i != 1 ==> a[i] == AbsorbedKey(k, i)
    ensures IsTable(Table(w), Absorbed(k))
  {
    hide Xor, InvP, FLInvMask, AbsorbedKey;
    var t, a' := Table(w), Absorbed(k);
    forall i | 0 <= i < |a| - 1 && i != 1 ensures t[i] == TableEntry(a', i) {
      FoldedAgrees(a, k, i);
    }
  }

  lemma FoldedAgrees(a: seq<Half>, k: seq<Half>, i: nat)
    requires Schedule(a) && Schedule(k) && |a| == |k| && i < |a| - 1 && i != 1
    requires forall j :: 0 <= j < |k| - 1 && j != 1 ==> a[j] == AbsorbedKey(k, j)
    ensures var e := Folded(a, i);
      (if i < |a| - 2 && i % 8 >= 2 then InvP(e) else e) == TableEntry(Absorbed(k), i)
  {
    hide Xor, InvP, FLInvMask, AbsorbedKey;
    if i == 2 {
      XorZero(a[3]);
    } else if i + 3 == |a| {
      XorZero(a[i - 1]);
    }
  }

  /** camellia_setup_tail: the table it fills makes the code's encryption the cipher
      with the subkeys it was given. */
  method SetupTail(subkey: array<bv32>, sub: array<Half>, max: nat)
    requires ValidLength(sub) && subkey.Length >= 2 * sub.Length
    requires sub.Length == max + 2
    modifies subkey, sub
    ensures Schedule(old(sub[..])) && IsTable(Table(subkey[..]), Absorbed(old(sub[..])))
    ensures forall s, x :: Encrypt(s, Table(subkey[..]), max, x) == Cipher(s, old(sub[..]), x)
  {
    hide AbsorbedKey, WithKw2, Folded, TableEntry, Encrypt, Cipher;
    ghost var k := sub[..];
    AbsorbKw2(sub, max);
    AbsorbKw4(k, sub, max);
    ghost var a := sub[..];
    FoldKeys(subkey, sub, max);
    InvertKeys(a, subkey, max);
    InvertedIsTable(a, k, subkey[..]);
    forall s, x ensures Encrypt(s, Table(subkey[..]), max, x) == Cipher(s, k, x) {
      EncryptIsCipher(s, Table(subkey[..]), k, x);
    }
  }
}
