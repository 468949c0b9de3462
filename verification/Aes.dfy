/** crypto/aes_generic.c: AES on little-endian words with lookup tables. */
module Aes {
  import opened Words
  import opened AesCipher

  /** The word whose byte n is the byte of row n. */
  function WordOf(c: Col): bv32 { Word(c.b3, c.b2, c.b1, c.b0) }

  function ColOf(w: bv32): Col { Col(Byte0(w), Byte1(w), Byte2(w), Byte3(w)) }

  function Ror16(x: bv32): bv32 { (x >> 16) | (x << 16) }
  function Ror24(x: bv32): bv32 { (x >> 24) | (x << 8) }

  lemma ColOfWord(c: Col)
    ensures ColOf(WordOf(c)) == c
  {}

  lemma WordOfCol(w: bv32)
    ensures WordOf(ColOf(w)) == w
  {}

  lemma XorWords(a: Col, b: Col)
    ensures X(WordOf(a), WordOf(b)) == WordOf(XorCol(a, b))
  {
    hide X, XB, Word;
    WordX(a.b3, a.b2, a.b1, a.b0, b.b3, b.b2, b.b1, b.b0);
  }

  lemma RorWords(c: Col)
    ensures Ror8(WordOf(c)) == WordOf(Col(c.b1, c.b2, c.b3, c.b0))
    ensures Ror16(WordOf(c)) == WordOf(Col(c.b2, c.b3, c.b0, c.b1))
    ensures Ror24(WordOf(c)) == WordOf(Col(c.b3, c.b0, c.b1, c.b2))
  {
    hide Ror8, Ror16, Ror24, Word;
    WordRor(c.b3, c.b2, c.b1, c.b0);
    WordRor16(c.b3, c.b2, c.b1, c.b0);
    WordRor24(c.b3, c.b2, c.b1, c.b0);
  }

  lemma WordRor16(b3: bv8, b2: bv8, b1: bv8, b0: bv8)
    ensures Ror16(Word(b3, b2, b1, b0)) == Word(b1, b0, b3, b2)
  {}

  lemma WordRor24(b3: bv8, b2: bv8, b1: bv8, b0: bv8)
    ensures Ror24(Word(b3, b2, b1, b0)) == Word(b2, b1, b0, b3)
  {}

  // ----- star_x and imix_col -----

  function LowBits(x: bv32): bv32 { (x & 0x7f7f7f7f) << 1 }
  function HighBits(x: bv32): bv32 { ((x & 0x80808080) >> 7) * 0x1b }

  function StarX(x: bv32): bv32 { X(LowBits(x), HighBits(x)) }

  lemma ShiftedBytes(b3: bv8, b2: bv8, b1: bv8, b0: bv8)
    ensures LowBits(Word(b3, b2, b1, b0)) == Word(b3 << 1, b2 << 1, b1 << 1, b0 << 1)
  {}

  lemma LowBytes(b3: bv8, b2: bv8, b1: bv8, b0: bv8)
    ensures LowBits(Word(b3, b2, b1, b0)) == Word(Shl(b3), Shl(b2), Shl(b1), Shl(b0))
  {
    hide LowBits, Word;
    ShiftedBytes(b3, b2, b1, b0);
  }

  lemma HighBytes(b3: bv8, b2: bv8, b1: bv8, b0: bv8)
    ensures HighBits(Word(b3, b2, b1, b0)) == Word(Reduction(b3), Reduction(b2), Reduction(b1), Reduction(b0))
  {}

  /** The packed star_x multiplies each of the four bytes by x. */
  lemma StarDoublesBytes(c: Col)
    ensures StarX(WordOf(c)) == WordOf(Col(Xtime(c.b0), Xtime(c.b1), Xtime(c.b2), Xtime(c.b3)))
  {
    hide X, XB, Word, Shl, Reduction, LowBits, HighBits;
    LowBytes(c.b3, c.b2, c.b1, c.b0);
    HighBytes(c.b3, c.b2, c.b1, c.b0);
    WordX(Shl(c.b3), Shl(c.b2), Shl(c.b1), Shl(c.b0), Reduction(c.b3), Reduction(c.b2), Reduction(c.b1), Reduction(c.b0));
  }

  /** imix_col */
  function ImixCol(x: bv32): bv32 {
    var u := StarX(x);
    var v := StarX(u);
    var w := StarX(v);
    var t := X(w, x);
    var y := X(X(u, v), w);
    X(y, X(X(Ror8(X(u, t)), Ror16(X(v, t))), Ror24(t)))
  }

  lemma SumOrders(a: bv8, a1: bv8, a2: bv8, a3: bv8, e: bv8, b: bv8, d: bv8, n: bv8)
    ensures XB(XB(a1, a2), a3) == XB(XB(a3, a2), a1)
    ensures XB(a1, XB(a3, a)) == XB(XB(a3, a1), a) && XB(a2, XB(a3, a)) == XB(XB(a3, a2), a)
    ensures XB(e, XB(XB(b, d), n)) == Sum4(e, b, d, n)
  {
    hide XB;
    XBComm(XB(a1, a2), a3);
    XBComm(a1, a2);
    XBAssoc(a3, a2, a1);
    XBComm(a1, XB(a3, a));
    XBAssoc(a3, a, a1);
    XBComm(a, a1);
    XBAssoc(a3, a1, a);
    XBComm(a2, XB(a3, a));
    XBAssoc(a3, a, a2);
    XBComm(a, a2);
    XBAssoc(a3, a2, a);
    XBAssoc(b, d, n);
    XBAssoc(e, b, XB(d, n));
  }

  /** imix_col is InvMixColumns. */
  lemma ImixIsInvMix(c: Col)
    ensures ImixCol(WordOf(c)) == WordOf(InvMix(c))
  {
    hide X, XB, Xtime, WordOf, StarX, Ror8, Ror16, Ror24, Sum4;
    var c1 := Col(Xtime(c.b0), Xtime(c.b1), Xtime(c.b2), Xtime(c.b3));
    var c2 := Col(Xtime(c1.b0), Xtime(c1.b1), Xtime(c1.b2), Xtime(c1.b3));
    var c3 := Col(Xtime(c2.b0), Xtime(c2.b1), Xtime(c2.b2), Xtime(c2.b3));
    StarDoublesBytes(c);
    StarDoublesBytes(c1);
    StarDoublesBytes(c2);
    var t := XorCol(c3, c);
    XorWords(c3, c);
    XorWords(c1, c2);
    XorWords(XorCol(c1, c2), c3);
    XorWords(c1, t);
    XorWords(c2, t);
    var y, p, r := XorCol(XorCol(c1, c2), c3), XorCol(c1, t), XorCol(c2, t);
    RorWords(p);
    RorWords(r);
    RorWords(t);
    var p', r', t' := Col(p.b1, p.b2, p.b3, p.b0), Col(r.b2, r.b3, r.b0, r.b1), Col(t.b3, t.b0, t.b1, t.b2);
    XorWords(p', r');
    XorWords(XorCol(p', r'), t');
    XorWords(y, XorCol(XorCol(p', r'), t'));
    SumOrders(c.b0, c1.b0, c2.b0, c3.b0, y.b0, p'.b0, r'.b0, t'.b0);
    SumOrders(c.b1, c1.b1, c2.b1, c3.b1, y.b1, p'.b1, r'.b1, t'.b1);
    SumOrders(c.b2, c1.b2, c2.b2, c3.b2, y.b2, p'.b2, r'.b2, t'.b2);
    SumOrders(c.b3, c1.b3, c2.b3, c3.b3, y.b3, p'.b3, r'.b3, t'.b3);
    Rotations(ByE(c.b1), ByB(c.b2), ByD(c.b3), By9(c.b0));
    Rotations(ByE(c.b2), ByB(c.b3), ByD(c.b0), By9(c.b1));
    Rotations(ByE(c.b3), ByB(c.b0), ByD(c.b1), By9(c.b2));
  }

  // ----- the lookup tables, by the equations that define them -----

  function Unit(n: nat, b: bv8): Col
    requires n < 4
  {
    Col(if n == 0 then b else 0, if n == 1 then b else 0, if n == 2 then b else 0, if n == 3 then b else 0)
  }

  function FtTab(s: Sbox, n: nat, x: bv8): bv32
    requires n < 4
  {
    WordOf(Mix(Unit(n, s.sub(x))))
  }

  function FlTab(s: Sbox, n: nat, x: bv8): bv32
    requires n < 4
  {
    WordOf(Unit(n, s.sub(x)))
  }

  function ItTab(s: Sbox, n: nat, x: bv8): bv32
    requires n < 4
  {
    WordOf(InvMix(Unit(n, s.inv(x))))
  }

  function IlTab(s: Sbox, n: nat, x: bv8): bv32
    requires n < 4
  {
    WordOf(Unit(n, s.inv(x)))
  }

  function X5(a: bv32, b: bv32, c: bv32, d: bv32, k: bv32): bv32 { X(X(X(X(a, b), c), d), k) }

  lemma XorColAssoc(a: Col, b: Col, c: Col)
    ensures XorCol(XorCol(a, b), c) == XorCol(a, XorCol(b, c))
  {
    hide XB;
    XBAssoc(a.b0, b.b0, c.b0);
    XBAssoc(a.b1, b.b1, c.b1);
    XBAssoc(a.b2, b.b2, c.b2);
    XBAssoc(a.b3, b.b3, c.b3);
  }

  lemma WordsOfFour(a: Col, b: Col, c: Col, d: Col, k: Col)
    ensures X5(WordOf(a), WordOf(b), WordOf(c), WordOf(d), WordOf(k))
      == WordOf(XorCol(XorCol(XorCol(a, b), XorCol(c, d)), k))
  {
    hide X, WordOf, XorCol;
    XorWords(a, b);
    XorWords(XorCol(a, b), c);
    XorWords(XorCol(XorCol(a, b), c), d);
    XorWords(XorCol(XorCol(XorCol(a, b), c), d), k);
    XorColAssoc(XorCol(a, b), c, d);
  }

  /** Four lookups in the last-round tables give a column of substituted bytes. */
  lemma LookupUnits(c: Col, k: Col)
    ensures X5(WordOf(Unit(0, c.b0)), WordOf(Unit(1, c.b1)), WordOf(Unit(2, c.b2)), WordOf(Unit(3, c.b3)), WordOf(k))
      == WordOf(XorCol(c, k))
  {
    hide X5, WordOf, XorCol;
    AsUnits(c);
    WordsOfFour(Unit(0, c.b0), Unit(1, c.b1), Unit(2, c.b2), Unit(3, c.b3), k);
  }

  lemma LookupMix(c: Col, k: Col)
    ensures X5(WordOf(Mix(Unit(0, c.b0))), WordOf(Mix(Unit(1, c.b1))), WordOf(Mix(Unit(2, c.b2))),
               WordOf(Mix(Unit(3, c.b3))), WordOf(k)) == WordOf(XorCol(Mix(c), k))
  {
    hide X5, WordOf, XorCol, Mix;
    var u0, u1, u2, u3 := Unit(0, c.b0), Unit(1, c.b1), Unit(2, c.b2), Unit(3, c.b3);
    AsUnits(c);
    MixX(XorCol(u0, u1), XorCol(u2, u3));
    MixX(u0, u1);
    MixX(u2, u3);
    WordsOfFour(Mix(u0), Mix(u1), Mix(u2), Mix(u3), k);
  }

  lemma LookupInvMix(c: Col, k: Col)
    ensures X5(WordOf(InvMix(Unit(0, c.b0))), WordOf(InvMix(Unit(1, c.b1))), WordOf(InvMix(Unit(2, c.b2))),
               WordOf(InvMix(Unit(3, c.b3))), WordOf(k)) == WordOf(XorCol(InvMix(c), k))
  {
    hide X5, WordOf, XorCol, InvMix;
    var u0, u1, u2, u3 := Unit(0, c.b0), Unit(1, c.b1), Unit(2, c.b2), Unit(3, c.b3);
    AsUnits(c);
    InvMixX(XorCol(u0, u1), XorCol(u2, u3));
    InvMixX(u0, u1);
    InvMixX(u2, u3);
    WordsOfFour(InvMix(u0), InvMix(u1), InvMix(u2), InvMix(u3), k);
  }

  // ----- rounds on words -----

  function Cols(w: seq<bv32>): (c: seq<Col>)
    ensures |c| == |w| && forall i :: 0 <= i < |w| ==> c[i] == ColOf(w[i])
  {
    seq(|w|, i requires 0 <= i < |w| => ColOf(w[i]))
  }

  function StateOf(b: seq<bv32>): State
    requires |b| == 4
  {
    State(ColOf(b[0]), ColOf(b[1]), ColOf(b[2]), ColOf(b[3]))
  }

  /** f_rn */
  function FRn(s: Sbox, a: bv32, b: bv32, c: bv32, d: bv32, k: bv32): bv32 {
    X5(FtTab(s, 0, Byte0(a)), FtTab(s, 1, Byte1(b)), FtTab(s, 2, Byte2(c)), FtTab(s, 3, Byte3(d)), k)
  }

  /** f_rl */
  function FRl(s: Sbox, a: bv32, b: bv32, c: bv32, d: bv32, k: bv32): bv32 {
    X5(FlTab(s, 0, Byte0(a)), FlTab(s, 1, Byte1(b)), FlTab(s, 2, Byte2(c)), FlTab(s, 3, Byte3(d)), k)
  }

  /** i_rn */
  function IRn(s: Sbox, a: bv32, b: bv32, c: bv32, d: bv32, k: bv32): bv32 {
    X5(ItTab(s, 0, Byte0(a)), ItTab(s, 1, Byte1(b)), ItTab(s, 2, Byte2(c)), ItTab(s, 3, Byte3(d)), k)
  }

  /** i_rl */
  function IRl(s: Sbox, a: bv32, b: bv32, c: bv32, d: bv32, k: bv32): bv32 {
    X5(IlTab(s, 0, Byte0(a)), IlTab(s, 1, Byte1(b)), IlTab(s, 2, Byte2(c)), IlTab(s, 3, Byte3(d)), k)
  }

  /** The column made of one byte of each word. */
  function Diagonal(a: bv32, b: bv32, c: bv32, d: bv32): Col { Col(ColOf(a).b0, ColOf(b).b1, ColOf(c).b2, ColOf(d).b3) }

  lemma RoundColumns(s: Sbox, a: bv32, b: bv32, c: bv32, d: bv32, k: bv32)
    ensures ColOf(FRn(s, a, b, c, d, k)) == XorCol(Mix(MapCol(s.sub, Diagonal(a, b, c, d))), ColOf(k))
    ensures ColOf(FRl(s, a, b, c, d, k)) == XorCol(MapCol(s.sub, Diagonal(a, b, c, d)), ColOf(k))
    ensures ColOf(IRn(s, a, b, c, d, k)) == XorCol(InvMix(MapCol(s.inv, Diagonal(a, b, c, d))), ColOf(k))
    ensures ColOf(IRl(s, a, b, c, d, k)) == XorCol(MapCol(s.inv, Diagonal(a, b, c, d)), ColOf(k))
  {
    hide X5, WordOf, XorCol, Mix, InvMix, Byte0, Byte1, Byte2, Byte3;
    var e, k' := Diagonal(a, b, c, d), ColOf(k);
    var f, g := MapCol(s.sub, e), MapCol(s.inv, e);
    WordOfCol(k);
    LookupMix(f, k');
    LookupUnits(f, k');
    LookupInvMix(g, k');
    LookupUnits(g, k');
    ColOfWord(XorCol(Mix(f), k'));
    ColOfWord(XorCol(f, k'));
    ColOfWord(XorCol(InvMix(g), k'));
    ColOfWord(XorCol(g, k'));
  }

  lemma DiagonalsOfRows(s: Sbox, b: seq<bv32>)
    requires |b| == 4
    ensures Substituted(s, StateOf(b))
      == State(MapCol(s.sub, Diagonal(b[0], b[1], b[2], b[3])), MapCol(s.sub, Diagonal(b[1], b[2], b[3], b[0])),
               MapCol(s.sub, Diagonal(b[2], b[3], b[0], b[1])), MapCol(s.sub, Diagonal(b[3], b[0], b[1], b[2])))
    ensures Unsubstituted(s, StateOf(b))
      == State(MapCol(s.inv, Diagonal(b[0], b[3], b[2], b[1])), MapCol(s.inv, Diagonal(b[1], b[0], b[3], b[2])),
               MapCol(s.inv, Diagonal(b[2], b[1], b[0], b[3])), MapCol(s.inv, Diagonal(b[3], b[2], b[1], b[0])))
  {
    hide ColOf;
  }

  /** f_nround: a round of the cipher with the key words from k on. */
  method FNRound(s: Sbox, bo: array<bv32>, bi: array<bv32>, key: array<bv32>, k: nat)
    requires bo.Length == bi.Length == 4 && bo != bi && bo != key && k % 4 == 0 && k + 4 <= key.Length
    modifies bo
    ensures StateOf(bo[..]) == XorState(MixColumns(Substituted(s, StateOf(bi[..]))), RoundKey(Cols(key[..]), k / 4))
  {
    hide FRn, FRl, IRn, IRl, XorCol, Mix, MapCol, Diagonal, ColOf, Substituted, Unsubstituted;
    bo[0] := FRn(s, bi[0], bi[1], bi[2], bi[3], key[k]);
    bo[1] := FRn(s, bi[1], bi[2], bi[3], bi[0], key[k + 1]);
    bo[2] := FRn(s, bi[2], bi[3], bi[0], bi[1], key[k + 2]);
    bo[3] := FRn(s, bi[3], bi[0], bi[1], bi[2], key[k + 3]);
    DiagonalsOfRows(s, bi[..]);
    RoundColumns(s, bi[0], bi[1], bi[2], bi[3], key[k]);
    RoundColumns(s, bi[1], bi[2], bi[3], bi[0], key[k + 1]);
    RoundColumns(s, bi[2], bi[3], bi[0], bi[1], key[k + 2]);
    RoundColumns(s, bi[3], bi[0], bi[1], bi[2], key[k + 3]);
  }

  /** f_lround */
  method FLRound(s: Sbox, bo: array<bv32>, bi: array<bv32>, key: array<bv32>, k: nat)
    requires bo.Length == bi.Length == 4 && bo != bi && bo != key && k % 4 == 0 && k + 4 <= key.Length
    modifies bo
    ensures StateOf(bo[..]) == XorState(Substituted(s, StateOf(bi[..])), RoundKey(Cols(key[..]), k / 4))
  {
    hide FRn, FRl, IRn, IRl, XorCol, Mix, MapCol, Diagonal, ColOf, Substituted, Unsubstituted;
    bo[0] := FRl(s, bi[0], bi[1], bi[2], bi[3], key[k]);
    bo[1] := FRl(s, bi[1], bi[2], bi[3], bi[0], key[k + 1]);
    bo[2] := FRl(s, bi[2], bi[3], bi[0], bi[1], key[k + 2]);
    bo[3] := FRl(s, bi[3], bi[0], bi[1], bi[2], key[k + 3]);
    DiagonalsOfRows(s, bi[..]);
    RoundColumns(s, bi[0], bi[1], bi[2], bi[3], key[k]);
    RoundColumns(s, bi[1], bi[2], bi[3], bi[0], key[k + 1]);
    RoundColumns(s, bi[2], bi[3], bi[0], bi[1], key[k + 2]);
    RoundColumns(s, bi[3], bi[0], bi[1], bi[2], key[k + 3]);
  }

  /** i_nround: a round of the inverse cipher, with InvMixColumns moved in front of
      the key addition. */
  method INRound(s: Sbox, bo: array<bv32>, bi: array<bv32>, key: array<bv32>, k: nat)
    requires bo.Length == bi.Length == 4 && bo != bi && bo != key && k % 4 == 0 && k + 4 <= key.Length
    modifies bo
    ensures StateOf(bo[..]) == XorState(InvMixColumns(Unsubstituted(s, StateOf(bi[..]))), RoundKey(Cols(key[..]), k / 4))
  {
    hide FRn, FRl, IRn, IRl, XorCol, InvMix, MapCol, Diagonal, ColOf, Substituted, Unsubstituted;
    bo[0] := IRn(s, bi[0], bi[3], bi[2], bi[1], key[k]);
    bo[1] := IRn(s, bi[1], bi[0], bi[3], bi[2], key[k + 1]);
    bo[2] := IRn(s, bi[2], bi[1], bi[0], bi[3], key[k + 2]);
    bo[3] := IRn(s, bi[3], bi[2], bi[1], bi[0], key[k + 3]);
    DiagonalsOfRows(s, bi[..]);
    RoundColumns(s, bi[0], bi[3], bi[2], bi[1], key[k]);
    RoundColumns(s, bi[1], bi[0], bi[3], bi[2], key[k + 1]);
    RoundColumns(s, bi[2], bi[1], bi[0], bi[3], key[k + 2]);
    RoundColumns(s, bi[3], bi[2], bi[1], bi[0], key[k + 3]);
  }

  /** i_lround */
  method ILRound(s: Sbox, bo: array<bv32>, bi: array<bv32>, key: array<bv32>, k: nat)
    requires bo.Length == bi.Length == 4 && bo != bi && bo != key && k % 4 == 0 && k + 4 <= key.Length
    modifies bo
    ensures StateOf(bo[..]) == XorState(Unsubstituted(s, StateOf(bi[..])), RoundKey(Cols(key[..]), k / 4))
  {
    hide FRn, FRl, IRn, IRl, XorCol, InvMix, MapCol, Diagonal, ColOf, Substituted, Unsubstituted;
    bo[0] := IRl(s, bi[0], bi[3], bi[2], bi[1], key[k]);
    bo[1] := IRl(s, bi[1], bi[0], bi[3], bi[2], key[k + 1]);
    bo[2] := IRl(s, bi[2], bi[1], bi[0], bi[3], key[k + 2]);
    bo[3] := IRl(s, bi[3], bi[2], bi[1], bi[0], key[k + 3]);
    DiagonalsOfRows(s, bi[..]);
    RoundColumns(s, bi[0], bi[3], bi[2], bi[1], key[k]);
    RoundColumns(s, bi[1], bi[0], bi[3], bi[2], key[k + 1]);
    RoundColumns(s, bi[2], bi[1], bi[0], bi[3], key[k + 2]);
    RoundColumns(s, bi[3], bi[2], bi[1], bi[0], key[k + 3]);
  }
}
