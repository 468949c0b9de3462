/** Operations on 32-bit words and the laws that the proofs about ciphers use. Each
    operation has a name so that a proof can hide its bits and use the laws only. */
module Words {
  function X(a: bv32, b: bv32): bv32 { a ^ b }
  function And(a: bv32, b: bv32): bv32 { a & b }
  function Or(a: bv32, b: bv32): bv32 { a | b }
  function Not(a: bv32): bv32 { !a }
  function Rol1(x: bv32): bv32 { (x << 1) | (x >> 31) }
  function Rol8(x: bv32): bv32 { (x << 8) | (x >> 24) }
  function Ror8(x: bv32): bv32 { (x >> 8) | (x << 24) }

  function Byte3(x: bv32): bv8 { (x >> 24) as bv8 }
  function Byte2(x: bv32): bv8 { ((x >> 16) & 0xFF) as bv8 }
  function Byte1(x: bv32): bv8 { ((x >> 8) & 0xFF) as bv8 }
  function Byte0(x: bv32): bv8 { (x & 0xFF) as bv8 }

  /** The word with the given bytes, most significant first. */
  function Word(b3: bv8, b2: bv8, b1: bv8, b0: bv8): bv32 {
    ((b3 as bv32) << 24) | ((b2 as bv32) << 16) | ((b1 as bv32) << 8) | (b0 as bv32)
  }

  function XB(a: bv8, b: bv8): bv8 { a ^ b }
  function Sum3(a: bv8, b: bv8, c: bv8): bv8 { a ^ b ^ c }
  function Sum5(a: bv8, b: bv8, c: bv8, d: bv8, e: bv8): bv8 { a ^ b ^ c ^ d ^ e }
  function Sum6(a: bv8, b: bv8, c: bv8, d: bv8, e: bv8, f: bv8): bv8 { a ^ b ^ c ^ d ^ e ^ f }

  lemma XAssoc(a: bv32, b: bv32, c: bv32)
    ensures X(X(a, b), c) == X(a, X(b, c))
  {}

  lemma XComm(a: bv32, b: bv32)
    ensures X(a, b) == X(b, a)
  {}

  lemma XCancel(a: bv32, b: bv32)
    ensures X(X(a, b), b) == a
  {}

  lemma XZero(a: bv32)
    ensures X(a, 0) == a
  {}

  lemma XSwap(a: bv32, b: bv32, c: bv32, d: bv32)
    ensures X(X(a, b), X(c, d)) == X(X(a, c), X(b, d))
  {
    hide *;
    XAssoc(a, b, X(c, d));
    XAssoc(b, c, d);
    XComm(b, c);
    XAssoc(c, b, d);
    XAssoc(a, c, X(b, d));
  }

  lemma AndX(a: bv32, b: bv32, k: bv32)
    ensures And(X(a, b), k) == X(And(a, k), And(b, k))
  {}

  lemma OrAsX(a: bv32, k: bv32)
    ensures Or(a, k) == X(k, And(a, Not(k)))
  {}

  lemma OrX(a: bv32, b: bv32, k: bv32)
    ensures Or(X(a, b), k) == X(Or(a, k), And(b, Not(k)))
  {
    hide *;
    OrAsX(X(a, b), k);
    AndX(a, b, Not(k));
    OrAsX(a, k);
    XAssoc(k, And(a, Not(k)), And(b, Not(k)));
  }

  lemma RolX(a: bv32, b: bv32)
    ensures Rol1(X(a, b)) == X(Rol1(a), Rol1(b))
  {}

  lemma RorX(a: bv32, b: bv32)
    ensures Ror8(X(a, b)) == X(Ror8(a), Ror8(b))
  {}

  lemma RorRol(a: bv32)
    ensures Ror8(Rol8(a)) == a
  {}

  lemma WordX(a3: bv8, a2: bv8, a1: bv8, a0: bv8, b3: bv8, b2: bv8, b1: bv8, b0: bv8)
    ensures X(Word(a3, a2, a1, a0), Word(b3, b2, b1, b0)) == Word(XB(a3, b3), XB(a2, b2), XB(a1, b1), XB(a0, b0))
  {}

  lemma XBZero(a: bv8)
    ensures XB(a, 0) == a && XB(0, a) == a
  {}

  lemma WordRor(b3: bv8, b2: bv8, b1: bv8, b0: bv8)
    ensures Ror8(Word(b3, b2, b1, b0)) == Word(b0, b3, b2, b1)
  {}
}
