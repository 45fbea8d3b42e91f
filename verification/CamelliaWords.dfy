/**
  32-bit word arithmetic of the Camellia cipher.

  A 64-bit half block is a pair of 32-bit words, a 128-bit key a quadruple of
  them. The laws of exclusive or are proved once, on single words; every later
  proof hides the bit-vector operators and works with these laws alone.
 */
module CamelliaWords {

  function X(a: bv32, b: bv32): bv32 { a ^ b }
  function Or(a: bv32, k: bv32): bv32 { a | k }
  function AndNot(a: bv32, k: bv32): bv32 { a & !k }
  function And(a: bv32, k: bv32): bv32 { a & k }
  function Rol1(a: bv32): bv32 { a.RotateLeft(1) }
  function RolAnd(a: bv32, k: bv32): bv32 { Rol1(And(a, k)) }

  // Each law is proved on the operators, then lifted to the named functions with their bodies hidden.

  lemma XIs(a: bv32, b: bv32)
    ensures X(a, b) == a ^ b
  {}

  lemma OrIs(a: bv32, k: bv32)
    ensures Or(a, k) == a | k
  {}

  lemma AndNotIs(a: bv32, k: bv32)
    ensures AndNot(a, k) == a & !k
  {}

  lemma AndIs(a: bv32, k: bv32)
    ensures And(a, k) == a & k
  {}

  lemma BitsCancel(a: bv32, b: bv32)
    ensures (a ^ b) ^ b == a
  {}

  lemma BitsOr(a: bv32, c: bv32, k: bv32)
    ensures (a ^ c) | k == (a | k) ^ (c & !k)
  {}

  lemma BitsAndNot(a: bv32, c: bv32, k: bv32)
    ensures (a ^ c) & !k == (a & !k) ^ (c & !k)
  {}

  lemma BitsAnd(a: bv32, c: bv32, k: bv32)
    ensures (a ^ c) & k == (a & k) ^ (c & k)
  {}

  lemma Rol1Linear(a: bv32, c: bv32)
    ensures Rol1(X(a, c)) == X(Rol1(a), Rol1(c))
  {}

  lemma XComm(a: bv32, b: bv32)
    ensures X(a, b) == X(b, a)
  {}

  lemma XAssoc(a: bv32, b: bv32, c: bv32)
    ensures X(X(a, b), c) == X(a, X(b, c))
  {}

  lemma XCancel(a: bv32, b: bv32)
    ensures X(X(a, b), b) == a
  {
    hide X;
    XIs(a, b); XIs(a ^ b, b); BitsCancel(a, b);
  }

  /** Or-ing a key is affine: a difference passes through masked by the complement of the key. */
  lemma OrAffine(a: bv32, c: bv32, k: bv32)
    ensures Or(X(a, c), k) == X(Or(a, k), AndNot(c, k))
  {
    hide X; hide Or; hide AndNot;
    XIs(a, c); OrIs(a ^ c, k); OrIs(a, k); AndNotIs(c, k); XIs(a | k, c & !k); BitsOr(a, c, k);
  }

  lemma AndNotLinear(a: bv32, c: bv32, k: bv32)
    ensures AndNot(X(a, c), k) == X(AndNot(a, k), AndNot(c, k))
  {
    hide X; hide AndNot;
    XIs(a, c); AndNotIs(a ^ c, k); AndNotIs(a, k); AndNotIs(c, k); XIs(a & !k, c & !k); BitsAndNot(a, c, k);
  }

  lemma AndLinear(a: bv32, c: bv32, k: bv32)
    ensures And(X(a, c), k) == X(And(a, k), And(c, k))
  {
    hide X; hide And;
    XIs(a, c); AndIs(a ^ c, k); AndIs(a, k); AndIs(c, k); XIs(a & k, c & k); BitsAnd(a, c, k);
  }

  lemma RolAndLinear(a: bv32, c: bv32, k: bv32)
    ensures RolAnd(X(a, c), k) == X(RolAnd(a, k), RolAnd(c, k))
  {
    hide X; hide And; hide Rol1;
    AndLinear(a, c, k);
    Rol1Linear(And(a, k), And(c, k));
  }

  /** A 64-bit quantity: half a block, or a subkey. */
  datatype Half = Half(l: bv32, r: bv32)

  function Xor(a: Half, b: Half): Half { Half(X(a.l, b.l), X(a.r, b.r)) }

  lemma XorComm(a: Half, b: Half)
    ensures Xor(a, b) == Xor(b, a)
  {
    hide X;
    XComm(a.l, b.l); XComm(a.r, b.r);
  }

  lemma XorAssoc(a: Half, b: Half, c: Half)
    ensures Xor(Xor(a, b), c) == Xor(a, Xor(b, c))
  {
    hide X;
    XAssoc(a.l, b.l, c.l); XAssoc(a.r, b.r, c.r);
  }

  lemma XorCancel(a: Half, b: Half)
    ensures Xor(Xor(a, b), b) == a
  {
    hide X;
    XCancel(a.l, b.l); XCancel(a.r, b.r);
  }

  /** Four-term rearrangement. */
  lemma XorSwap(a: Half, b: Half, c: Half, d: Half)
    ensures Xor(Xor(a, b), Xor(c, d)) == Xor(Xor(a, c), Xor(b, d))
  {
    hide Xor;
    XorAssoc(a, b, Xor(c, d)); XorAssoc(b, c, d); XorComm(b, c);
    XorAssoc(c, b, d); XorAssoc(a, c, Xor(b, d));
  }

  /** A common term cancels. */
  lemma XorSame(a: Half, b: Half, c: Half)
    ensures Xor(Xor(a, c), Xor(b, c)) == Xor(a, b)
  {
    hide Xor;
    XorComm(b, c); XorAssoc(Xor(a, c), c, b); XorCancel(a, c);
  }

  /** FL of RFC 3713, section 2.4.2. */
  function Fl(x: Half, k: Half): Half {
    var r := X(x.r, RolAnd(x.l, k.l));
    Half(X(x.l, Or(r, k.r)), r)
  }

  /** FLINV of RFC 3713, section 2.4.3. */
  function FlInv(y: Half, k: Half): Half {
    var l := X(y.l, Or(y.r, k.r));
    Half(l, X(y.r, RolAnd(l, k.l)))
  }

  /** How the key setup carries a whitening key across an FL or FLINV layer. */
  function Carry(c: Half, k: Half): Half {
    var l := X(c.l, AndNot(c.r, k.r));
    Half(l, X(c.r, RolAnd(l, k.l)))
  }

  lemma FlInverts(x: Half, k: Half)
    ensures Fl(FlInv(x, k), k) == x
    ensures FlInv(Fl(x, k), k) == x
  {
    hide X; hide Or; hide RolAnd;
    XCancel(x.r, RolAnd(FlInv(x, k).l, k.l)); XCancel(x.l, Or(x.r, k.r));
    XCancel(x.r, RolAnd(x.l, k.l)); XCancel(x.l, Or(Fl(x, k).r, k.r));
  }

  lemma SwapWords(a: bv32, b: bv32, c: bv32, d: bv32)
    ensures X(X(a, b), X(c, d)) == X(X(a, c), X(b, d))
  {
    hide X;
    XAssoc(a, b, X(c, d)); XAssoc(b, c, d); XComm(b, c);
    XAssoc(c, b, d); XAssoc(a, c, X(b, d));
  }

  /** A difference in front of FLINV becomes a carried difference behind it. */
  lemma FlInvAffine(y: Half, c: Half, k: Half)
    ensures FlInv(Xor(y, c), k) == Xor(FlInv(y, k), Carry(c, k))
  {
    hide X; hide Or; hide RolAnd; hide AndNot;
    var l, lc := FlInv(y, k).l, Carry(c, k).l;
    OrAffine(y.r, c.r, k.r);
    SwapWords(y.l, c.l, Or(y.r, k.r), AndNot(c.r, k.r));
    RolAndLinear(l, lc, k.l);
    SwapWords(y.r, c.r, RolAnd(l, k.l), RolAnd(lc, k.l));
  }

  /** A carried difference in front of FL becomes the plain difference behind it. */
  lemma FlAffine(x: Half, d: Half, k: Half)
    ensures Fl(Xor(x, Carry(d, k)), k) == Xor(Fl(x, k), d)
  {
    hide X; hide Or; hide RolAnd; hide AndNot;
    var c, r := Carry(d, k), Fl(x, k).r;
    RolAndLinear(x.l, c.l, k.l);
    SwapWords(x.r, c.r, RolAnd(x.l, k.l), RolAnd(c.l, k.l));
    XCancel(d.r, RolAnd(c.l, k.l));
    OrAffine(r, d.r, k.r);
    SwapWords(x.l, c.l, Or(r, k.r), AndNot(d.r, k.r));
    XCancel(d.l, AndNot(d.r, k.r));
  }

  lemma CarryLinear(c: Half, d: Half, k: Half)
    ensures Carry(Xor(c, d), k) == Xor(Carry(c, k), Carry(d, k))
  {
    hide X; hide RolAnd; hide AndNot;
    AndNotLinear(c.r, d.r, k.r);
    SwapWords(c.l, d.l, AndNot(c.r, k.r), AndNot(d.r, k.r));
    RolAndLinear(Carry(c, k).l, Carry(d, k).l, k.l);
    SwapWords(c.r, d.r, RolAnd(Carry(c, k).l, k.l), RolAnd(Carry(d, k).l, k.l));
  }

  // Bytes

  function X8(a: bv8, b: bv8): bv8 { a ^ b }
  function Sum3(a: bv8, b: bv8, c: bv8): bv8 { X8(X8(a, b), c) }
  function Sum5(a: bv8, b: bv8, c: bv8, d: bv8, e: bv8): bv8 { a ^ b ^ c ^ d ^ e }
  function Sum6(a: bv8, b: bv8, c: bv8, d: bv8, e: bv8, f: bv8): bv8 { a ^ b ^ c ^ d ^ e ^ f }

  lemma X8Zero(a: bv8)
    ensures X8(a, 0) == a && X8(0, a) == a
  {}

  lemma SixOfThrees(a: bv8, b: bv8, c: bv8, d: bv8, e: bv8, f: bv8)
    ensures X8(Sum3(d, e, f), Sum3(a, b, c)) == Sum6(a, b, c, d, e, f)
  {}

  lemma Sum3Turn(a: bv8, b: bv8, c: bv8)
    ensures Sum3(c, a, b) == Sum3(a, b, c)
  {}

  // In each of the lower four sums two terms occur twice and cancel.

  lemma Fifth(t1: bv8, t2: bv8, t3: bv8, t4: bv8, t6: bv8, t7: bv8, t8: bv8)
    ensures X8(Sum3(t2, t3, t4), Sum6(t1, t3, t4, t6, t7, t8)) == Sum5(t1, t2, t6, t7, t8)
  {}

  lemma Sixth(t1: bv8, t2: bv8, t3: bv8, t4: bv8, t5: bv8, t7: bv8, t8: bv8)
    ensures X8(Sum3(t1, t3, t4), Sum6(t1, t2, t4, t5, t7, t8)) == Sum5(t2, t3, t5, t7, t8)
  {}

  lemma Seventh(t1: bv8, t2: bv8, t3: bv8, t4: bv8, t5: bv8, t6: bv8, t8: bv8)
    ensures X8(Sum3(t1, t2, t4), Sum6(t1, t2, t3, t5, t6, t8)) == Sum5(t3, t4, t5, t6, t8)
  {}

  lemma Eighth(t1: bv8, t2: bv8, t3: bv8, t4: bv8, t5: bv8, t6: bv8, t7: bv8)
    ensures X8(Sum3(t1, t2, t3), Sum6(t2, t3, t4, t5, t6, t7)) == Sum5(t1, t4, t5, t6, t7)
  {}

  /** Big-endian composition of a word from its bytes. */
  function Pack(a: bv8, b: bv8, c: bv8, d: bv8): bv32 {
    (a as bv32 << 24) | (b as bv32 << 16) | (c as bv32 << 8) | d as bv32
  }

  /** The byte of significance `n`. */
  function Byte(x: bv32, n: nat): bv8
    requires n < 4
  {
    match n
    case 0 => (x & 0xff) as bv8
    case 1 => ((x >> 8) & 0xff) as bv8
    case 2 => ((x >> 16) & 0xff) as bv8
    case _ => (x >> 24) as bv8
  }

  function Ror8(x: bv32): bv32 { x.RotateRight(8) }

  lemma PackXor(a: bv8, b: bv8, c: bv8, d: bv8, e: bv8, f: bv8, g: bv8, h: bv8)
    ensures X(Pack(a, b, c, d), Pack(e, f, g, h)) == Pack(X8(a, e), X8(b, f), X8(c, g), X8(d, h))
  {}

  lemma PackRor8(a: bv8, b: bv8, c: bv8, d: bv8)
    ensures Ror8(Pack(a, b, c, d)) == Pack(d, a, b, c)
  {}
}
