/**
  128-bit rotations on four words, as the macros ROLDQ and ROLDQo32 perform them.
 */
module CamelliaRotations {
  import opened CamelliaRfc

  /** The amounts by which the key setup rotates. */
  predicate Amount(n: nat) {
    n == 15 || n == 17 || n == 30 || n == 32 || n == 34 || n == 45 || n == 49 || n == 51
  }

  /** The word made of the lower bits of `a` and the `n` upper bits of `b`. */
  function Shl(a: bv32, b: bv32, n: nat): bv32
    requires n < 32 && (Amount(n) || Amount(n + 32))
  {
    match n
    case 0 => a
    case 2 => (a << 2) + (b >> 30)
    case 13 => (a << 13) + (b >> 19)
    case 15 => (a << 15) + (b >> 17)
    case 17 => (a << 17) + (b >> 15)
    case 19 => (a << 19) + (b >> 13)
    case 30 => (a << 30) + (b >> 2)
  }

  /** ROLDQ for less than 32 bits and ROLDQo32 for more; 32 bits only rename the words. */
  function Roldq(q: Quad, n: nat): Quad
    requires Amount(n)
  {
    if n < 32 then Quad(Shl(q.a, q.b, n), Shl(q.b, q.c, n), Shl(q.c, q.d, n), Shl(q.d, q.a, n))
    else Quad(Shl(q.b, q.c, n - 32), Shl(q.c, q.d, n - 32), Shl(q.d, q.a, n - 32), Shl(q.a, q.b, n - 32))
  }

  // Rotation amounts add up.

  lemma {:induction false} TurnsAdd(x: bv128, m: nat, n: nat)
    ensures Turn(Turn(x, m), n) == Turn(x, m + n)
    decreases n
  {
    hide Turn1;
    if n > 0 { TurnsAdd(x, m, n - 1); }
  }

  lemma TurnOnce(x: bv128)
    ensures Turn(x, 1) == By(x, 1)
  {
    assert Turn(x, 0) == x;
  }

  /** Rotation by one of the amounts that occur below. */
  function By(x: bv128, n: nat): bv128 {
    match n
    case 1 => x.RotateLeft(1)
    case 2 => x.RotateLeft(2)
    case 4 => x.RotateLeft(4)
    case 8 => x.RotateLeft(8)
    case 12 => x.RotateLeft(12)
    case 14 => x.RotateLeft(14)
    case 15 => x.RotateLeft(15)
    case 17 => x.RotateLeft(17)
    case 30 => x.RotateLeft(30)
    case 32 => x.RotateLeft(32)
    case 34 => x.RotateLeft(34)
    case 45 => x.RotateLeft(45)
    case 49 => x.RotateLeft(49)
    case 51 => x.RotateLeft(51)
    case 64 => x.RotateLeft(64)
    case _ => x
  }

  lemma Sum2(x: bv128)
    ensures By(By(x, 1), 1) == By(x, 2)
  {}

  lemma Sum4(x: bv128)
    ensures By(By(x, 2), 2) == By(x, 4)
  {}

  lemma Sum8(x: bv128)
    ensures By(By(x, 4), 4) == By(x, 8)
  {}

  lemma Sum12(x: bv128)
    ensures By(By(x, 8), 4) == By(x, 12)
  {}

  lemma Sum14(x: bv128)
    ensures By(By(x, 12), 2) == By(x, 14)
  {}

  lemma Sum15(x: bv128)
    ensures By(By(x, 14), 1) == By(x, 15)
  {}

  lemma Sum17(x: bv128)
    ensures By(By(x, 15), 2) == By(x, 17)
  {}

  lemma Sum30(x: bv128)
    ensures By(By(x, 15), 15) == By(x, 30)
  {}

  lemma Sum32(x: bv128)
    ensures By(By(x, 17), 15) == By(x, 32)
  {}

  lemma Sum34(x: bv128)
    ensures By(By(x, 17), 17) == By(x, 34)
  {}

  lemma Sum45(x: bv128)
    ensures By(By(x, 30), 15) == By(x, 45)
  {}

  lemma Sum49(x: bv128)
    ensures By(By(x, 32), 17) == By(x, 49)
  {}

  lemma Sum51(x: bv128)
    ensures By(By(x, 34), 17) == By(x, 51)
  {}

  lemma Sum64(x: bv128)
    ensures By(By(x, 32), 32) == By(x, 64)
  {}

  lemma Sum128(x: bv128)
    ensures By(By(x, 64), 64) == x
  {}

  lemma {:induction false} Turned(x: bv128, n: nat)
    requires n == 1 || n == 2 || n == 4 || n == 8 || n == 12 || n == 14 || n == 64 || Amount(n)
    ensures Turn(x, n) == By(x, n)
    decreases n
  {
    hide Turn; hide By;
    match n
    case 1 => TurnOnce(x);
    case 2 => Turned(x, 1); Turned(By(x, 1), 1); TurnsAdd(x, 1, 1); Sum2(x);
    case 4 => Turned(x, 2); Turned(By(x, 2), 2); TurnsAdd(x, 2, 2); Sum4(x);
    case 8 => Turned(x, 4); Turned(By(x, 4), 4); TurnsAdd(x, 4, 4); Sum8(x);
    case 12 => Turned(x, 8); Turned(By(x, 8), 4); TurnsAdd(x, 8, 4); Sum12(x);
    case 14 => Turned(x, 12); Turned(By(x, 12), 2); TurnsAdd(x, 12, 2); Sum14(x);
    case 15 => Turned(x, 14); Turned(By(x, 14), 1); TurnsAdd(x, 14, 1); Sum15(x);
    case 17 => Turned(x, 15); Turned(By(x, 15), 2); TurnsAdd(x, 15, 2); Sum17(x);
    case 30 => Turned(x, 15); Turned(By(x, 15), 15); TurnsAdd(x, 15, 15); Sum30(x);
    case 32 => Turned(x, 17); Turned(By(x, 17), 15); TurnsAdd(x, 17, 15); Sum32(x);
    case 34 => Turned(x, 17); Turned(By(x, 17), 17); TurnsAdd(x, 17, 17); Sum34(x);
    case 45 => Turned(x, 30); Turned(By(x, 30), 15); TurnsAdd(x, 30, 15); Sum45(x);
    case 49 => Turned(x, 32); Turned(By(x, 32), 17); TurnsAdd(x, 32, 17); Sum49(x);
    case 51 => Turned(x, 34); Turned(By(x, 34), 17); TurnsAdd(x, 34, 17); Sum51(x);
    case 64 => Turned(x, 32); Turned(By(x, 32), 32); TurnsAdd(x, 32, 32); Sum64(x);
  }

  /** A rotation by all 128 bits changes nothing. */
  lemma TurnedAround(x: bv128)
    ensures Turn(x, 128) == x
  {
    hide Turn; hide By;
    TurnsAdd(x, 64, 64); Turned(x, 64); Turned(By(x, 64), 64); Sum128(x);
  }

  // On the words

  lemma Words15(a: bv32, b: bv32, c: bv32, d: bv32)
    ensures Concat((a << 15) + (b >> 17), (b << 15) + (c >> 17), (c << 15) + (d >> 17), (d << 15) + (a >> 17))
         == By(Concat(a, b, c, d), 15)
  {}

  lemma Words17(a: bv32, b: bv32, c: bv32, d: bv32)
    ensures Concat((a << 17) + (b >> 15), (b << 17) + (c >> 15), (c << 17) + (d >> 15), (d << 17) + (a >> 15))
         == By(Concat(a, b, c, d), 17)
  {}

  lemma Words30(a: bv32, b: bv32, c: bv32, d: bv32)
    ensures Concat((a << 30) + (b >> 2), (b << 30) + (c >> 2), (c << 30) + (d >> 2), (d << 30) + (a >> 2))
         == By(Concat(a, b, c, d), 30)
  {}

  lemma Words32(a: bv32, b: bv32, c: bv32, d: bv32)
    ensures Concat(b, c, d, a)
         == By(Concat(a, b, c, d), 32)
  {}

  lemma Words34(a: bv32, b: bv32, c: bv32, d: bv32)
    ensures Concat((b << 2) + (c >> 30), (c << 2) + (d >> 30), (d << 2) + (a >> 30), (a << 2) + (b >> 30))
         == By(Concat(a, b, c, d), 34)
  {}

  lemma Words45(a: bv32, b: bv32, c: bv32, d: bv32)
    ensures Concat((b << 13) + (c >> 19), (c << 13) + (d >> 19), (d << 13) + (a >> 19), (a << 13) + (b >> 19))
         == By(Concat(a, b, c, d), 45)
  {}

  lemma Words49(a: bv32, b: bv32, c: bv32, d: bv32)
    ensures Concat((b << 17) + (c >> 15), (c << 17) + (d >> 15), (d << 17) + (a >> 15), (a << 17) + (b >> 15))
         == By(Concat(a, b, c, d), 49)
  {}

  lemma Words51(a: bv32, b: bv32, c: bv32, d: bv32)
    ensures Concat((b << 19) + (c >> 13), (c << 19) + (d >> 13), (d << 19) + (a >> 13), (a << 19) + (b >> 13))
         == By(Concat(a, b, c, d), 51)
  {}

  lemma Roldq15(q: Quad)
    ensures Value(Roldq(q, 15)).v == By(Value(q).v, 15)
  {
    hide Concat; hide By;
    Words15(q.a, q.b, q.c, q.d);
  }

  lemma Roldq17(q: Quad)
    ensures Value(Roldq(q, 17)).v == By(Value(q).v, 17)
  {
    hide Concat; hide By;
    Words17(q.a, q.b, q.c, q.d);
  }

  lemma Roldq30(q: Quad)
    ensures Value(Roldq(q, 30)).v == By(Value(q).v, 30)
  {
    hide Concat; hide By;
    Words30(q.a, q.b, q.c, q.d);
  }

  lemma Roldq32(q: Quad)
    ensures Value(Roldq(q, 32)).v == By(Value(q).v, 32)
  {
    hide Concat; hide By;
    Words32(q.a, q.b, q.c, q.d);
  }

  lemma Roldq34(q: Quad)
    ensures Value(Roldq(q, 34)).v == By(Value(q).v, 34)
  {
    hide Concat; hide By;
    Words34(q.a, q.b, q.c, q.d);
  }

  lemma Roldq45(q: Quad)
    ensures Value(Roldq(q, 45)).v == By(Value(q).v, 45)
  {
    hide Concat; hide By;
    Words45(q.a, q.b, q.c, q.d);
  }

  lemma Roldq49(q: Quad)
    ensures Value(Roldq(q, 49)).v == By(Value(q).v, 49)
  {
    hide Concat; hide By;
    Words49(q.a, q.b, q.c, q.d);
  }

  lemma Roldq51(q: Quad)
    ensures Value(Roldq(q, 51)).v == By(Value(q).v, 51)
  {
    hide Concat; hide By;
    Words51(q.a, q.b, q.c, q.d);
  }

  /** The macros rotate the 128-bit value. */
  lemma RoldqIs(q: Quad, n: nat)
    requires Amount(n)
    ensures Value(Roldq(q, n)) == Rol(Value(q), n)
  {
    hide Value; hide Turn; hide By; hide Roldq;
    Turned(Value(q).v, n);
    match n
    case 15 => Roldq15(q);
    case 17 => Roldq17(q);
    case 30 => Roldq30(q);
    case 32 => Roldq32(q);
    case 34 => Roldq34(q);
    case 45 => Roldq45(q);
    case 49 => Roldq49(q);
    case 51 => Roldq51(q);
  }

  /** So a rotation of a rotated value gives the sum of the two amounts. */
  lemma RoldqAdds(x: Wide, m: nat, q: Quad, n: nat)
    requires Value(q) == Rol(x, m) && Amount(n)
    ensures Value(Roldq(q, n)) == Rol(x, m + n)
  {
    hide Value; hide Turn; hide Roldq;
    RoldqIs(q, n); TurnsAdd(x.v, m, n);
  }

  lemma ConcatWord0(a: bv32, b: bv32, c: bv32, d: bv32)
    ensures Word0(Concat(a, b, c, d)) == a
  {}

  lemma ConcatWord1(a: bv32, b: bv32, c: bv32, d: bv32)
    ensures Word1(Concat(a, b, c, d)) == b
  {}

  lemma ConcatWord2(a: bv32, b: bv32, c: bv32, d: bv32)
    ensures Word2(Concat(a, b, c, d)) == c
  {}

  lemma ConcatWord3(a: bv32, b: bv32, c: bv32, d: bv32)
    ensures Word3(Concat(a, b, c, d)) == d
  {}

  lemma Halves(q: Quad)
    ensures Hi(Value(q)) == Left(q) && Lo(Value(q)) == Right(q)
  {
    hide Word0; hide Word1; hide Word2; hide Word3; hide Concat;
    ConcatWord0(q.a, q.b, q.c, q.d); ConcatWord1(q.a, q.b, q.c, q.d);
    ConcatWord2(q.a, q.b, q.c, q.d); ConcatWord3(q.a, q.b, q.c, q.d);
  }
}
