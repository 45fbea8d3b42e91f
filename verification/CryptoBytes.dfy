/** Byte strings and the exclusive-or that CBC and CCM share. */
module CryptoBytes {

  type Byte = b: nat | b < 256

  function Pow2(k: nat): (r: nat)
    ensures r > 0
  {
    if k == 0 then 1 else 2 * Pow2(k - 1)
  }

  /** Bitwise exclusive-or. */
  function XorNat(a: nat, b: nat): nat {
    if a == 0 && b == 0 then 0 else 2 * XorNat(a / 2, b / 2) + (a % 2 + b % 2) % 2
  }

  /** Bitwise or. */
  function OrNat(a: nat, b: nat): nat {
    if a == 0 && b == 0 then 0 else 2 * OrNat(a / 2, b / 2) + if a % 2 == 1 || b % 2 == 1 then 1 else 0
  }

  lemma {:induction false} XorBelow(a: nat, b: nat, k: nat)
    requires a < Pow2(k) && b < Pow2(k)
    ensures XorNat(a, b) < Pow2(k)
    decreases k
  {
    if k > 0 { XorBelow(a / 2, b / 2, k - 1); }
  }

  lemma XorParts(a: nat, b: nat)
    ensures XorNat(a, b) == 2 * XorNat(a / 2, b / 2) + (a % 2 + b % 2) % 2
    ensures XorNat(a, b) / 2 == XorNat(a / 2, b / 2) && XorNat(a, b) % 2 == (a % 2 + b % 2) % 2
  {}

  lemma Bits(a: nat, b: nat)
    ensures ((a % 2 + b % 2) % 2 + b % 2) % 2 == a % 2 && a == 2 * (a / 2) + a % 2
  {}

  lemma {:induction false} XorLaws(a: nat, b: nat)
    ensures XorNat(XorNat(a, b), b) == a && XorNat(a, b) == XorNat(b, a)
  {
    if a > 0 || b > 0 {
      XorLaws(a / 2, b / 2);
      hide XorNat;
      XorParts(a, b);
      XorParts(b, a);
      XorParts(XorNat(a, b), b);
      Bits(a, b);
    }
  }

  lemma {:induction false} XorUnit(a: nat)
    ensures XorNat(0, a) == a
  {
    if a > 0 { XorUnit(a / 2); }
  }

  /** Numbers without a common bit are added by or. */
  lemma {:induction false} OrIsPlus(a: nat, b: nat, k: nat)
    requires a < Pow2(k)
    ensures OrNat(a, b * Pow2(k)) == a + b * Pow2(k)
    decreases k
  {
    hide OrNat;
    if k == 0 {
      OrUnit(b);
    } else {
      OrIsPlus(a / 2, b, k - 1);
      OrDouble(a, b * Pow2(k - 1));
      TimesDouble(b, Pow2(k - 1));
    }
  }

  lemma TimesDouble(a: nat, b: nat)
    ensures a * (2 * b) == 2 * (a * b)
  {}

  lemma OrDouble(a: nat, c: nat)
    ensures OrNat(a, 2 * c) == 2 * OrNat(a / 2, c) + a % 2
  {
    assert (2 * c) / 2 == c && (2 * c) % 2 == 0;
  }

  lemma {:induction false} OrUnit(a: nat)
    ensures OrNat(0, a) == a
  {
    if a > 0 { OrUnit(a / 2); }
  }

  lemma PowEight()
    ensures Pow2(8) == 256 && Pow2(3) == 8 && Pow2(6) == 64
  {
    assert Pow2(2) == 4 && Pow2(4) == 16;
  }

  function XorByte(a: Byte, b: Byte): Byte {
    PowEight();
    XorBelow(a, b, 8);
    XorNat(a, b)
  }

  function Xor(a: seq<Byte>, b: seq<Byte>): (r: seq<Byte>)
    requires |a| == |b|
    ensures |r| == |a|
  {
    seq(|a|, i requires 0 <= i < |a| => XorByte(a[i], b[i]))
  }

  lemma XorByteLaws(a: Byte, b: Byte)
    ensures XorByte(XorByte(a, b), b) == a && XorByte(a, b) == XorByte(b, a) && XorByte(0, a) == a
  {
    XorLaws(a, b);
    XorUnit(a);
  }

  /** Exclusive-or with the same string twice changes nothing. */
  lemma XorTwice(a: seq<Byte>, b: seq<Byte>)
    requires |a| == |b|
    ensures Xor(Xor(a, b), b) == a
  {
    hide XorByte;
    forall i | 0 <= i < |a| ensures Xor(Xor(a, b), b)[i] == a[i] { XorByteLaws(a[i], b[i]); }
  }

  lemma XorSwap(a: seq<Byte>, b: seq<Byte>)
    requires |a| == |b|
    ensures Xor(a, b) == Xor(b, a)
  {
    hide XorByte;
    forall i | 0 <= i < |a| ensures Xor(a, b)[i] == Xor(b, a)[i] { XorByteLaws(a[i], b[i]); }
  }

  function Zeros(n: nat): (r: seq<Byte>)
    ensures |r| == n
  {
    seq(n, i requires 0 <= i < n => 0)
  }

  lemma XorZeros(a: seq<Byte>)
    ensures Xor(Zeros(|a|), a) == a
  {
    hide XorByte;
    forall i | 0 <= i < |a| ensures Xor(Zeros(|a|), a)[i] == a[i] { XorByteLaws(a[i], a[i]); }
  }

  /** The string `s` with `b` written at `at`. */
  function Splice(s: seq<Byte>, at: nat, b: seq<Byte>): (r: seq<Byte>)
    requires at + |b| <= |s|
    ensures |r| == |s|
  {
    s[..at] + b + s[at + |b|..]
  }

  /** What exclusive-or at `at` makes of `s`. */
  function XorAt(s: seq<Byte>, at: nat, src: seq<Byte>): (r: seq<Byte>)
    requires at + |src| <= |s|
    ensures |r| == |s|
  {
    Splice(s, at, Xor(s[at..at + |src|], src))
  }

  lemma XorAtIs(s: seq<Byte>, at: nat, src: seq<Byte>, k: nat)
    requires at + |src| <= |s| && k < |s|
    ensures XorAt(s, at, src)[k] == if at <= k < at + |src| then XorByte(s[k], src[k - at]) else s[k]
  {
    hide XorByte;
  }

  /** Two strings one after the other. */
  lemma XorAtCat(s: seq<Byte>, at: nat, a: seq<Byte>, b: seq<Byte>)
    requires at + |a| + |b| <= |s|
    ensures XorAt(XorAt(s, at, a), at + |a|, b) == XorAt(s, at, a + b)
  {
    hide XorAt; hide XorByte;
    var t := XorAt(s, at, a);
    forall k: nat | k < |s| ensures XorAt(t, at + |a|, b)[k] == XorAt(s, at, a + b)[k] {
      XorAtIs(s, at, a, k);
      XorAtIs(t, at + |a|, b, k);
      XorAtIs(s, at, a + b, k);
    }
  }

  /** crypto_xor_byte. */
  method CryptoXorByte(dst: array<Byte>, at: nat, src: seq<Byte>)
    requires at + |src| <= dst.Length
    modifies dst
    ensures dst[..] == XorAt(old(dst[..]), at, src)
  {
    hide XorByte;
    var i := 0;
    while i < |src|
      invariant 0 <= i <= |src|
      invariant forall k :: 0 <= k < dst.Length ==>
        dst[k] == if at <= k < at + i then XorByte(old(dst[k]), src[k - at]) else old(dst[k])
    {
      dst[at + i] := XorByte(dst[at + i], src[i]);
      i := i + 1;
    }
  }

  /** memcpy. */
  method Copy(dst: array<Byte>, at: nat, src: seq<Byte>)
    requires at + |src| <= dst.Length
    modifies dst
    ensures dst[..] == Splice(old(dst[..]), at, src)
  {
    forall k | 0 <= k < |src| { dst[at + k] := src[k]; }
  }

  // Words of memory

  /** The number whose bytes are `s`, least significant first. */
  function Little(s: seq<Byte>): nat { if s == [] then 0 else s[0] + 256 * Little(s[1..]) }

  function Unlittle(n: nat, size: nat): (r: seq<Byte>)
    ensures |r| == size
  {
    if size == 0 then [] else [n % 256] + Unlittle(n / 256, size - 1)
  }

  lemma {:induction false} UnlittleInverts(s: seq<Byte>)
    ensures Unlittle(Little(s), |s|) == s
  {
    if s != [] {
      UnlittleInverts(s[1..]);
      assert Little(s) % 256 == s[0] && Little(s) / 256 == Little(s[1..]);
    }
  }

  /** Exclusive-or of numbers is that of their lower and of their upper bits. */
  lemma {:induction false} XorSplit(x: nat, u: nat, y: nat, v: nat, k: nat)
    requires x < Pow2(k) && y < Pow2(k)
    ensures XorNat(x + Pow2(k) * u, y + Pow2(k) * v) == XorNat(x, y) + Pow2(k) * XorNat(u, v)
    decreases k
  {
    hide XorNat;
    if k == 0 {
      XorUnit(0);
    } else {
      var p := Pow2(k - 1);
      HalfSplit(x, u, p);
      HalfSplit(y, v, p);
      XorSplit(x / 2, u, y / 2, v, k - 1);
      XorParts(x + 2 * p * u, y + 2 * p * v);
      XorParts(x, y);
      assert Pow2(k) * XorNat(u, v) == 2 * (p * XorNat(u, v));
    }
  }

  lemma HalfSplit(x: nat, u: nat, p: nat)
    ensures (x + 2 * p * u) / 2 == x / 2 + p * u && (x + 2 * p * u) % 2 == x % 2
  {
    assert x + 2 * p * u == x + 2 * (p * u);
  }

  lemma {:induction false} XorLittle(a: seq<Byte>, b: seq<Byte>)
    requires |a| == |b|
    ensures Little(Xor(a, b)) == XorNat(Little(a), Little(b))
  {
    hide XorNat;
    if a == [] {
      XorUnit(0);
    } else {
      assert Xor(a, b)[1..] == Xor(a[1..], b[1..]);
      XorLittle(a[1..], b[1..]);
      PowEight();
      XorSplit(a[0], Little(a[1..]), b[0], Little(b[1..]), 8);
    }
  }

  /** The bytes of a word in memory, from the least significant one, and back. */
  function Order(big: bool, s: seq<Byte>): (r: seq<Byte>)
    requires |s| == 4
    ensures |r| == 4
  {
    if big then [s[3], s[2], s[1], s[0]] else s
  }

  /** A 32-bit word in memory. */
  function Word(big: bool, s: seq<Byte>): nat
    requires |s| == 4
  {
    Little(Order(big, s))
  }

  function Unword(big: bool, w: nat): (r: seq<Byte>)
    ensures |r| == 4
  {
    Order(big, Unlittle(w, 4))
  }

  /** In either byte order the exclusive-or of two words is that of their bytes. */
  lemma XorWords(big: bool, a: seq<Byte>, b: seq<Byte>)
    requires |a| == |b| == 4
    ensures Unword(big, XorNat(Word(big, a), Word(big, b))) == Xor(a, b)
  {
    hide XorNat; hide Little; hide Unlittle; hide XorByte;
    XorLittle(Order(big, a), Order(big, b));
    assert Order(big, Xor(a, b)) == Xor(Order(big, a), Order(big, b));
    UnlittleInverts(Order(big, Xor(a, b)));
  }

  /** crypto_xor: words of four bytes as long as there are any, then single bytes. The buffers do not overlap. */
  method CryptoXor(dst: array<Byte>, at: nat, src: seq<Byte>)
    requires at + |src| <= dst.Length
    modifies dst
    ensures dst[..] == XorAt(old(dst[..]), at, src)
  {
    hide XorAt; hide Unword; hide Word; hide XorNat;
    var big: bool := *;
    var i, size := 0, |src|;
    XorAtNothing(dst[..], at);
    while size >= 4
      invariant 0 <= size && i + size == |src|
      invariant dst[..] == XorAt(old(dst[..]), at, src[..i])
    {
      XorAtCat(old(dst[..]), at, src[..i], src[i..i + 4]);
      assert src[..i] + src[i..i + 4] == src[..i + 4];
      XorWordAt(big, dst[..], at + i, src[i..i + 4]);
      var a, b := dst[at + i..at + i + 4], src[i..i + 4];
      Copy(dst, at + i, Unword(big, XorNat(Word(big, a), Word(big, b))));
      i, size := i + 4, size - 4;
    }
    XorAtCat(old(dst[..]), at, src[..i], src[i..]);
    assert src[..i] + src[i..] == src;
    CryptoXorByte(dst, at + i, src[i..]);
  }

  lemma XorWordAt(big: bool, s: seq<Byte>, at: nat, b: seq<Byte>)
    requires at + 4 <= |s| && |b| == 4
    ensures Splice(s, at, Unword(big, XorNat(Word(big, s[at..at + 4]), Word(big, b)))) == XorAt(s, at, b)
  {
    hide Unword; hide Word; hide XorNat; hide Splice; hide XorByte;
    XorWords(big, s[at..at + 4], b);
  }

  lemma XorAtNothing(s: seq<Byte>, at: nat)
    requires at <= |s|
    ensures XorAt(s, at, []) == s
  {}
}
