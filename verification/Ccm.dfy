/** The message authentication of CCM as section 2.2 of RFC 3610 defines it, and its behaviour on streams. */
module Ccm {
  import opened CryptoBytes
  import Cbc

  const BLOCK: nat := 16

  /** The block cipher under one key. */
  ghost predicate GoodCipher(e: seq<Byte> -> seq<Byte>) {
    forall b :: |b| == BLOCK ==> |e(b)| == BLOCK
  }

  /** CBC-MAC from the state `x`; bytes that do not fill a block are left out. */
  ghost function CbcMac(e: seq<Byte> -> seq<Byte>, x: seq<Byte>, s: seq<Byte>): (r: seq<Byte>)
    requires GoodCipher(e) && |x| == BLOCK
    ensures |r| == BLOCK
    decreases |s|
  {
    if |s| < BLOCK then x else CbcMac(e, e(Xor(x, s[..BLOCK])), s[BLOCK..])
  }

  function Odd(n: nat): (r: nat)
    ensures r < BLOCK && r <= n
  {
    Cbc.Rem(n, BLOCK)
  }

  /** The bytes behind the last whole block. */
  function Tail(s: seq<Byte>): (r: seq<Byte>)
    ensures |r| == Odd(|s|)
  {
    s[|s| - Odd(|s|)..]
  }

  /** Zero padding to a whole number of blocks. */
  function Pad(s: seq<Byte>): seq<Byte> {
    s + Zeros(if Odd(|s|) == 0 then 0 else BLOCK - Odd(|s|))
  }

  // Numbers

  function BigEndian(n: nat, k: nat): (r: seq<Byte>)
    ensures |r| == k
  {
    if k == 0 then [] else BigEndian(n / 256, k - 1) + [n % 256]
  }

  function Value(s: seq<Byte>): nat {
    if s == [] then 0 else 256 * Value(s[..|s| - 1]) + s[|s| - 1]
  }

  function Pow256(k: nat): (r: nat)
    ensures r > 0
  {
    if k == 0 then 1 else 256 * Pow256(k - 1)
  }

  lemma {:induction false} ValueBelow(s: seq<Byte>)
    ensures Value(s) < Pow256(|s|)
  {
    if s != [] {
      ValueBelow(s[..|s| - 1]);
    }
  }

  /** A number is what its big-endian digits say exactly if there are enough of them. */
  lemma {:induction false} DigitsExact(n: nat, k: nat)
    ensures Value(BigEndian(n, k)) == n <==> n < Pow256(k)
  {
    ValueBelow(BigEndian(n, k));
    if k > 0 {
      DigitsExact(n / 256, k - 1);
      var s := BigEndian(n, k);
      assert s[..k - 1] == BigEndian(n / 256, k - 1);
    }
  }

  lemma {:induction false} DigitsDrop(n: nat, k: nat, j: nat)
    ensures BigEndian(n, k + j)[k..] == BigEndian(n, j)
    decreases j
  {
    if j > 0 {
      DigitsDrop(n / 256, k, j - 1);
      var s := BigEndian(n / 256, k + j - 1);
      assert BigEndian(n, k + j)[k..] == s[k..] + [n % 256];
    }
  }

  lemma {:induction false} DigitsZero(k: nat)
    ensures BigEndian(0, k) == Zeros(k)
  {
    if k > 0 { DigitsZero(k - 1); }
  }

  lemma {:induction false} DigitsLead(n: nat, k: nat, j: nat)
    requires n < Pow256(j)
    ensures BigEndian(n, k + j) == Zeros(k) + BigEndian(n, j)
    decreases j
  {
    if j == 0 {
      DigitsZero(k);
      assert Zeros(k) + [] == Zeros(k);
    } else {
      DigitsLead(n / 256, k, j - 1);
      assert Zeros(k) + (BigEndian(n / 256, j - 1) + [n % 256]) == Zeros(k) + BigEndian(n / 256, j - 1) + [n % 256];
    }
  }

  // The blocks of RFC 3610

  /** 64 * Adata + 8 * M' + L'. */
  function Flags(adata: bool, m: Byte, l: Byte): Byte
    requires m < 8 && l < 8
  {
    (if adata then 64 else 0) + 8 * m + l
  }

  /** B_0: flags, nonce and the message length in L bytes. The IV starts with L' = L - 1, then the nonce. */
  function FirstBlock(iv: seq<Byte>, l: nat, m: Byte, alen: nat, mlen: nat): (r: seq<Byte>)
    requires |iv| == BLOCK && 2 <= l <= 8 && iv[0] < 8 && m < 8
    ensures |r| == BLOCK
  {
    [Flags(alen > 0, m, iv[0])] + iv[1..BLOCK - l] + BigEndian(mlen, l)
  }

  /** The encoded length of the associated data. */
  function AdataHeader(n: nat): seq<Byte> {
    if n == 0 then [] else if n < 0xff00 then BigEndian(n, 2) else [0xff, 0xfe] + BigEndian(n, 4)
  }

  function Stream(iv: seq<Byte>, l: nat, m: Byte, adata: seq<Byte>, msg: seq<Byte>): seq<Byte>
    requires |iv| == BLOCK && 2 <= l <= 8 && iv[0] < 8 && m < 8
  {
    FirstBlock(iv, l, m, |adata|, |msg|) + (if adata == [] then [] else Pad(AdataHeader(|adata|) + adata)) + Pad(msg)
  }

  /** The authentication value: X_1 is the encryption of B_0, and each block is added to the state and encrypted. */
  ghost function Mac(e: seq<Byte> -> seq<Byte>, iv: seq<Byte>, l: nat, m: Byte, adata: seq<Byte>, msg: seq<Byte>)
    : (r: seq<Byte>)
    requires GoodCipher(e) && |iv| == BLOCK && 2 <= l <= 8 && iv[0] < 8 && m < 8
    ensures |r| == BLOCK
  {
    CbcMac(e, Zeros(BLOCK), Stream(iv, l, m, adata, msg))
  }

  // Streams

  lemma MacStep(e: seq<Byte> -> seq<Byte>, x: seq<Byte>, b: seq<Byte>, s: seq<Byte>)
    requires GoodCipher(e) && |x| == |b| == BLOCK
    ensures |e(Xor(x, b))| == BLOCK && CbcMac(e, x, b + s) == CbcMac(e, e(Xor(x, b)), s)
    ensures Tail(b + s) == Tail(s)
  {
    assert (b + s)[..BLOCK] == b && (b + s)[BLOCK..] == s;
  }

  lemma MacEnd(e: seq<Byte> -> seq<Byte>, x: seq<Byte>, s: seq<Byte>)
    requires GoodCipher(e) && |x| == BLOCK && |s| < BLOCK
    ensures CbcMac(e, x, s) == x && Tail(s) == s
  {}

  lemma {:induction false} MacCat(e: seq<Byte> -> seq<Byte>, x: seq<Byte>, a: seq<Byte>, s: seq<Byte>)
    requires GoodCipher(e) && |x| == BLOCK && Odd(|a|) == 0
    ensures CbcMac(e, x, a + s) == CbcMac(e, CbcMac(e, x, a), s) && Tail(a + s) == Tail(s)
    decreases |a|
  {
    if a == [] {
      assert a + s == s;
    } else {
      var b, r := a[..BLOCK], a[BLOCK..];
      assert a == b + r && a + s == b + (r + s);
      MacStep(e, x, b, r);
      MacStep(e, x, b, r + s);
      MacCat(e, e(Xor(x, b)), r, s);
    }
  }

  /** What was absorbed, and the tail that waits, make up the whole string, however it was cut. */
  lemma Absorb(e: seq<Byte> -> seq<Byte>, x: seq<Byte>, a: seq<Byte>, d: seq<Byte>)
    requires GoodCipher(e) && |x| == BLOCK
    ensures CbcMac(e, CbcMac(e, x, a), Tail(a) + d) == CbcMac(e, x, a + d) && Tail(Tail(a) + d) == Tail(a + d)
  {
    var w, t := a[..|a| - Odd(|a|)], Tail(a);
    Cbc.RemWhole(|a|, BLOCK);
    assert a == w + t && a + d == w + (t + d);
    MacCat(e, x, w, t);
    MacCat(e, x, w, t + d);
    MacEnd(e, CbcMac(e, x, w), t);
  }
}
