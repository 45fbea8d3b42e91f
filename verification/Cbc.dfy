/** The CBC mode of section 6.2 of NIST SP 800-38A, and what follows from it. */
module Cbc {
  import opened CryptoBytes

  datatype Cipher = Cipher(bsize: nat, enc: seq<Byte> -> seq<Byte>, dec: seq<Byte> -> seq<Byte>)

  /** A block cipher: it keeps the length of a block, and decryption inverts encryption. */
  ghost predicate GoodCipher(c: Cipher) {
    && c.bsize > 0
    && (forall b :: |b| == c.bsize ==> |c.enc(b)| == c.bsize && c.dec(c.enc(b)) == b)
    && (forall b :: |b| == c.bsize ==> |c.dec(b)| == c.bsize)
  }

  /** Bytes that do not fill a block are left out. */
  ghost function Encrypt(c: Cipher, iv: seq<Byte>, p: seq<Byte>): seq<Byte>
    requires GoodCipher(c) && |iv| == c.bsize
    decreases |p|
  {
    if |p| < c.bsize then []
    else
      var b := c.enc(Xor(p[..c.bsize], iv));
      b + Encrypt(c, b, p[c.bsize..])
  }

  ghost function Decrypt(c: Cipher, iv: seq<Byte>, s: seq<Byte>): seq<Byte>
    requires GoodCipher(c) && |iv| == c.bsize
    decreases |s|
  {
    if |s| < c.bsize then [] else Xor(c.dec(s[..c.bsize]), iv) + Decrypt(c, s[..c.bsize], s[c.bsize..])
  }

  /** The IV for what follows: the last whole block of the ciphertext. */
  ghost function Carry(c: Cipher, iv: seq<Byte>, s: seq<Byte>): (r: seq<Byte>)
    requires c.bsize > 0 && |iv| == c.bsize
    ensures |r| == c.bsize
    decreases |s|
  {
    if |s| < c.bsize then iv else Carry(c, s[..c.bsize], s[c.bsize..])
  }

  /** What is left of `n` bytes after the whole blocks. */
  function Rem(n: nat, b: nat): (r: nat)
    requires b > 0
    ensures r < b && r <= n
  {
    if n < b then n else Rem(n - b, b)
  }

  lemma {:induction false} RemWhole(n: nat, b: nat)
    requires b > 0
    ensures Rem(n - Rem(n, b), b) == 0 && (n >= b ==> n - Rem(n, b) >= b)
    decreases n
  {
    if n >= b { RemWhole(n - b, b); }
  }

  lemma {:induction false} RemAdd(a: nat, n: nat, b: nat)
    requires b > 0 && Rem(a, b) == 0 && Rem(n, b) == 0
    ensures Rem(a + n, b) == 0
    decreases a
  {
    if a > 0 { RemAdd(a - b, n, b); }
  }

  // One block at a time

  lemma EncryptStep(c: Cipher, iv: seq<Byte>, b: seq<Byte>, p: seq<Byte>)
    requires GoodCipher(c) && |iv| == |b| == c.bsize
    ensures var e := c.enc(Xor(b, iv)); |e| == c.bsize && Encrypt(c, iv, b + p) == e + Encrypt(c, e, p)
  {
    hide Xor;
    assert (b + p)[..c.bsize] == b && (b + p)[c.bsize..] == p;
  }

  lemma DecryptStep(c: Cipher, iv: seq<Byte>, b: seq<Byte>, s: seq<Byte>)
    requires GoodCipher(c) && |iv| == |b| == c.bsize
    ensures |c.dec(b)| == c.bsize && Decrypt(c, iv, b + s) == Xor(c.dec(b), iv) + Decrypt(c, b, s)
  {
    hide Xor;
    assert (b + s)[..c.bsize] == b && (b + s)[c.bsize..] == s;
  }

  lemma CarryStep(c: Cipher, iv: seq<Byte>, b: seq<Byte>, s: seq<Byte>)
    requires c.bsize > 0 && |iv| == |b| == c.bsize
    ensures Carry(c, iv, b + s) == Carry(c, b, s)
  {
    assert (b + s)[..c.bsize] == b && (b + s)[c.bsize..] == s;
  }

  lemma Associate(a: seq<Byte>, b: seq<Byte>, d: seq<Byte>)
    ensures a + (b + d) == a + b + d
  {}

  lemma PositiveSize(c: Cipher)
    requires GoodCipher(c)
    ensures c.bsize > 0
  {}

  lemma Ends(c: Cipher, iv: seq<Byte>, p: seq<Byte>)
    requires GoodCipher(c) && |iv| == c.bsize && |p| < c.bsize
    ensures Encrypt(c, iv, p) == [] && Decrypt(c, iv, p) == [] && Carry(c, iv, p) == iv
  {}

  /** Encryption keeps the length of whole blocks. */
  lemma {:induction false} EncryptLength(c: Cipher, iv: seq<Byte>, p: seq<Byte>)
    requires GoodCipher(c) && |iv| == c.bsize
    ensures |Encrypt(c, iv, p)| == |p| - Rem(|p|, c.bsize)
    decreases |p|
  {
    if |p| >= c.bsize {
      EncryptLength(c, c.enc(Xor(p[..c.bsize], iv)), p[c.bsize..]);
    }
  }

  /** Decryption inverts encryption. */
  lemma {:induction false} DecryptInverts(c: Cipher, iv: seq<Byte>, p: seq<Byte>)
    requires GoodCipher(c) && |iv| == c.bsize && Rem(|p|, c.bsize) == 0
    ensures Decrypt(c, iv, Encrypt(c, iv, p)) == p
    decreases |p|
  {
    hide Xor; hide Encrypt; hide Decrypt;
    Ends(c, iv, []);
    if p != [] {
      var first, rest := p[..c.bsize], p[c.bsize..];
      assert p == first + rest;
      var b := c.enc(Xor(first, iv));
      EncryptStep(c, iv, first, rest);
      DecryptStep(c, iv, b, Encrypt(c, b, rest));
      DecryptInverts(c, b, rest);
      XorTwice(first, iv);
    }
  }

  /** A message may be cut at any block: the second part goes on with the carried IV. */
  lemma {:induction false} EncryptCut(c: Cipher, iv: seq<Byte>, a: seq<Byte>, p: seq<Byte>)
    requires GoodCipher(c) && |iv| == c.bsize && Rem(|a|, c.bsize) == 0
    ensures var s := Encrypt(c, iv, a); Encrypt(c, iv, a + p) == s + Encrypt(c, Carry(c, iv, s), p)
    decreases |a|
  {
    hide Xor; hide Encrypt; hide Carry; hide GoodCipher;
    PositiveSize(c);
    Ends(c, iv, []);
    if a == [] {
      assert a + p == p;
    } else {
      var first, rest := a[..c.bsize], a[c.bsize..];
      Associate(first, rest, p);
      assert a == first + rest;
      var b := c.enc(Xor(first, iv));
      EncryptStep(c, iv, first, rest);
      EncryptStep(c, iv, first, rest + p);
      EncryptCut(c, b, rest, p);
      var t := Encrypt(c, b, rest);
      CarryStep(c, iv, b, t);
      Associate(b, t, Encrypt(c, Carry(c, b, t), p));
    }
  }

  lemma {:induction false} DecryptCut(c: Cipher, iv: seq<Byte>, a: seq<Byte>, s: seq<Byte>)
    requires GoodCipher(c) && |iv| == c.bsize && Rem(|a|, c.bsize) == 0
    ensures Decrypt(c, iv, a + s) == Decrypt(c, iv, a) + Decrypt(c, Carry(c, iv, a), s)
    ensures Carry(c, iv, a + s) == Carry(c, Carry(c, iv, a), s)
    decreases |a|
  {
    hide Xor; hide Decrypt; hide Carry; hide GoodCipher;
    PositiveSize(c);
    Ends(c, iv, []);
    if a == [] {
      assert a + s == s;
    } else {
      var first, rest := a[..c.bsize], a[c.bsize..];
      Associate(first, rest, s);
      assert a == first + rest;
      DecryptStep(c, iv, first, rest);
      DecryptStep(c, iv, first, rest + s);
      CarryStep(c, iv, first, rest);
      CarryStep(c, iv, first, rest + s);
      DecryptCut(c, first, rest, s);
      Associate(Xor(c.dec(first), iv), Decrypt(c, first, rest), Decrypt(c, Carry(c, first, rest), s));
    }
  }

  // The standard's equations, block by block

  function Offset(c: Cipher, j: nat): nat { if j == 0 then 0 else Offset(c, j - 1) + c.bsize }

  ghost function Block(c: Cipher, s: seq<Byte>, j: nat): (r: seq<Byte>)
    requires Offset(c, j + 1) <= |s|
    ensures |r| == c.bsize
  {
    s[Offset(c, j)..Offset(c, j) + c.bsize]
  }

  /** The block before the j-th; the IV comes before the first. */
  ghost function Before(c: Cipher, iv: seq<Byte>, s: seq<Byte>, j: nat): (r: seq<Byte>)
    requires |iv| == c.bsize && Offset(c, j) <= |s|
    ensures |r| == c.bsize
  {
    if j == 0 then iv else Block(c, s, j - 1)
  }

  lemma BeforeOfRest(c: Cipher, iv: seq<Byte>, b: seq<Byte>, s: seq<Byte>, j: nat)
    requires |iv| == |b| == c.bsize && Offset(c, j) <= |s|
    ensures Offset(c, j + 1) <= |b + s| && Before(c, iv, b + s, j + 1) == Before(c, b, s, j)
  {
    if j > 0 { BlockOfRest(c, b, s, j - 1); }
  }

  lemma BlockOfRest(c: Cipher, b: seq<Byte>, s: seq<Byte>, j: nat)
    requires |b| == c.bsize && Offset(c, j + 1) <= |s|
    ensures Offset(c, j + 2) <= |b + s| && Block(c, b + s, j + 1) == Block(c, s, j)
  {}

  lemma BlockFirst(c: Cipher, b: seq<Byte>, s: seq<Byte>)
    requires |b| == c.bsize
    ensures Offset(c, 1) == c.bsize && Block(c, b + s, 0) == b
  {}

  /** C_j is the encryption of P_j exclusive-or C_(j-1). */
  lemma {:induction false} EncryptBlock(c: Cipher, iv: seq<Byte>, p: seq<Byte>, j: nat)
    requires GoodCipher(c) && |iv| == c.bsize && Offset(c, j + 1) <= |p|
    ensures Offset(c, j + 1) <= |Encrypt(c, iv, p)|
    ensures var s := Encrypt(c, iv, p); Block(c, s, j) == c.enc(Xor(Block(c, p, j), Before(c, iv, s, j)))
    decreases j
  {
    hide Xor; hide Encrypt; hide Block; hide Before; hide GoodCipher;
    var first, rest := p[..c.bsize], p[c.bsize..];
    assert p == first + rest;
    EncryptStep(c, iv, first, rest);
    var b := c.enc(Xor(first, iv));
    var t := Encrypt(c, b, rest);
    if j == 0 {
      BlockFirst(c, first, rest);
      BlockFirst(c, b, t);
      BeforeFirst(c, iv, b + t);
    } else {
      EncryptBlock(c, b, rest, j - 1);
      BlockOfRest(c, first, rest, j - 1);
      BlockOfRest(c, b, t, j - 1);
      BeforeOfRest(c, iv, b, t, j - 1);
    }
  }

  lemma BeforeFirst(c: Cipher, iv: seq<Byte>, s: seq<Byte>)
    requires |iv| == c.bsize
    ensures Before(c, iv, s, 0) == iv
  {}

  /** P_j, exclusive-or C_(j-1), is the decryption of C_j. */
  lemma {:induction false} DecryptBlock(c: Cipher, iv: seq<Byte>, s: seq<Byte>, j: nat)
    requires GoodCipher(c) && |iv| == c.bsize && Offset(c, j + 1) <= |s|
    ensures Offset(c, j + 1) <= |Decrypt(c, iv, s)|
    ensures Xor(Block(c, Decrypt(c, iv, s), j), Before(c, iv, s, j)) == c.dec(Block(c, s, j))
    decreases j
  {
    hide Xor; hide Decrypt; hide Block; hide Before; hide GoodCipher;
    var first, rest := s[..c.bsize], s[c.bsize..];
    assert s == first + rest;
    DecryptStep(c, iv, first, rest);
    var b, t := Xor(c.dec(first), iv), Decrypt(c, first, rest);
    if j == 0 {
      BlockFirst(c, first, rest);
      BlockFirst(c, b, t);
      BeforeFirst(c, iv, s);
      XorTwice(c.dec(first), iv);
    } else {
      DecryptBlock(c, first, rest, j - 1);
      BlockOfRest(c, first, rest, j - 1);
      BlockOfRest(c, b, t, j - 1);
      BeforeOfRest(c, iv, first, rest, j - 1);
    }
  }
}
