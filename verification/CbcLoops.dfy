/** The four loops of the CBC template over buffers, and the walk that calls them. */
module CbcLoops {
  import opened CryptoBytes
  import opened Cbc

  // Buffers

  lemma SpliceCat(s: seq<Byte>, at: nat, a: seq<Byte>, b: seq<Byte>)
    requires at + |a| + |b| <= |s|
    ensures Splice(Splice(s, at, a), at + |a|, b) == Splice(s, at, a + b)
  {}

  lemma SpliceOver(s: seq<Byte>, at: nat, a: seq<Byte>, b: seq<Byte>)
    requires at + |a| <= |s| && |a| == |b|
    ensures Splice(Splice(s, at, a), at, b) == Splice(s, at, b)
  {}

  lemma SpliceRead(s: seq<Byte>, at: nat, a: seq<Byte>)
    requires at + |a| <= |s|
    ensures Splice(s, at, a)[at..at + |a|] == a
    ensures forall j, k :: at + |a| <= j <= k <= |s| ==> Splice(s, at, a)[j..k] == s[j..k]
  {}

  lemma SpliceWhole(s: seq<Byte>, a: seq<Byte>)
    requires |s| == |a|
    ensures Splice(s, 0, a) == a && XorAt(s, 0, a) == Xor(s, a)
  {
    assert s[0..|a|] == s;
  }

  lemma SpliceNothing(s: seq<Byte>, at: nat)
    requires at <= |s|
    ensures Splice(s, at, []) == s
  {}

  // Progress of a forward loop

  ghost predicate Encrypted(c: Cipher, iv0: seq<Byte>, s: seq<Byte>, done: seq<Byte>, iv: seq<Byte>) {
    && GoodCipher(c) && |iv0| == |iv| == c.bsize && |done| <= |s|
    && Encrypt(c, iv0, s) == done + Encrypt(c, iv, s[|done|..])
    && Carry(c, iv0, Encrypt(c, iv0, s)) == Carry(c, iv, Encrypt(c, iv, s[|done|..]))
  }

  lemma EncryptedStart(c: Cipher, iv: seq<Byte>, s: seq<Byte>)
    requires GoodCipher(c) && |iv| == c.bsize
    ensures Encrypted(c, iv, s, [], iv)
  {
    assert s[0..] == s && [] + Encrypt(c, iv, s) == Encrypt(c, iv, s);
  }

  lemma EncryptedNext(c: Cipher, iv0: seq<Byte>, s: seq<Byte>, done: seq<Byte>, iv: seq<Byte>)
    requires Encrypted(c, iv0, s, done, iv) && |s| - |done| >= c.bsize
    ensures var e := c.enc(Xor(s[|done|..|done| + c.bsize], iv)); |e| == c.bsize && Encrypted(c, iv0, s, done + e, e)
  {
    hide Xor; hide Encrypt; hide Carry; hide GoodCipher;
    var b, rest := s[|done|..|done| + c.bsize], s[|done| + c.bsize..];
    assert s[|done|..] == b + rest;
    EncryptStep(c, iv, b, rest);
    var e := c.enc(Xor(b, iv));
    PositiveSize(c);
    CarryStep(c, iv, e, Encrypt(c, e, rest));
    Associate(done, e, Encrypt(c, e, rest));
    assert s[|done + e|..] == rest;
  }

  ghost predicate Decrypted(c: Cipher, iv0: seq<Byte>, s: seq<Byte>, done: seq<Byte>, iv: seq<Byte>) {
    && GoodCipher(c) && |iv0| == |iv| == c.bsize && |done| <= |s|
    && Decrypt(c, iv0, s) == done + Decrypt(c, iv, s[|done|..])
    && Carry(c, iv0, s) == Carry(c, iv, s[|done|..])
  }

  lemma DecryptedStart(c: Cipher, iv: seq<Byte>, s: seq<Byte>)
    requires GoodCipher(c) && |iv| == c.bsize
    ensures Decrypted(c, iv, s, [], iv)
  {
    assert s[0..] == s && [] + Decrypt(c, iv, s) == Decrypt(c, iv, s);
  }

  lemma DecryptedNext(c: Cipher, iv0: seq<Byte>, s: seq<Byte>, done: seq<Byte>, iv: seq<Byte>)
    requires Decrypted(c, iv0, s, done, iv) && |s| - |done| >= c.bsize
    ensures var b := s[|done|..|done| + c.bsize];
      |c.dec(b)| == c.bsize && Decrypted(c, iv0, s, done + Xor(c.dec(b), iv), b)
  {
    hide Xor; hide Decrypt; hide Carry; hide GoodCipher;
    var b, rest := s[|done|..|done| + c.bsize], s[|done| + c.bsize..];
    assert s[|done|..] == b + rest;
    DecryptStep(c, iv, b, rest);
    PositiveSize(c);
    CarryStep(c, iv, b, rest);
    var d := Xor(c.dec(b), iv);
    Associate(done, d, Decrypt(c, b, rest));
    assert s[|done + d|..] == rest;
  }

  lemma Finished(c: Cipher, iv0: seq<Byte>, s: seq<Byte>, done: seq<Byte>, iv: seq<Byte>)
    requires |s| - |done| < c.bsize
    ensures Encrypted(c, iv0, s, done, iv) ==> Encrypt(c, iv0, s) == done && Carry(c, iv0, done) == iv
    ensures Decrypted(c, iv0, s, done, iv) ==> Decrypt(c, iv0, s) == done && Carry(c, iv0, s) == iv
  {}

  lemma Sizes(c: Cipher, iv0: seq<Byte>, s: seq<Byte>, done: seq<Byte>, iv: seq<Byte>)
    requires Encrypted(c, iv0, s, done, iv) || Decrypted(c, iv0, s, done, iv)
    ensures |iv| == c.bsize > 0 && |done| <= |s|
  {}

  lemma SliceIn(a: seq<Byte>, at: nat, n: nat, k: nat, m: nat)
    requires at + n <= |a| && k + m <= n
    ensures a[at..at + n][k..k + m] == a[at + k..at + k + m]
  {
    var s, u := a[at..at + n][k..k + m], a[at + k..at + k + m];
    assert |s| == |u| && forall i :: 0 <= i < m ==> s[i] == u[i];
  }

  lemma LastIn(a: seq<Byte>, at: nat, n: nat, k: nat, m: nat)
    requires at + n <= |a| && k + m <= n
    ensures a[at..at + n][..k + m][k..] == a[at + k..at + k + m]
  {
    var s, u := a[at..at + n][..k + m][k..], a[at + k..at + k + m];
    assert |s| == |u| && forall i :: 0 <= i < m ==> s[i] == u[i];
  }

  // The loops

  /** crypto_cbc_encrypt_segment. */
  method EncryptSegment(c: Cipher, iv: array<Byte>, src: array<Byte>, from: nat, dst: array<Byte>, to: nat, nbytes: nat)
    returns (left: nat)
    requires GoodCipher(c) && iv.Length == c.bsize <= nbytes && from + nbytes <= src.Length && to + nbytes <= dst.Length
    requires iv != src && iv != dst && src != dst
    modifies iv, dst
    ensures left == Rem(nbytes, c.bsize)
    ensures var e := Encrypt(c, old(iv[..]), src[from..from + nbytes]);
      to + |e| <= dst.Length && dst[..] == Splice(old(dst[..]), to, e) && iv[..] == Carry(c, old(iv[..]), e)
  {
    hide Xor; hide XorAt; hide Splice; hide Encrypted; hide GoodCipher; hide Encrypt; hide Carry;
    ghost var s, iv0, done := src[from..from + nbytes], iv[..], [];
    left := nbytes;
    var k := 0;
    EncryptedStart(c, iv0, s);
    SpliceNothing(dst[..], to);
    Sizes(c, iv0, s, done, iv0);
    while left >= c.bsize
      invariant k + left == nbytes && |done| == k && Rem(left, c.bsize) == Rem(nbytes, c.bsize)
      invariant Encrypted(c, iv0, s, done, iv[..])
      invariant dst[..] == Splice(old(dst[..]), to, done) && src[..] == old(src[..])
    {
      EncryptedNext(c, iv0, s, done, iv[..]);
      SliceIn(src[..], from, nbytes, k, c.bsize);
      SpliceWhole(iv[..], s[k..k + c.bsize]);
      XorSwap(iv[..], s[k..k + c.bsize]);
      CryptoXor(iv, 0, src[from + k..from + k + c.bsize]);
      ghost var e := c.enc(iv[..]);
      SpliceCat(old(dst[..]), to, done, e);
      SpliceRead(dst[..], to + k, e);
      Copy(dst, to + k, c.enc(iv[..]));
      SpliceWhole(iv[..], e);
      Copy(iv, 0, dst[to + k..to + k + c.bsize]);
      done := done + e;
      left, k := left - c.bsize, k + c.bsize;
    }
    Finished(c, iv0, s, done, iv[..]);
  }

  /** One block in place: the block before is added, and the sum encrypted. */
  method EncryptOne(c: Cipher, src: array<Byte>, at: nat, prev: seq<Byte>)
    requires GoodCipher(c) && |prev| == c.bsize && at + c.bsize <= src.Length
    modifies src
    ensures var e := c.enc(Xor(old(src[at..at + c.bsize]), prev));
      |e| == c.bsize && src[..] == Splice(old(src[..]), at, e)
  {
    hide Xor; hide XorAt; hide Splice; hide GoodCipher;
    ghost var x := Xor(src[at..at + c.bsize], prev);
    EncLength(c, x);
    InplaceStep(src[..], at, prev);
    SpliceOver(src[..], at, x, c.enc(x));
    CryptoXor(src, at, prev);
    var y := src[at..at + c.bsize];
    assert y == x;
    Copy(src, at, c.enc(y));
  }

  lemma EncLength(c: Cipher, x: seq<Byte>)
    requires GoodCipher(c) && |x| == c.bsize
    ensures |c.enc(x)| == c.bsize
  {}

  /** crypto_cbc_encrypt_inplace: the block just written is the next IV. */
  method EncryptInplace(c: Cipher, iv: array<Byte>, src: array<Byte>, at: nat, nbytes: nat) returns (left: nat)
    requires GoodCipher(c) && iv.Length == c.bsize <= nbytes && at + nbytes <= src.Length && iv != src
    modifies iv, src
    ensures left == Rem(nbytes, c.bsize)
    ensures var e := Encrypt(c, old(iv[..]), old(src[at..at + nbytes]));
      at + |e| <= src.Length && src[..] == Splice(old(src[..]), at, e) && iv[..] == Carry(c, old(iv[..]), e)
  {
    hide Xor; hide XorAt; hide Splice; hide Encrypted; hide GoodCipher; hide Encrypt; hide Carry;
    ghost var s, iv0, done := src[at..at + nbytes], iv[..], [];
    left := nbytes;
    var k, prev := 0, iv[..];
    EncryptedStart(c, iv0, s);
    SpliceNothing(src[..], at);
    Sizes(c, iv0, s, done, iv0);
    while left >= c.bsize
      invariant k + left == nbytes && |done| == k && Rem(left, c.bsize) == Rem(nbytes, c.bsize) && |prev| == c.bsize
      invariant Encrypted(c, iv0, s, done, prev)
      invariant src[..] == Splice(old(src[..]), at, done)
      invariant iv[..] == iv0
    {
      EncryptedNext(c, iv0, s, done, prev);
      SpliceRead(old(src[..]), at, done);
      ghost var e := c.enc(Xor(s[k..k + c.bsize], prev));
      assert src[at + k..at + k + c.bsize] == s[k..k + c.bsize];
      EncryptOne(c, src, at + k, prev);
      SpliceCat(old(src[..]), at, done, e);
      done := done + e;
      SpliceEnd(old(src[..]), at, done, k);
      prev := src[at + k..at + k + c.bsize];
      left, k := left - c.bsize, k + c.bsize;
    }
    Finished(c, iv0, s, done, prev);
    SpliceWhole(iv[..], prev);
    Copy(iv, 0, prev);
  }

  lemma InplaceStep(s: seq<Byte>, at: nat, x: seq<Byte>)
    requires at + |x| <= |s|
    ensures XorAt(s, at, x)[at..at + |x|] == Xor(s[at..at + |x|], x)
    ensures XorAt(s, at, x) == Splice(s, at, Xor(s[at..at + |x|], x))
  {
    hide Xor;
  }

  lemma SpliceEnd(s: seq<Byte>, at: nat, done: seq<Byte>, k: nat)
    requires k <= |done| && at + |done| <= |s|
    ensures Splice(s, at, done)[at + k..at + |done|] == done[k..]
  {}

  /** crypto_cbc_decrypt_segment. */
  method DecryptSegment(c: Cipher, iv: array<Byte>, src: array<Byte>, from: nat, dst: array<Byte>, to: nat, nbytes: nat)
    returns (left: nat)
    requires GoodCipher(c) && iv.Length == c.bsize <= nbytes && from + nbytes <= src.Length && to + nbytes <= dst.Length
    requires iv != src && iv != dst && src != dst
    modifies iv, dst
    ensures left == Rem(nbytes, c.bsize)
    ensures var s := src[from..from + nbytes]; var d := Decrypt(c, old(iv[..]), s);
      to + |d| <= dst.Length && dst[..] == Splice(old(dst[..]), to, d) && iv[..] == Carry(c, old(iv[..]), s)
  {
    hide Xor; hide XorAt; hide Splice; hide Decrypted; hide GoodCipher; hide Decrypt; hide Carry;
    ghost var s, iv0, done := src[from..from + nbytes], iv[..], [];
    left := nbytes;
    var k, prev := 0, iv[..];
    DecryptedStart(c, iv0, s);
    SpliceNothing(dst[..], to);
    Sizes(c, iv0, s, done, iv0);
    while left >= c.bsize
      invariant k + left == nbytes && |done| == k && Rem(left, c.bsize) == Rem(nbytes, c.bsize) && |prev| == c.bsize
      invariant Decrypted(c, iv0, s, done, prev)
      invariant dst[..] == Splice(old(dst[..]), to, done)
      invariant iv[..] == iv0
    {
      DecryptedNext(c, iv0, s, done, prev);
      var b := src[from + k..from + k + c.bsize];
      assert b == s[k..k + c.bsize];
      ghost var d := Xor(c.dec(b), prev);
      SpliceRead(dst[..], to + k, c.dec(b));
      Copy(dst, to + k, c.dec(b));
      InplaceStep(dst[..], to + k, prev);
      CryptoXor(dst, to + k, prev);
      SpliceOver(Splice(old(dst[..]), to, done), to + k, c.dec(b), d);
      SpliceCat(old(dst[..]), to, done, d);
      done := done + d;
      prev := b;
      left, k := left - c.bsize, k + c.bsize;
    }
    Finished(c, iv0, s, done, prev);
    SpliceWhole(iv[..], prev);
    Copy(iv, 0, prev);
  }

  // Whole blocks

  /** The bits that two numbers share. */
  function BitAnd(a: nat, b: nat): nat {
    if a == 0 || b == 0 then 0 else 2 * BitAnd(a / 2, b / 2) + if a % 2 == 1 && b % 2 == 1 then 1 else 0
  }

  predicate PowerOfTwo(b: nat) { b == 1 || (b > 1 && b % 2 == 0 && PowerOfTwo(b / 2)) }

  lemma {:induction false} RemDouble(n: nat, b: nat)
    requires b > 0
    ensures Rem(n, 2 * b) == 2 * Rem(n / 2, b) + n % 2
    decreases n
  {
    if n >= 2 * b {
      RemDouble(n - 2 * b, b);
      assert (n - 2 * b) / 2 == n / 2 - b;
    }
  }

  /** For a power of two the mask gives the remainder. */
  lemma {:induction false} MaskIsRem(n: nat, b: nat)
    requires PowerOfTwo(b)
    ensures BitAnd(n, b - 1) == Rem(n, b)
    decreases b
  {
    if b == 1 {
      RemOne(n);
    } else {
      MaskIsRem(n / 2, b / 2);
      RemDouble(n, b / 2);
      assert (b - 1) / 2 == b / 2 - 1;
    }
  }

  lemma {:induction false} RemOne(n: nat)
    ensures Rem(n, 1) == 0
  {}

  lemma {:induction false} CarryLast(c: Cipher, iv: seq<Byte>, s: seq<Byte>)
    requires c.bsize > 0 && |iv| == c.bsize && Rem(|s|, c.bsize) == 0 && |s| >= c.bsize
    ensures Carry(c, iv, s) == s[|s| - c.bsize..]
    decreases |s|
  {
    if |s| > c.bsize {
      CarryLast(c, s[..c.bsize], s[c.bsize..]);
    } else {
      assert s[..c.bsize] == s && s[c.bsize..] == [];
    }
  }

  /** Bytes behind the last whole block do not matter. */
  lemma WholeBlocks(c: Cipher, iv: seq<Byte>, s: seq<Byte>)
    requires GoodCipher(c) && |iv| == c.bsize <= |s|
    ensures var w := s[..|s| - Rem(|s|, c.bsize)];
      && |w| >= c.bsize && Rem(|w|, c.bsize) == 0
      && Decrypt(c, iv, s) == Decrypt(c, iv, w) && Carry(c, iv, s) == Carry(c, iv, w) == w[|w| - c.bsize..]
  {
    hide Decrypt; hide Carry; hide GoodCipher;
    PositiveSize(c);
    var w, r := s[..|s| - Rem(|s|, c.bsize)], s[|s| - Rem(|s|, c.bsize)..];
    RemWhole(|s|, c.bsize);
    assert s == w + r;
    DecryptCut(c, iv, w, r);
    Ends(c, Carry(c, iv, w), r);
    CarryLast(c, iv, w);
  }

  lemma SpliceBefore(s: seq<Byte>, at: nat, a: seq<Byte>, j: nat, k: nat)
    requires at + |a| <= |s| && j <= k <= at
    ensures Splice(s, at, a)[j..k] == s[j..k]
  {}

  /** Writing in front of what was written. */
  lemma SplicePre(s: seq<Byte>, at: nat, a: seq<Byte>, b: seq<Byte>)
    requires at + |a| + |b| <= |s|
    ensures Splice(Splice(s, at + |a|, b), at, a) == Splice(s, at, a + b)
  {}

  /** One step of the backward loop: the block at `at` was decrypted, now comes the exclusive-or. */
  lemma BackStep(s: seq<Byte>, at: nat, d: seq<Byte>, t: seq<Byte>, x: seq<Byte>)
    requires at + |d| + |t| <= |s| && |x| == |d|
    ensures XorAt(Splice(s, at, d + t), at, x) == Splice(s, at, Xor(d, x) + t)
  {
    hide Xor;
    assert Splice(s, at, d + t)[at..at + |d|] == d;
  }

  /** What the backward loop has produced behind the block at `pos`. */
  ghost predicate Behind(c: Cipher, s: seq<Byte>, pos: nat, t: seq<Byte>) {
    && GoodCipher(c) && pos + c.bsize <= |s| && |t| == |s| - pos - c.bsize && Rem(pos + c.bsize, c.bsize) == 0
    && t == Decrypt(c, s[pos..pos + c.bsize], s[pos + c.bsize..])
  }

  lemma BehindStart(c: Cipher, s: seq<Byte>, pos: nat)
    requires GoodCipher(c) && pos + c.bsize == |s| && Rem(|s|, c.bsize) == 0
    ensures Behind(c, s, pos, [])
  {}

  lemma BehindNext(c: Cipher, s: seq<Byte>, pos: nat, t: seq<Byte>, iv: seq<Byte>)
    requires Behind(c, s, pos, t) && |iv| == c.bsize
    ensures pos > 0 ==> pos >= c.bsize
    ensures |c.dec(s[pos..pos + c.bsize])| == c.bsize > 0
    ensures pos == 0 ==> Decrypt(c, iv, s) == Xor(c.dec(s[pos..pos + c.bsize]), iv) + t
    ensures pos > 0 ==> Behind(c, s, pos - c.bsize, Xor(c.dec(s[pos..pos + c.bsize]), s[pos - c.bsize..pos]) + t)
  {
    hide Xor; hide Decrypt; hide GoodCipher;
    PositiveSize(c);
    assert Rem(pos, c.bsize) == 0;
    var b, rest := s[pos..pos + c.bsize], s[pos + c.bsize..];
    assert s[pos..] == b + rest;
    if pos == 0 {
      assert s == s[pos..];
      DecryptStep(c, iv, b, rest);
    } else {
      DecryptStep(c, s[pos - c.bsize..pos], b, rest);
    }
  }

  /** `s` is what the buffer `a` holds at `at`. */
  ghost predicate Holds(a: seq<Byte>, at: nat, s: seq<Byte>) { at + |s| <= |a| && s == a[at..at + |s|] }

  lemma HoldsBlock(a: seq<Byte>, at: nat, s: seq<Byte>, pos: nat, n: nat)
    requires Holds(a, at, s) && pos + n <= |s|
    ensures a[at + pos..at + pos + n] == s[pos..pos + n]
  {
    assert forall i :: pos <= i < pos + n ==> s[i] == a[at + i];
  }

  /** The loop of crypto_cbc_decrypt_inplace, from the block at `last` down to the first, which still lacks its IV. */
  method Backward(c: Cipher, src: array<Byte>, at: nat, last: nat, nbytes: nat, ghost s: seq<Byte>)
    returns (left: nat, ghost t: seq<Byte>)
    requires GoodCipher(c) && Holds(src[..], at, s) && |s| == last + c.bsize && Rem(|s|, c.bsize) == 0
    requires |s| <= nbytes < |s| + c.bsize
    modifies src
    ensures left == nbytes - |s| && Behind(c, s, 0, t)
    ensures at + c.bsize + |t| <= src.Length && |c.dec(s[0..c.bsize])| == c.bsize
    ensures src[..] == Splice(old(src[..]), at, c.dec(s[0..c.bsize]) + t)
  {
    hide Xor; hide XorAt; hide Splice; hide GoodCipher; hide Behind; hide Rem; hide Decrypt;
    ghost var orig := src[..];
    var pos: nat := last;
    left, t := nbytes, [];
    BehindStart(c, s, pos);
    SpliceNothing(orig, at + pos + c.bsize);
    while true
      invariant pos + c.bsize <= |s| && |t| == |s| - pos - c.bsize && left == nbytes - |t|
      invariant Behind(c, s, pos, t)
      invariant src[..] == Splice(orig, at + pos + c.bsize, t)
      decreases pos
    {
      BehindNext(c, s, pos, t, s[pos..pos + c.bsize]);
      ghost var d := c.dec(s[pos..pos + c.bsize]);
      SpliceBefore(orig, at + pos + c.bsize, t, at + pos, at + pos + c.bsize);
      HoldsBlock(orig, at, s, pos, c.bsize);
      SplicePre(orig, at + pos, d, t);
      Copy(src, at + pos, c.dec(src[at + pos..at + pos + c.bsize]));
      left := left - c.bsize;
      if left < c.bsize {
        break;
      }
      ghost var prev := s[pos - c.bsize..pos];
      SpliceBefore(orig, at + pos, d + t, at + pos - c.bsize, at + pos);
      HoldsBlock(orig, at, s, pos - c.bsize, c.bsize);
      BackStep(orig, at + pos, d, t, prev);
      CryptoXor(src, at + pos, src[at + pos - c.bsize..at + pos]);
      t := Xor(d, prev) + t;
      pos := pos - c.bsize;
    }
  }

  /** crypto_cbc_decrypt_inplace: backwards from the last block, so that every block still finds its predecessor. */
  method DecryptInplace(c: Cipher, iv: array<Byte>, src: array<Byte>, at: nat, nbytes: nat) returns (left: nat)
    requires GoodCipher(c) && PowerOfTwo(c.bsize)
    requires iv.Length == c.bsize <= nbytes && at + nbytes <= src.Length && iv != src
    modifies iv, src
    ensures left == Rem(nbytes, c.bsize)
    ensures var s := old(src[at..at + nbytes]); var d := Decrypt(c, old(iv[..]), s);
      at + |d| <= src.Length && src[..] == Splice(old(src[..]), at, d) && iv[..] == Carry(c, old(iv[..]), s)
  {
    hide Xor; hide XorAt; hide Splice; hide GoodCipher; hide Decrypt; hide Carry; hide BitAnd; hide PowerOfTwo;
    hide Behind; hide Rem;
    ghost var orig, whole, iv0 := src[..], src[at..at + nbytes], iv[..];
    WholeBlocks(c, iv0, whole);
    MaskIsRem(nbytes, c.bsize);
    var pos: nat := nbytes - BitAnd(nbytes, c.bsize - 1) - c.bsize;
    var last := src[at + pos..at + pos + c.bsize];
    ghost var s := whole[..pos + c.bsize];
    LastIn(src[..], at, nbytes, pos, c.bsize);
    ghost var t;
    left, t := Backward(c, src, at, pos, nbytes, s);
    BehindNext(c, s, 0, t, iv0);
    BackStep(orig, at, c.dec(s[0..c.bsize]), t, iv0);
    CryptoXor(src, at, iv[..]);
    SpliceWhole(iv[..], last);
    Copy(iv, 0, last);
  }

  // The walk

  /** One step of the walk: the bytes that it maps, and whether source and destination are the same memory. */
  datatype Run = Run(nbytes: nat, inplace: bool)

  /** A run processes its whole blocks; what is left over is mapped again. */
  function Used(c: Cipher, r: Run): (u: nat)
    requires c.bsize > 0
    ensures u <= r.nbytes
  {
    r.nbytes - Rem(r.nbytes, c.bsize)
  }

  /** The runs cover a message of `total` bytes, up to bytes that do not fill a block. */
  predicate Covers(c: Cipher, runs: seq<Run>, total: nat)
    requires c.bsize > 0
    decreases |runs|
  {
    if runs == [] then total < c.bsize
    else c.bsize <= runs[0].nbytes <= total && Covers(c, runs[1..], total - Used(c, runs[0]))
  }

  /** The bytes that a run of the walk reads. */
  function Source(c: Cipher, r: Run, src: seq<Byte>, dst: seq<Byte>): (p: seq<Byte>)
    requires c.bsize > 0 && r.nbytes <= |src| == |dst|
    ensures |p| == Used(c, r)
  {
    if r.inplace then dst[..Used(c, r)] else src[..Used(c, r)]
  }

  /** The message: run by run, from the destination where that is also the source. */
  ghost function Message(c: Cipher, runs: seq<Run>, src: seq<Byte>, dst: seq<Byte>): seq<Byte>
    requires c.bsize > 0 && |src| == |dst| && Covers(c, runs, |src|)
    decreases |runs|
  {
    if runs == [] then []
    else
      var u := Used(c, runs[0]);
      Source(c, runs[0], src, dst) + Message(c, runs[1..], src[u..], dst[u..])
  }

  /** The walk after some of its runs, which have read `done`; `orig` is what the destination held before. */
  ghost predicate Halfway(c: Cipher, runs: seq<Run>, src: seq<Byte>, orig: seq<Byte>, i: nat, done: seq<Byte>) {
    && c.bsize > 0 && |src| == |orig| && Covers(c, runs, |src|) && i <= |runs| && |done| <= |src|
    && Rem(|done|, c.bsize) == 0
    && Covers(c, runs[i..], |src| - |done|)
    && Message(c, runs, src, orig) == done + Message(c, runs[i..], src[|done|..], orig[|done|..])
  }

  lemma HalfwayStart(c: Cipher, runs: seq<Run>, src: seq<Byte>, orig: seq<Byte>)
    requires c.bsize > 0 && |src| == |orig| && Covers(c, runs, |src|)
    ensures Halfway(c, runs, src, orig, 0, [])
  {
    assert runs[0..] == runs && src[0..] == src && orig[0..] == orig;
    assert [] + Message(c, runs, src, orig) == Message(c, runs, src, orig);
  }

  lemma CoversStep(c: Cipher, runs: seq<Run>, i: nat, total: nat)
    requires c.bsize > 0 && i < |runs| && Covers(c, runs[i..], total)
    ensures c.bsize <= runs[i].nbytes <= total && Covers(c, runs[i + 1..], total - Used(c, runs[i]))
  {
    assert runs[i..][0] == runs[i] && runs[i..][1..] == runs[i + 1..];
  }

  lemma MessageStep(c: Cipher, runs: seq<Run>, i: nat, src: seq<Byte>, dst: seq<Byte>)
    requires c.bsize > 0 && |src| == |dst| && i < |runs| && Covers(c, runs[i..], |src|)
    ensures runs[i].nbytes <= |src| && var u := Used(c, runs[i]); Covers(c, runs[i + 1..], |src| - u)
    ensures var u := Used(c, runs[i]);
      Message(c, runs[i..], src, dst) == Source(c, runs[i], src, dst) + Message(c, runs[i + 1..], src[u..], dst[u..])
  {
    hide Source; hide Rem;
    CoversStep(c, runs, i, |src|);
    assert runs[i..][0] == runs[i] && runs[i..][1..] == runs[i + 1..];
  }

  lemma HalfwayNext(c: Cipher, runs: seq<Run>, src: seq<Byte>, orig: seq<Byte>, i: nat, done: seq<Byte>)
    requires Halfway(c, runs, src, orig, i, done) && i < |runs|
    ensures c.bsize <= runs[i].nbytes <= |src| - |done| && Rem(Used(c, runs[i]), c.bsize) == 0
    ensures Halfway(c, runs, src, orig, i + 1, done + Source(c, runs[i], src[|done|..], orig[|done|..]))
  {
    hide Covers; hide Message; hide Source; hide Rem;
    var r, k := runs[i], |done|;
    CoversStep(c, runs, i, |src| - k);
    MessageStep(c, runs, i, src[k..], orig[k..]);
    var u := Used(c, r);
    var p := Source(c, r, src[k..], orig[k..]);
    assert src[k..][u..] == src[k + u..] && orig[k..][u..] == orig[k + u..];
    RemWhole(r.nbytes, c.bsize);
    RemAdd(k, u, c.bsize);
    Associate(done, p, Message(c, runs[i + 1..], src[k + u..], orig[k + u..]));
  }

  lemma HalfwayEnd(c: Cipher, runs: seq<Run>, src: seq<Byte>, orig: seq<Byte>, done: seq<Byte>)
    requires Halfway(c, runs, src, orig, |runs|, done)
    ensures done == Message(c, runs, src, orig) && |src| - |done| == Rem(|src|, c.bsize)
  {
    assert runs[|runs|..] == [] && done + [] == done;
    RemBehind(|done|, |src| - |done|, c.bsize);
  }

  lemma {:induction false} RemBehind(a: nat, n: nat, b: nat)
    requires b > 0 && Rem(a, b) == 0 && n < b
    ensures Rem(a + n, b) == n
    decreases a
  {
    if a > 0 { RemBehind(a - b, n, b); }
  }

  /** Bytes behind the last whole block do not matter for encryption either. */
  lemma WholeEncrypt(c: Cipher, iv: seq<Byte>, s: seq<Byte>)
    requires GoodCipher(c) && |iv| == c.bsize
    ensures var w := s[..|s| - Rem(|s|, c.bsize)]; Encrypt(c, iv, s) == Encrypt(c, iv, w)
  {
    hide Encrypt; hide Carry; hide GoodCipher;
    PositiveSize(c);
    var w, r := s[..|s| - Rem(|s|, c.bsize)], s[|s| - Rem(|s|, c.bsize)..];
    RemWhole(|s|, c.bsize);
    assert s == w + r;
    EncryptCut(c, iv, w, r);
    Ends(c, Carry(c, iv, Encrypt(c, iv, w)), r);
  }

  // Encryption

  /** The destination and the IV once `done` was encrypted. */
  ghost predicate EncryptedTo(c: Cipher, iv0: seq<Byte>, done: seq<Byte>, orig: seq<Byte>,
                              buf: seq<Byte>, iv: seq<Byte>)
  {
    && GoodCipher(c) && |iv0| == c.bsize && |done| <= |orig| && Rem(|done|, c.bsize) == 0
    && var e := Encrypt(c, iv0, done); |e| == |done| && buf == Splice(orig, 0, e) && iv == Carry(c, iv0, e)
  }

  lemma EncryptedToNext(c: Cipher, iv0: seq<Byte>, done: seq<Byte>, orig: seq<Byte>, buf: seq<Byte>, iv: seq<Byte>,
                        p: seq<Byte>)
    requires EncryptedTo(c, iv0, done, orig, buf, iv) && Rem(|p|, c.bsize) == 0 && |done| + |p| <= |orig|
    ensures |buf| == |orig| && buf[|done|..] == orig[|done|..] && |iv| == c.bsize
    ensures var e := Encrypt(c, iv, p);
      |e| == |p| && EncryptedTo(c, iv0, done + p, orig, Splice(buf, |done|, e), Carry(c, iv, e))
  {
    hide Encrypt; hide Carry; hide GoodCipher; hide Splice;
    PositiveSize(c);
    var e0 := Encrypt(c, iv0, done);
    var e := Encrypt(c, iv, p);
    EncryptCut(c, iv0, done, p);
    EncryptLength(c, iv, p);
    DecryptCut(c, iv0, e0, e);
    RemAdd(|done|, |p|, c.bsize);
    SpliceTail(orig, e0);
    SpliceCat(orig, 0, e0, e);
  }

  lemma SpliceTail(s: seq<Byte>, a: seq<Byte>)
    requires |a| <= |s|
    ensures |Splice(s, 0, a)| == |s| && Splice(s, 0, a)[|a|..] == s[|a|..]
  {}

  /** One turn of the loop in crypto_cbc_encrypt: in place or from one buffer to the other. */
  method EncryptRun(c: Cipher, iv: array<Byte>, src: array<Byte>, dst: array<Byte>, k: nat, r: Run) returns (left: nat)
    requires GoodCipher(c) && iv.Length == c.bsize <= r.nbytes && src.Length == dst.Length && k + r.nbytes <= dst.Length
    requires iv != src && iv != dst && src != dst
    modifies iv, dst
    ensures left == Rem(r.nbytes, c.bsize)
    ensures var e := Encrypt(c, old(iv[..]), Source(c, r, src[k..], old(dst[k..])));
      k + |e| <= dst.Length && dst[..] == Splice(old(dst[..]), k, e) && iv[..] == Carry(c, old(iv[..]), e)
  {
    hide Encrypt; hide Carry; hide GoodCipher; hide Splice; hide Rem;
    PositiveSize(c);
    ghost var s := if r.inplace then dst[k..k + r.nbytes] else src[k..k + r.nbytes];
    assert Source(c, r, src[k..], dst[k..]) == s[..|s| - Rem(|s|, c.bsize)];
    WholeEncrypt(c, iv[..], s);
    if r.inplace {
      left := EncryptInplace(c, iv, dst, k, r.nbytes);
    } else {
      left := EncryptSegment(c, iv, src, k, dst, k, r.nbytes);
    }
  }

  /**
    crypto_cbc_encrypt: whatever runs the walk makes of the message, in place or not, the result is the encryption of
    the whole message, and the walk fails exactly if bytes are left over.
   */
  method EncryptWalk(c: Cipher, iv: array<Byte>, src: array<Byte>, dst: array<Byte>, runs: seq<Run>)
    returns (ok: bool)
    requires GoodCipher(c) && iv.Length == c.bsize && iv != src && iv != dst && src != dst
    requires src.Length == dst.Length && Covers(c, runs, src.Length)
    modifies iv, dst
    ensures var e := Encrypt(c, old(iv[..]), Message(c, runs, src[..], old(dst[..])));
      |e| <= dst.Length && dst[..] == Splice(old(dst[..]), 0, e) && iv[..] == Carry(c, old(iv[..]), e)
    ensures ok <==> Rem(src.Length, c.bsize) == 0
  {
    hide Encrypt; hide Carry; hide GoodCipher; hide Splice; hide EncryptedTo; hide Rem; hide Message; hide Covers;
    hide Halfway; hide Source;
    ghost var orig, iv0, done := dst[..], iv[..], [];
    PositiveSize(c);
    HalfwayStart(c, runs, src[..], orig);
    EncryptedToStart(c, iv0, orig);
    var i, k: nat := 0, 0;
    while i < |runs|
      invariant 0 <= i <= |runs| && k == |done|
      invariant Halfway(c, runs, src[..], orig, i, done)
      invariant EncryptedTo(c, iv0, done, orig, dst[..], iv[..])
    {
      HalfwayNext(c, runs, src[..], orig, i, done);
      ghost var p := Source(c, runs[i], src[..][k..], orig[k..]);
      EncryptedToNext(c, iv0, done, orig, dst[..], iv[..], p);
      assert dst[k..] == dst[..][k..] == orig[k..] && src[k..] == src[..][k..];
      var left := EncryptRun(c, iv, src, dst, k, runs[i]);
      done := done + p;
      i, k := i + 1, k + (runs[i].nbytes - left);
    }
    HalfwayEnd(c, runs, src[..], orig, done);
    ok := k == src.Length;
    EncryptedToEnd(c, iv0, done, orig, dst[..], iv[..]);
  }

  lemma EncryptedToStart(c: Cipher, iv: seq<Byte>, orig: seq<Byte>)
    requires GoodCipher(c) && |iv| == c.bsize
    ensures EncryptedTo(c, iv, [], orig, orig, iv) && DecryptedTo(c, iv, [], orig, orig, iv)
  {
    SpliceNothing(orig, 0);
  }

  lemma EncryptedToEnd(c: Cipher, iv0: seq<Byte>, done: seq<Byte>, orig: seq<Byte>, buf: seq<Byte>, iv: seq<Byte>)
    requires GoodCipher(c) && |iv0| == c.bsize
    ensures EncryptedTo(c, iv0, done, orig, buf, iv) ==>
      var e := Encrypt(c, iv0, done); |e| <= |orig| && buf == Splice(orig, 0, e) && iv == Carry(c, iv0, e)
    ensures DecryptedTo(c, iv0, done, orig, buf, iv) ==>
      var d := Decrypt(c, iv0, done); |d| <= |orig| && buf == Splice(orig, 0, d) && iv == Carry(c, iv0, done)
  {}

  // Decryption

  /** The destination and the IV once `done` was decrypted. */
  ghost predicate DecryptedTo(c: Cipher, iv0: seq<Byte>, done: seq<Byte>, orig: seq<Byte>,
                              buf: seq<Byte>, iv: seq<Byte>)
  {
    && GoodCipher(c) && |iv0| == c.bsize && |done| <= |orig| && Rem(|done|, c.bsize) == 0
    && var d := Decrypt(c, iv0, done); |d| == |done| && buf == Splice(orig, 0, d) && iv == Carry(c, iv0, done)
  }

  lemma {:induction false} DecryptLength(c: Cipher, iv: seq<Byte>, s: seq<Byte>)
    requires GoodCipher(c) && |iv| == c.bsize
    ensures |Decrypt(c, iv, s)| == |s| - Rem(|s|, c.bsize)
    decreases |s|
  {
    hide Decrypt; hide GoodCipher;
    PositiveSize(c);
    if |s| >= c.bsize {
      var b, rest := s[..c.bsize], s[c.bsize..];
      assert s == b + rest;
      DecryptStep(c, iv, b, rest);
      DecryptLength(c, b, rest);
    } else {
      Ends(c, iv, s);
    }
  }

  lemma DecryptedToNext(c: Cipher, iv0: seq<Byte>, done: seq<Byte>, orig: seq<Byte>, buf: seq<Byte>, iv: seq<Byte>,
                        p: seq<Byte>)
    requires DecryptedTo(c, iv0, done, orig, buf, iv) && Rem(|p|, c.bsize) == 0 && |done| + |p| <= |orig|
    ensures |buf| == |orig| && buf[|done|..] == orig[|done|..] && |iv| == c.bsize
    ensures var d := Decrypt(c, iv, p);
      |d| == |p| && DecryptedTo(c, iv0, done + p, orig, Splice(buf, |done|, d), Carry(c, iv, p))
  {
    hide Decrypt; hide Carry; hide GoodCipher; hide Splice;
    PositiveSize(c);
    DecryptCut(c, iv0, done, p);
    DecryptLength(c, iv, p);
    RemAdd(|done|, |p|, c.bsize);
    SpliceTail(orig, Decrypt(c, iv0, done));
    SpliceCat(orig, 0, Decrypt(c, iv0, done), Decrypt(c, iv, p));
  }

  /** One turn of the loop in crypto_cbc_decrypt. */
  method DecryptRun(c: Cipher, iv: array<Byte>, src: array<Byte>, dst: array<Byte>, k: nat, r: Run) returns (left: nat)
    requires GoodCipher(c) && PowerOfTwo(c.bsize) && iv.Length == c.bsize <= r.nbytes
    requires src.Length == dst.Length && k + r.nbytes <= dst.Length && iv != src && iv != dst && src != dst
    modifies iv, dst
    ensures left == Rem(r.nbytes, c.bsize)
    ensures var s := Source(c, r, src[k..], old(dst[k..])); var d := Decrypt(c, old(iv[..]), s);
      k + |d| <= dst.Length && dst[..] == Splice(old(dst[..]), k, d) && iv[..] == Carry(c, old(iv[..]), s)
  {
    hide Decrypt; hide Carry; hide GoodCipher; hide Splice; hide Rem; hide PowerOfTwo;
    PositiveSize(c);
    ghost var s := if r.inplace then dst[k..k + r.nbytes] else src[k..k + r.nbytes];
    assert Source(c, r, src[k..], dst[k..]) == s[..|s| - Rem(|s|, c.bsize)];
    WholeBlocks(c, iv[..], s);
    if r.inplace {
      left := DecryptInplace(c, iv, dst, k, r.nbytes);
    } else {
      left := DecryptSegment(c, iv, src, k, dst, k, r.nbytes);
    }
  }

  /** crypto_cbc_decrypt. */
  method DecryptWalk(c: Cipher, iv: array<Byte>, src: array<Byte>, dst: array<Byte>, runs: seq<Run>)
    returns (ok: bool)
    requires GoodCipher(c) && PowerOfTwo(c.bsize) && iv.Length == c.bsize && iv != src && iv != dst && src != dst
    requires src.Length == dst.Length && Covers(c, runs, src.Length)
    modifies iv, dst
    ensures var s := Message(c, runs, src[..], old(dst[..])); var d := Decrypt(c, old(iv[..]), s);
      |d| <= dst.Length && dst[..] == Splice(old(dst[..]), 0, d) && iv[..] == Carry(c, old(iv[..]), s)
    ensures ok <==> Rem(src.Length, c.bsize) == 0
  {
    hide Decrypt; hide Carry; hide GoodCipher; hide Splice; hide DecryptedTo; hide Rem; hide Message; hide Covers;
    hide Halfway; hide Source; hide PowerOfTwo;
    ghost var orig, iv0, done := dst[..], iv[..], [];
    PositiveSize(c);
    HalfwayStart(c, runs, src[..], orig);
    EncryptedToStart(c, iv0, orig);
    var i, k: nat := 0, 0;
    while i < |runs|
      invariant 0 <= i <= |runs| && k == |done|
      invariant Halfway(c, runs, src[..], orig, i, done)
      invariant DecryptedTo(c, iv0, done, orig, dst[..], iv[..])
    {
      HalfwayNext(c, runs, src[..], orig, i, done);
      ghost var p := Source(c, runs[i], src[..][k..], orig[k..]);
      DecryptedToNext(c, iv0, done, orig, dst[..], iv[..], p);
      assert dst[k..] == dst[..][k..] == orig[k..] && src[k..] == src[..][k..];
      var left := DecryptRun(c, iv, src, dst, k, runs[i]);
      done := done + p;
      i, k := i + 1, k + (runs[i].nbytes - left);
    }
    HalfwayEnd(c, runs, src[..], orig, done);
    ok := k == src.Length;
    EncryptedToEnd(c, iv0, done, orig, dst[..], iv[..]);
  }
}
