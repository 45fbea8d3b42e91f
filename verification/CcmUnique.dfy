/**
  The blocks that CCM authenticates tell what they were made from: none of them is the beginning of another, as
  CBC-MAC demands, exactly as long as the length field says the length.
 */
module CcmUnique {
  import opened CryptoBytes
  import opened Ccm
  import opened CcmAuth

  /** What a tag is computed from; the IV starts with L' and the nonce. */
  datatype Input = Input(iv: seq<Byte>, m: Byte, adata: seq<Byte>, msg: seq<Byte>)

  predicate GoodInput(x: Input) {
    |x.iv| == BLOCK && CheckIv(x.iv) == 0 && x.m < 8 && |x.adata| < U32
  }

  /** L. */
  function Len(x: Input): (l: nat)
    requires GoodInput(x)
    ensures 2 <= l <= 8
  {
    x.iv[0] + 1
  }

  function First(x: Input): (r: seq<Byte>)
    requires GoodInput(x)
    ensures |r| == BLOCK
  {
    FirstBlock(x.iv, Len(x), x.m, |x.adata|, |x.msg|)
  }

  function Adata(a: seq<Byte>): seq<Byte> { if a == [] then [] else Pad(AdataHeader(|a|) + a) }

  /** The blocks in the order in which they are authenticated. */
  function Blocks(x: Input): seq<Byte>
    requires GoodInput(x)
  {
    Stream(x.iv, Len(x), x.m, x.adata, x.msg)
  }

  /** The same nonce, tag size, associated data and message. */
  predicate Same(x: Input, y: Input)
    requires GoodInput(x) && GoodInput(y)
  {
    x.iv[..BLOCK - Len(x)] == y.iv[..BLOCK - Len(y)] && x.m == y.m && x.adata == y.adata && x.msg == y.msg
  }

  // Decoding

  lemma FlagsTell(a: bool, m: Byte, l: Byte, a': bool, m': Byte, l': Byte)
    requires m < 8 && l < 8 && m' < 8 && l' < 8 && Flags(a, m, l) == Flags(a', m', l')
    ensures a == a' && m == m' && l == l'
  {}

  lemma FirstTells(x: Input, y: Input)
    requires GoodInput(x) && GoodInput(y) && First(x) == First(y)
    requires |x.msg| < Pow256(Len(x)) && |y.msg| < Pow256(Len(y))
    ensures x.m == y.m && (x.adata == [] <==> y.adata == []) && |x.msg| == |y.msg|
    ensures Len(x) == Len(y) && x.iv[..BLOCK - Len(x)] == y.iv[..BLOCK - Len(y)]
  {
    hide BigEndian; hide Pow256; hide Value;
    var b, b' := First(x), First(y);
    assert b[0] == Flags(|x.adata| > 0, x.m, x.iv[0]) && b'[0] == Flags(|y.adata| > 0, y.m, y.iv[0]);
    FlagsTell(|x.adata| > 0, x.m, x.iv[0], |y.adata| > 0, y.m, y.iv[0]);
    var l := Len(x);
    assert b[1..BLOCK - l] == x.iv[1..BLOCK - l] && b'[1..BLOCK - l] == y.iv[1..BLOCK - l];
    assert x.iv[..BLOCK - l] == [x.iv[0]] + x.iv[1..BLOCK - l];
    assert y.iv[..BLOCK - l] == [y.iv[0]] + y.iv[1..BLOCK - l];
    LengthFieldExact(x.iv, l, x.m, |x.adata|, |x.msg|);
    LengthFieldExact(y.iv, l, y.m, |y.adata|, |y.msg|);
  }

  lemma Digits2(n: nat)
    requires n < 0x1_0000
    ensures BigEndian(n, 2) == [n / 256, n % 256]
  {
    assert BigEndian(n / 256, 1) == [n / 256];
  }

  /** The header is told apart from what follows it, and says the length. */
  lemma HeaderTells(n: nat, n': nat, s: seq<Byte>, s': seq<Byte>)
    requires 0 < n < U32 && 0 < n' < U32
    requires AdataHeader(n) + s <= AdataHeader(n') + s'
    ensures n == n'
  {
    hide BigEndian; hide Pow256; hide Value;
    var h, h' := AdataHeader(n), AdataHeader(n');
    var u, u' := h + s, h' + s';
    HeaderStarts(n); HeaderStarts(n');
    assert u[0] == h[0] && u'[0] == h'[0] && u[1] == h[1] && u'[1] == h'[1];
    assert h[0] == h'[0] && h[1] == h'[1];
    if n >= 0xff00 && n' >= 0xff00 {
      PowValues();
      DigitsExact(n, 4); DigitsExact(n', 4);
      assert BigEndian(n, 4) == u[2..6] == u'[2..6] == BigEndian(n', 4);
    }
  }

  lemma HeaderStarts(n: nat)
    requires 0 < n
    ensures var h := AdataHeader(n);
      |h| >= 2 && if n < 0xff00 then h[0] < 0xff && n == 256 * (h[0] as nat) + h[1] as nat else h[0] == 0xff
  {
    if n < 0xff00 { Digits2(n); }
  }

  // Prefixes

  /** Texts of one length are told by their padded forms. */
  lemma PadTells(s: seq<Byte>, s': seq<Byte>, t: seq<Byte>, t': seq<Byte>)
    requires |s| == |s'| && Pad(s) + t <= Pad(s') + t'
    ensures s == s' && Pad(s) == Pad(s') && t <= t'
  {
    var u, u', n := Pad(s) + t, Pad(s') + t', |Pad(s)|;
    assert |Pad(s')| == n;
    assert u[..n] == Pad(s) && u'[..n] == Pad(s') && u[n..] == t && u'[n..] == t';
    assert Pad(s)[..|s|] == s && Pad(s')[..|s|] == s';
    assert u == u'[..|u|];
    assert u'[..|u|][..n] == u'[..n] && u'[..|u|][n..] == u'[n..][..|u| - n];
  }

  lemma AdataTells(a: seq<Byte>, a': seq<Byte>, t: seq<Byte>, t': seq<Byte>)
    requires a != [] && a' != [] && |a| < U32 && |a'| < U32 && Adata(a) + t <= Adata(a') + t'
    ensures a == a' && t <= t'
  {
    var h, h' := AdataHeader(|a|), AdataHeader(|a'|);
    hide AdataHeader;
    AfterHeader(h, a, t); AfterHeader(h', a', t');
    HeaderTells(|a|, |a'|, a + Pad(h + a)[|h + a|..] + t, a' + Pad(h' + a')[|h' + a'|..] + t');
    PadTells(h + a, h' + a', t, t');
    assert (h + a)[|h|..] == a && (h' + a')[|h|..] == a';
  }

  lemma AfterHeader(h: seq<Byte>, a: seq<Byte>, t: seq<Byte>)
    ensures |h + a| <= |Pad(h + a)| && Pad(h + a) + t == h + (a + Pad(h + a)[|h + a|..] + t)
  {
    var z := Pad(h + a)[|h + a|..];
    assert Pad(h + a) == h + a + z;
    assert h + a + z + t == h + (a + z + t);
  }

  lemma HeadsSame(x: Input, y: Input)
    requires GoodInput(x) && GoodInput(y) && Blocks(x) <= Blocks(y)
    ensures First(x) == First(y) && Adata(x.adata) + Pad(x.msg) <= Adata(y.adata) + Pad(y.msg)
  {
    hide FirstBlock; hide Pad; hide Adata;
    var r, r' := Adata(x.adata) + Pad(x.msg), Adata(y.adata) + Pad(y.msg);
    AdataIs(x.adata); AdataIs(y.adata);
    assert Blocks(x) == First(x) + r && Blocks(y) == First(y) + r';
    Split(First(x), r, First(y), r');
  }

  lemma AdataIs(a: seq<Byte>)
    ensures Adata(a) == if a == [] then [] else Pad(AdataHeader(|a|) + a)
  {}

  lemma TailTells(x: Input, y: Input)
    requires GoodInput(x) && GoodInput(y) && (x.adata == [] <==> y.adata == [])
    requires Adata(x.adata) + Pad(x.msg) <= Adata(y.adata) + Pad(y.msg)
    ensures x.adata == y.adata && Pad(x.msg) <= Pad(y.msg)
  {
    hide Pad;
    if x.adata == [] {
      assert [] + Pad(x.msg) == Pad(x.msg) && [] + Pad(y.msg) == Pad(y.msg);
    } else {
      AdataTells(x.adata, y.adata, Pad(x.msg), Pad(y.msg));
    }
  }

  /**
    If the length fields say the lengths, no input's blocks are the beginning of another's, unless nonce, tag size,
    associated data and message are the same.
   */
  lemma PrefixFree(x: Input, y: Input)
    requires GoodInput(x) && GoodInput(y) && Blocks(x) <= Blocks(y)
    requires |x.msg| < Pow256(Len(x)) && |y.msg| < Pow256(Len(y))
    ensures Same(x, y)
  {
    hide First; hide Pow256; hide Pad; hide Adata; hide Blocks;
    HeadsSame(x, y);
    FirstTells(x, y);
    TailTells(x, y);
    assert Pad(x.msg) == Pad(x.msg) + [] && Pad(y.msg) == Pad(y.msg) + [];
    PadTells(x.msg, y.msg, [], []);
  }

  lemma Split(b: seq<Byte>, r: seq<Byte>, b': seq<Byte>, r': seq<Byte>)
    requires |b| == |b'| && b + r <= b' + r'
    ensures b == b' && r <= r'
  {
    var u, u', n := b + r, b' + r', |b|;
    assert u[..n] == b && u'[..n] == b' && u[n..] == r && u'[n..] == r';
    assert u == u'[..|u|];
    assert u'[..|u|][..n] == u'[..n] && u'[..|u|][n..] == u'[n..][..|u| - n];
  }

  // The lengths that are accepted but not said

  /** An input that the code authenticates. */
  predicate Accepted(x: Input) { GoodInput(x) && |x.msg| < U32 && Admitted(|x.msg|, Len(x)) }

  lemma {:induction false} WrapsToZero(k: nat)
    ensures BigEndian(Pow256(k), k) == BigEndian(0, k)
  {
    if k > 0 { WrapsToZero(k - 1); }
  }

  /** A message of 256^L bytes has the length field of an empty one. */
  lemma FirstWraps(x: Input)
    requires GoodInput(x) && |x.msg| == Pow256(Len(x))
    ensures First(x) == First(x.(msg := []))
  {
    hide BigEndian; hide Pow256;
    WrapsToZero(Len(x));
  }

  lemma LongIsExtended(x: Input)
    requires GoodInput(x) && |x.msg| == Pow256(Len(x))
    ensures Blocks(x.(msg := [])) <= Blocks(x) && !Same(x.(msg := []), x)
  {
    hide FirstBlock; hide Pow256;
    FirstWraps(x);
    assert Pad([]) == [];
    var b, a := First(x), Adata(x.adata);
    assert Blocks(x.(msg := [])) == b + a + [] && Blocks(x) == b + a + Pad(x.msg);
  }

  lemma LongIsNoPrefix(x: Input, y: Input)
    requires GoodInput(x) && GoodInput(y) && |y.msg| == Pow256(Len(y)) && |x.msg| < Pow256(Len(x))
    ensures !(Blocks(y) <= Blocks(x))
  {
    hide First; hide Pow256; hide Pad; hide Adata; hide Blocks;
    if Blocks(y) <= Blocks(x) {
      HeadsSame(y, x);
      FirstWraps(y);
      FirstTells(x, y.(msg := []));
      TailTells(y, x);
      PadLengths(y.msg);
    }
  }

  lemma PadLengths(s: seq<Byte>)
    ensures |Pad(s)| >= |s| && Pad([]) == []
  {}

  /**
    Of the inputs that the code authenticates, those whose blocks go on where another's end are exactly those with a
    message of 256^L bytes, which set_msg_len lets through.
   */
  lemma UnambiguousExactly(x: Input)
    requires Accepted(x)
    ensures (exists y :: Accepted(y) && Blocks(y) <= Blocks(x) && !Same(y, x)) <==> |x.msg| == Pow256(Len(x))
  {
    hide Blocks; hide Pow256; hide Same;
    if |x.msg| == Pow256(Len(x)) {
      LongIsExtended(x);
      assert Accepted(x.(msg := []));
    } else {
      AcceptedIs(x);
      forall y | Accepted(y) && Blocks(y) <= Blocks(x) ensures Same(y, x) {
        AcceptedIs(y);
        if |y.msg| == Pow256(Len(y)) {
          LongIsNoPrefix(x, y);
        } else {
          PrefixFree(y, x);
        }
      }
    }
  }

  lemma AcceptedIs(x: Input)
    requires Accepted(x)
    ensures |x.msg| <= Pow256(Len(x))
  {
    PowValues();
    PowGrows(Len(x));
  }
}
