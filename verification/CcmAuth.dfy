/** The buffers with which CCM authenticates a request piece by piece. */
module CcmAuth {
  import opened CryptoBytes
  import opened Ccm
  import CbcLoops

  const EOVERFLOW: int := 75
  const EINVAL: int := 22

  // unsigned int
  const U32: nat := 0x1_0000_0000

  function Flat(chunks: seq<seq<Byte>>): seq<Byte> {
    if chunks == [] then [] else Flat(chunks[..|chunks| - 1]) + chunks[|chunks| - 1]
  }

  /** The authentication sizes that crypto_ccm_setauthsize admits. */
  predicate AuthSize(m: nat) { m == 4 || m == 6 || m == 8 || m == 10 || m == 12 || m == 14 || m == 16 }

  /** M' of the flags. */
  function Encoded(m: nat): Byte
    requires AuthSize(m)
    ensures 1 <= Encoded(m) < 8
  {
    (m - 2) / 2
  }

  lemma FlagBits(l: Byte, m: Byte)
    requires l < 8 && m < 8
    ensures OrNat(l, 8 * m) == 8 * m + l && OrNat(8 * m + l, 64) == 64 + 8 * m + l
  {
    PowEight();
    OrIsPlus(l, m, 3);
    OrIsPlus(8 * m + l, 1, 6);
  }

  /** crypto_ccm_check_iv. */
  function CheckIv(iv: seq<Byte>): int
    requires |iv| == BLOCK
  {
    if 1 > iv[0] || iv[0] > 7 then -EINVAL else 0
  }

  /** The largest length that set_msg_len lets through in a field of `l` bytes. */
  predicate Admitted(n: nat, l: nat) { l >= 4 || n <= Pow256(l) }

  /** set_msg_len. */
  method SetMsgLen(block: array<Byte>, at: nat, msglen: nat, csize: nat) returns (err: int)
    requires 2 <= csize <= 8 && at + csize <= block.Length && msglen < U32
    modifies block
    ensures err == 0 || err == -EOVERFLOW
    ensures err == 0 <==> Admitted(msglen, csize)
    ensures err == 0 ==> block[..] == Splice(old(block[..]), at, BigEndian(msglen, csize))
  {
    hide BigEndian; hide Splice;
    ghost var orig := block[..];
    Copy(block, at, Zeros(csize));
    var end, n := at + csize, csize;
    PowValues();
    if n >= 4 {
      n := 4;
    } else if msglen > (if n == 2 then 0x1_0000 else 0x100_0000) {
      return -EOVERFLOW;
    }
    var data := BigEndian(msglen, 4);
    Field(orig, at, msglen, csize, n);
    Copy(block, end - n, data[4 - n..]);
    return 0;
  }

  lemma PowValues()
    ensures Pow256(2) == 0x1_0000 && Pow256(3) == 0x100_0000 && Pow256(4) == U32
  {
    assert Pow256(1) == 256;
  }

  /** The low bytes of the number behind zeros are its digits. */
  lemma Field(orig: seq<Byte>, at: nat, n: nat, size: nat, k: nat)
    requires at + size <= |orig| && n < U32 && size >= 2 && k == (if size >= 4 then 4 else size)
    ensures Splice(Splice(orig, at, Zeros(size)), at + size - k, BigEndian(n, 4)[4 - k..])
         == Splice(orig, at, BigEndian(n, size))
  {
    hide BigEndian; hide Pow256; hide Splice;
    PowValues();
    var low := BigEndian(n, 4)[4 - k..];
    DigitsDrop(n, 4 - k, k);
    assert low == BigEndian(n, k);
    var lead := Zeros(size - k);
    assert Zeros(size) == lead + Zeros(k);
    Overwrite(orig, at, lead, Zeros(k), low);
    if size >= 4 {
      DigitsLead(n, size - k, k);
    } else {
      assert lead + low == low;
    }
  }

  lemma Overwrite(s: seq<Byte>, at: nat, a: seq<Byte>, b: seq<Byte>, d: seq<Byte>)
    requires at + |a| + |b| <= |s| && |d| == |b|
    ensures Splice(Splice(s, at, a + b), at + |a|, d) == Splice(s, at, a + d)
  {}

  class Authenticator {
    const odata: array<Byte>
    const idata: array<Byte>
    var ilen: nat

    ghost predicate Valid()
      reads this
    {
      odata.Length == BLOCK && idata.Length == BLOCK && odata != idata && ilen < BLOCK
    }

    constructor ()
      ensures Valid() && fresh(odata) && fresh(idata)
    {
      odata := new Byte[BLOCK];
      idata := new Byte[BLOCK];
      ilen := 0;
    }

    /** Adds a block to the state and encrypts it. */
    method Encrypt(e: seq<Byte> -> seq<Byte>, b: seq<Byte>)
      requires Valid() && GoodCipher(e) && |b| == BLOCK
      modifies odata
      ensures |e(Xor(old(odata[..]), b))| == BLOCK && odata[..] == e(Xor(old(odata[..]), b))
      ensures idata[..] == old(idata[..])
    {
      hide Xor; hide XorAt; hide Splice;
      CbcLoops.SpliceWhole(odata[..], b);
      CryptoXor(odata, 0, b);
      CbcLoops.SpliceWhole(odata[..], e(odata[..]));
      Copy(odata, 0, e(odata[..]));
    }

    /** compute_mac: completes the waiting block, takes whole blocks from the data, and keeps the rest. */
    method ComputeMac(e: seq<Byte> -> seq<Byte>, data: seq<Byte>)
      requires Valid() && GoodCipher(e)
      modifies this, odata, idata
      ensures Valid()
      ensures var all := old(idata[..ilen]) + data;
        odata[..] == CbcMac(e, old(odata[..]), all) && idata[..ilen] == Tail(all)
    {
      hide Xor; hide Splice; hide CbcMac; hide Tail; hide GoodCipher;
      ghost var x, all := odata[..], idata[..ilen] + data;
      var rest := data;
      var getlen := BLOCK - ilen;
      if |rest| >= getlen {
        ghost var b := idata[..ilen] + rest[..getlen];
        FillEnd(idata[..], ilen, rest[..getlen]);
        assert all == b + rest[getlen..];
        MacStep(e, x, b, rest[getlen..]);
        Copy(idata, ilen, rest[..getlen]);
        Encrypt(e, idata[..]);
        rest := rest[getlen..];
        ilen := 0;
        assert idata[..ilen] + rest == rest;
      }
      while |rest| >= BLOCK
        invariant |rest| + ilen >= BLOCK ==> ilen == 0
        invariant Valid() && GoodCipher(e) && |odata[..]| == BLOCK
        invariant CbcMac(e, x, all) == CbcMac(e, odata[..], idata[..ilen] + rest)
        invariant Tail(all) == Tail(idata[..ilen] + rest)
        decreases |rest|
      {
        assert idata[..ilen] + rest == rest[..BLOCK] + rest[BLOCK..];
        MacStep(e, odata[..], rest[..BLOCK], rest[BLOCK..]);
        Encrypt(e, rest[..BLOCK]);
        rest := rest[BLOCK..];
        assert idata[..ilen] + rest == rest;
      }
      MacEnd(e, odata[..], idata[..ilen] + rest);
      if |rest| > 0 {
        KeepRest(idata[..], ilen, rest);
        Copy(idata, ilen, rest);
        ilen := ilen + |rest|;
      } else {
        assert idata[..ilen] + rest == idata[..ilen];
      }
    }

    /** get_data_to_compute: the first `len` bytes of a list of chunks, then the padding. */
    method GetDataToCompute(e: seq<Byte> -> seq<Byte>, chunks: seq<seq<Byte>>, len: nat)
      requires Valid() && GoodCipher(e) && len <= |Flat(chunks)|
      modifies this, odata, idata
      ensures Valid() && ilen == 0
      ensures odata[..] == CbcMac(e, old(odata[..]), Pad(old(idata[..ilen]) + Flat(chunks)[..len]))
    {
      hide Xor; hide Splice; hide CbcMac; hide Tail; hide GoodCipher; hide Pad; hide Flat;
      ghost var x, p, done := odata[..], idata[..ilen], [];
      var left: nat, i := len, 0;
      assert p + done == p;
      MacEnd(e, x, p);
      FlatPrefix(chunks, 0);
      while left > 0
        invariant Valid() && 0 <= i <= |chunks| && left <= len && |done| == len - left
        invariant done == Flat(chunks)[..len - left] && (left > 0 ==> done == Flat(chunks[..i]))
        invariant odata[..] == CbcMac(e, x, p + done) && idata[..ilen] == Tail(p + done)
        decreases |chunks| - i
      {
        FlatPrefix(chunks, i);
        if i == |chunks| {
          // the list is as long as the caller says
          assert false;
        }
        FlatPrefix(chunks, i + 1);
        var chunk := chunks[i];
        var n := if |chunk| < left then |chunk| else left;
        ghost var d := chunk[..n];
        FlatNext(chunks, i, n);
        Absorb(e, x, p + done, d);
        assert p + done + d == p + (done + d);
        ComputeMac(e, chunk[..n]);
        done := done + d;
        left, i := left - n, i + 1;
      }
      PadMac(e, x, p + done);
      if ilen > 0 {
        FillEnd(idata[..], ilen, Zeros(BLOCK - ilen));
        Copy(idata, ilen, Zeros(BLOCK - ilen));
        Encrypt(e, idata[..]);
        ilen := 0;
      }
    }

    /** format_input: B_0 from the IV, the sizes and the message length. */
    method FormatInput(iv: seq<Byte>, m: nat, alen: nat, mlen: nat) returns (err: int)
      requires Valid() && |iv| == BLOCK && CheckIv(iv) == 0 && AuthSize(m) && mlen < U32
      modifies odata
      ensures 2 <= iv[0] + 1 <= 8 && (err == 0 <==> Admitted(mlen, iv[0] + 1))
      ensures err == 0 ==> odata[..] == FirstBlock(iv, iv[0] + 1, Encoded(m), alen, mlen)
      ensures idata[..] == old(idata[..])
    {
      hide BigEndian; hide Splice;
      var l := iv[0] + 1;
      CbcLoops.SpliceWhole(odata[..], iv);
      Copy(odata, 0, iv);
      FlagBits(iv[0], Encoded(m));
      odata[0] := OrNat(odata[0], 8 * ((m - 2) / 2));
      if alen != 0 {
        odata[0] := OrNat(odata[0], 64);
      }
      assert odata[..] == [Flags(alen > 0, Encoded(m), iv[0])] + iv[1..];
      FirstBlockIs(iv, l, Flags(alen > 0, Encoded(m), iv[0]), BigEndian(mlen, l));
      err := SetMsgLen(odata, BLOCK - l, mlen, l);
    }

    /** format_adata, into the block that waits. */
    method FormatAdata(a: nat)
      requires Valid() && 0 < a < U32
      modifies this, idata
      ensures Valid() && idata[..ilen] == AdataHeader(a) && odata[..] == old(odata[..])
    {
      hide BigEndian;
      var header := if a < 65280 then BigEndian(a, 2) else BigEndian(0xfffe, 2) + BigEndian(a, 4);
      HeaderMark();
      KeepRest(idata[..], 0, header);
      Copy(idata, 0, header);
      ilen := |header|;
      assert idata[..ilen] == header;
    }

    /** crypto_ccm_auth. */
    method Auth(e: seq<Byte> -> seq<Byte>, iv: seq<Byte>, m: nat, adata: seq<seq<Byte>>, alen: nat,
                msg: seq<seq<Byte>>, mlen: nat)
      returns (err: int)
      requires Valid() && GoodCipher(e) && |iv| == BLOCK && CheckIv(iv) == 0 && AuthSize(m)
      requires alen <= |Flat(adata)| && alen < U32 && mlen <= |Flat(msg)| && mlen < U32
      modifies this, odata, idata
      ensures Valid()
      ensures 2 <= iv[0] + 1 <= 8 && (err == 0 <==> Admitted(mlen, iv[0] + 1))
      ensures err == 0 ==> odata[..] == Mac(e, iv, iv[0] + 1, Encoded(m), Flat(adata)[..alen], Flat(msg)[..mlen])
    {
      hide Xor; hide Splice; hide CbcMac; hide GoodCipher; hide Pad; hide Flat; hide FirstBlock;
      hide Encoded; hide CheckIv; hide AdataHeader;
      err := FormatInput(iv, m, alen, mlen);
      if err != 0 { return; }
      var l := iv[0] + 1;
      ghost var b0, a, p := odata[..], Flat(adata)[..alen], Flat(msg)[..mlen];
      MacStart(e, iv, l, Encoded(m), a, p);
      CbcLoops.SpliceWhole(odata[..], e(odata[..]));
      Copy(odata, 0, e(odata[..]));
      if alen != 0 {
        FormatAdata(alen);
        GetDataToCompute(e, adata, alen);
      } else {
        ilen := 0;
      }
      assert idata[..ilen] + p == p;
      GetDataToCompute(e, msg, mlen);
    }
  }

  lemma FirstBlockIs(iv: seq<Byte>, l: nat, f: Byte, digits: seq<Byte>)
    requires |iv| == BLOCK && 2 <= l <= 8 && |digits| == l
    ensures Splice([f] + iv[1..], BLOCK - l, digits) == [f] + iv[1..BLOCK - l] + digits
  {}

  lemma HeaderMark()
    ensures BigEndian(0xfffe, 2) == [0xff, 0xfe]
  {
    assert BigEndian(0xff, 1) == [0xff];
  }

  /** The whole computation, taken apart as the code does it. */
  lemma MacStart(e: seq<Byte> -> seq<Byte>, iv: seq<Byte>, l: nat, m: Byte, a: seq<Byte>, p: seq<Byte>)
    requires GoodCipher(e) && |iv| == BLOCK && 2 <= l <= 8 && iv[0] < 8 && m < 8
    ensures |e(FirstBlock(iv, l, m, |a|, |p|))| == BLOCK
    ensures var x := e(FirstBlock(iv, l, m, |a|, |p|));
      Mac(e, iv, l, m, a, p) == CbcMac(e, if a == [] then x else CbcMac(e, x, Pad(AdataHeader(|a|) + a)), Pad(p))
  {
    hide Xor; hide CbcMac; hide FirstBlock; hide Pad; hide AdataHeader;
    var b0, zero := FirstBlock(iv, l, m, |a|, |p|), Zeros(BLOCK);
    XorZeros(b0);
    var mid := if a == [] then [] else Pad(AdataHeader(|a|) + a);
    assert b0 + mid + Pad(p) == b0 + (mid + Pad(p));
    MacStep(e, zero, b0, mid + Pad(p));
    if a == [] {
      assert mid + Pad(p) == Pad(p);
    } else {
      PadOdd(AdataHeader(|a|) + a);
      MacCat(e, e(b0), mid, Pad(p));
    }
  }

  lemma PadOdd(s: seq<Byte>)
    ensures Odd(|Pad(s)|) == 0
  {
    Cbc.RemWhole(|s|, BLOCK);
    if Odd(|s|) != 0 {
      Cbc.RemAdd(|s| - Odd(|s|), BLOCK, BLOCK);
    }
  }

  /** The length field says the length exactly if the message is shorter than 256^L. */
  lemma LengthFieldExact(iv: seq<Byte>, l: nat, m: Byte, alen: nat, mlen: nat)
    requires |iv| == BLOCK && 2 <= l <= 8 && iv[0] < 8 && m < 8
    ensures Value(FirstBlock(iv, l, m, alen, mlen)[BLOCK - l..]) == mlen <==> mlen < Pow256(l)
  {
    hide BigEndian;
    DigitsExact(mlen, l);
    assert FirstBlock(iv, l, m, alen, mlen)[BLOCK - l..] == BigEndian(mlen, l);
  }

  /** So the lengths that are admitted and encoded wrongly are 256^2 and 256^3, in fields of that size. */
  lemma WrongLengths(n: nat, l: nat)
    requires 2 <= l <= 8 && n < U32
    ensures Admitted(n, l) && Value(BigEndian(n, l)) != n <==> (l == 2 || l == 3) && n == Pow256(l)
  {
    DigitsExact(n, l);
    PowValues();
    PowGrows(l);
  }

  lemma PowGrows(l: nat)
    requires l >= 2
    ensures l >= 4 ==> Pow256(l) >= Pow256(4)
  {
    if l > 4 { PowGrows(l - 1); }
  }

  lemma {:induction false} FlatPrefix(chunks: seq<seq<Byte>>, i: nat)
    requires i <= |chunks|
    ensures Flat(chunks[..0]) == [] && Flat(chunks[..i]) <= Flat(chunks)
    ensures i == |chunks| ==> chunks[..i] == chunks
    decreases |chunks|
  {
    if i < |chunks| {
      var front := chunks[..|chunks| - 1];
      FlatPrefix(front, i);
      assert front[..i] == chunks[..i];
    } else {
      assert chunks[..i] == chunks;
    }
  }

  lemma FlatNext(chunks: seq<seq<Byte>>, i: nat, n: nat)
    requires i < |chunks| && n <= |chunks[i]|
    ensures Flat(chunks[..i + 1]) == Flat(chunks[..i]) + chunks[i]
    ensures |Flat(chunks[..i])| + n <= |Flat(chunks)|
    ensures Flat(chunks)[..|Flat(chunks[..i])| + n] == Flat(chunks[..i]) + chunks[i][..n]
  {
    assert chunks[..i + 1][..i] == chunks[..i];
    FlatPrefix(chunks, i + 1);
  }

  /** Padding encrypts the tail that waits, filled up with zeros. */
  lemma PadMac(e: seq<Byte> -> seq<Byte>, x: seq<Byte>, a: seq<Byte>)
    requires GoodCipher(e) && |x| == BLOCK
    ensures var y, t := CbcMac(e, x, a), Tail(a);
      CbcMac(e, x, Pad(a)) == if t == [] then y else e(Xor(y, t + Zeros(BLOCK - |t|)))
  {
    hide Xor; hide CbcMac; hide GoodCipher; hide Tail;
    var y, t := CbcMac(e, x, a), Tail(a);
    if t == [] {
      assert Zeros(0) == [] && Pad(a) == a;
    } else {
      var z := Zeros(BLOCK - |t|);
      Absorb(e, x, a, z);
      assert Pad(a) == a + z && t + z == (t + z) + [];
      MacStep(e, y, t + z, []);
      MacEnd(e, e(Xor(y, t + z)), []);
    }
  }

  lemma FillEnd(s: seq<Byte>, at: nat, a: seq<Byte>)
    requires at + |a| == |s|
    ensures Splice(s, at, a) == s[..at] + a
  {}

  lemma KeepRest(s: seq<Byte>, at: nat, a: seq<Byte>)
    requires at + |a| <= |s|
    ensures Splice(s, at, a)[..at + |a|] == s[..at] + a
  {}
}
