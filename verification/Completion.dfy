/** Partial completion: a driver reports bytes, and blk_update_request takes them off the front of the bio chain. */
module Completion {

  datatype Bvec = Bvec(offset: nat, len: nat)

  datatype Bio = Bio(id: nat, sector: nat, size: nat, vecs: seq<Bvec>, idx: nat, uptodate: bool)

  /** A call of bio_endio. */
  datatype Ended = Ended(id: nat, error: int)

  datatype Rq = Rq(bios: seq<Bio>, dataLen: nat, sector: nat, ended: seq<Ended>)

  const EIO: int := 5

  // Well-formed fs requests

  function Length(vecs: seq<Bvec>): nat {
    if vecs == [] then 0 else vecs[0].len + Length(vecs[1..])
  }

  lemma LengthFrom(vecs: seq<Bvec>, i: nat)
    requires i < |vecs|
    ensures Length(vecs[i..]) == vecs[i].len + Length(vecs[i + 1..])
    ensures i + 1 == |vecs| ==> Length(vecs[i + 1..]) == 0
  {
    assert vecs[i..][1..] == vecs[i + 1..];
  }

  /** A bio that still has data: its size is what its vectors hold. */
  predicate GoodBio(b: Bio) {
    && b.idx < |b.vecs| && b.size == Length(b.vecs[b.idx..])
    && forall k :: b.idx <= k < |b.vecs| ==> b.vecs[k].len > 0
  }

  function Sizes(bios: seq<Bio>): nat {
    if bios == [] then 0 else bios[0].size + Sizes(bios[1..])
  }

  predicate GoodChain(bios: seq<Bio>) { forall i :: 0 <= i < |bios| ==> GoodBio(bios[i]) }

  predicate GoodRq(r: Rq) { GoodChain(r.bios) && r.dataLen == Sizes(r.bios) }

  /** Every bio is a whole number of sectors. */
  predicate Aligned(bios: seq<Bio>) { forall i :: 0 <= i < |bios| ==> bios[i].size % 512 == 0 }

  // What completing `n` bytes with status `error` leaves

  /** The vectors after `n` bytes, from position `i`. */
  function Trim(vecs: seq<Bvec>, i: nat, n: nat): (seq<Bvec>, nat)
    requires i < |vecs| && n < Length(vecs[i..])
    decreases |vecs| - i
  {
    var v := vecs[i];
    if n < v.len then (vecs[i := Bvec(v.offset + n, v.len - n)], i)
    else
      LengthFrom(vecs, i);
      Trim(vecs, i + 1, n - v.len)
  }

  function AdvanceBio(b: Bio, n: nat, error: int): Bio
    requires GoodBio(b) && n < b.size
  {
    var (vecs, idx) := Trim(b.vecs, b.idx, n);
    Bio(b.id, b.sector + n / 512, b.size - n, vecs, idx, b.uptodate && error == 0)
  }

  function EndBio(b: Bio, error: int): Ended {
    Ended(b.id, if error != 0 then error else if b.uptodate then 0 else -EIO)
  }

  function Rest(bios: seq<Bio>, n: nat, error: int): seq<Bio>
    requires GoodChain(bios)
  {
    if bios == [] || n == 0 then bios
    else if n >= bios[0].size then Rest(bios[1..], n - bios[0].size, error)
    else [AdvanceBio(bios[0], n, error)] + bios[1..]
  }

  /** The bios that end, in order. */
  function EndedBy(bios: seq<Bio>, n: nat, error: int): seq<Ended>
    requires GoodChain(bios)
  {
    if bios == [] || n < bios[0].size then []
    else [EndBio(bios[0], error)] + EndedBy(bios[1..], n - bios[0].size, error)
  }

  /** blk_update_request; it returns whether something is left. */
  function Update(r: Rq, n: nat, error: int): (bool, Rq)
    requires GoodRq(r)
  {
    var bios, ended := Rest(r.bios, n, error), r.ended + EndedBy(r.bios, n, error);
    if r.bios == [] then (false, r)
    else if bios == [] then (false, Rq([], 0, r.sector, ended))
    else
      LeftOver(r.bios, n, error);
      (true, Rq(bios, r.dataLen - n, r.sector + n / 512, ended))
  }

  // Conservation

  lemma {:induction false} TrimLength(vecs: seq<Bvec>, i: nat, n: nat)
    requires i < |vecs| && n < Length(vecs[i..])
    requires forall k :: i <= k < |vecs| ==> vecs[k].len > 0
    ensures var (vecs', i') := Trim(vecs, i, n);
      && i <= i' < |vecs'| == |vecs| && Length(vecs'[i'..]) == Length(vecs[i..]) - n
      && forall k :: i' <= k < |vecs'| ==> vecs'[k].len > 0
    decreases |vecs| - i
  {
    var v := vecs[i];
    assert vecs[i..][1..] == vecs[i + 1..];
    if n < v.len {
      var vecs' := vecs[i := Bvec(v.offset + n, v.len - n)];
      assert vecs'[i..][1..] == vecs[i + 1..];
    } else {
      TrimLength(vecs, i + 1, n - v.len);
    }
  }

  lemma AdvanceGood(b: Bio, n: nat, error: int)
    requires GoodBio(b) && n < b.size
    ensures GoodBio(AdvanceBio(b, n, error))
  {
    TrimLength(b.vecs, b.idx, n);
  }

  lemma GoodSize(b: Bio)
    requires GoodBio(b)
    ensures b.size > 0
  {}

  /** The remaining sizes drop by what was completed; something is left exactly if that is less than there was. */
  lemma {:induction false} LeftOver(bios: seq<Bio>, n: nat, error: int)
    requires GoodChain(bios)
    ensures GoodChain(Rest(bios, n, error))
    ensures Rest(bios, n, error) != [] <==> n < Sizes(bios)
    ensures n < Sizes(bios) ==> Sizes(Rest(bios, n, error)) == Sizes(bios) - n
    decreases |bios|
  {
    if bios != [] {
      GoodSize(bios[0]);
      if n >= bios[0].size {
        LeftOver(bios[1..], n - bios[0].size, error);
      } else if n > 0 {
        AdvanceGood(bios[0], n, error);
        var r := Rest(bios, n, error);
        assert r[1..] == bios[1..];
      }
    }
  }

  lemma UpdateGood(r: Rq, n: nat, error: int)
    requires GoodRq(r)
    ensures GoodRq(Update(r, n, error).1)
    ensures Update(r, n, error).0 <==> n < r.dataLen
    ensures Update(r, n, error).1.dataLen == if n < r.dataLen then r.dataLen - n else 0
  {
    LeftOver(r.bios, n, error);
  }

  // Which bytes are left: each byte is named by its bio, its vector and its place in it

  datatype Byte = Byte(bio: nat, vec: nat, offset: nat)

  function Run(bio: nat, vec: nat, offset: nat, len: nat): seq<Byte> {
    seq(len, k requires 0 <= k < len => Byte(bio, vec, offset + k))
  }

  function VecBytes(bio: nat, vecs: seq<Bvec>, i: nat): (r: seq<Byte>)
    requires i <= |vecs|
    ensures |r| == Length(vecs[i..])
    decreases |vecs| - i
  {
    if i == |vecs| then []
    else
      assert vecs[i..][1..] == vecs[i + 1..];
      Run(bio, i, vecs[i].offset, vecs[i].len) + VecBytes(bio, vecs, i + 1)
  }

  function Bytes(bios: seq<Bio>): (r: seq<Byte>)
    requires GoodChain(bios)
    ensures |r| == Sizes(bios)
  {
    if bios == [] then [] else VecBytes(bios[0].id, bios[0].vecs, bios[0].idx) + Bytes(bios[1..])
  }

  lemma {:induction false} VecBytesSame(bio: nat, vecs: seq<Bvec>, vecs': seq<Bvec>, i: nat)
    requires |vecs'| == |vecs| && i <= |vecs| && forall k :: i <= k < |vecs| ==> vecs[k] == vecs'[k]
    ensures VecBytes(bio, vecs, i) == VecBytes(bio, vecs', i)
    decreases |vecs| - i
  {
    if i < |vecs| {
      VecBytesSame(bio, vecs, vecs', i + 1);
    }
  }

  lemma {:induction false} TrimBytes(bio: nat, vecs: seq<Bvec>, i: nat, n: nat)
    requires i < |vecs| && n < Length(vecs[i..])
    requires forall k :: i <= k < |vecs| ==> vecs[k].len > 0
    ensures var (vecs', i') := Trim(vecs, i, n);
      i' < |vecs'| && VecBytes(bio, vecs', i') == VecBytes(bio, vecs, i)[n..]
    decreases |vecs| - i
  {
    var v := vecs[i];
    assert vecs[i..][1..] == vecs[i + 1..];
    var tail := VecBytes(bio, vecs, i + 1);
    if n < v.len {
      var vecs' := vecs[i := Bvec(v.offset + n, v.len - n)];
      VecBytesSame(bio, vecs, vecs', i + 1);
      assert Run(bio, i, v.offset + n, v.len - n) == Run(bio, i, v.offset, v.len)[n..];
    } else {
      TrimBytes(bio, vecs, i + 1, n - v.len);
      assert (Run(bio, i, v.offset, v.len) + tail)[n..] == tail[n - v.len..];
    }
  }

  lemma AdvanceBytes(b: Bio, n: nat, error: int)
    requires GoodBio(b) && n < b.size
    ensures var b' := AdvanceBio(b, n, error);
      b'.idx <= |b'.vecs| && VecBytes(b'.id, b'.vecs, b'.idx) == VecBytes(b.id, b.vecs, b.idx)[n..]
  {
    TrimBytes(b.id, b.vecs, b.idx, n);
  }

  /** Completion takes exactly the first `n` bytes off the chain. */
  lemma {:induction false} TakesFirstBytes(bios: seq<Bio>, n: nat, error: int)
    requires GoodChain(bios)
    ensures GoodChain(Rest(bios, n, error))
    ensures Bytes(Rest(bios, n, error)) == if n < |Bytes(bios)| then Bytes(bios)[n..] else []
    decreases |bios|
  {
    hide AdvanceBio; hide VecBytes; hide Length;
    LeftOver(bios, n, error);
    if bios != [] && n > 0 {
      var b := bios[0];
      var head, tail := VecBytes(b.id, b.vecs, b.idx), Bytes(bios[1..]);
      if n >= b.size {
        TakesFirstBytes(bios[1..], n - b.size, error);
        if n < |Bytes(bios)| {
          assert (head + tail)[n..] == tail[n - b.size..];
        }
      } else {
        AdvanceBytes(b, n, error);
        var r := Rest(bios, n, error);
        assert r[0] == AdvanceBio(b, n, error) && r[1..] == bios[1..];
        assert (head + tail)[n..] == head[n..] + tail;
      }
    }
  }

  // Composition

  /** The same vectors from `i` on. */
  predicate SameFrom(vecs: seq<Bvec>, vecs': seq<Bvec>, i: nat) {
    |vecs'| == |vecs| && forall k :: i <= k < |vecs| ==> vecs'[k] == vecs[k]
  }

  /** Trimming does not look at vectors that are done. */
  lemma {:induction false} TrimSame(vecs: seq<Bvec>, vecs': seq<Bvec>, i: nat, n: nat)
    requires i < |vecs| && SameFrom(vecs, vecs', i) && n < Length(vecs[i..])
    ensures n < Length(vecs'[i..])
    ensures var (t, j) := Trim(vecs, i, n); var (t', j') := Trim(vecs', i, n);
      j == j' && i <= j && SameFrom(t, t', j) && (t == t' <==> vecs[..i] == vecs'[..i])
    decreases |vecs| - i
  {
    assert vecs[i..] == vecs'[i..];
    LengthFrom(vecs, i);
    if n >= vecs[i].len {
      TrimSame(vecs, vecs', i + 1, n - vecs[i].len);
      assert vecs[..i + 1] == vecs[..i] + [vecs[i]] && vecs'[..i + 1] == vecs'[..i] + [vecs'[i]];
    } else {
      var (t, t') := (Trim(vecs, i, n).0, Trim(vecs', i, n).0);
      assert t[..i] == vecs[..i] && t'[..i] == vecs'[..i] && t[i..] == t'[i..];
      assert t == t[..i] + t[i..] && t' == t'[..i] + t'[i..];
    }
  }

  /** Position `n` is a boundary of vectors, or `n` and `n + m` are in the same vector. */
  predicate CleanCut(vecs: seq<Bvec>, i: nat, n: nat, m: nat)
    requires i <= |vecs|
    decreases |vecs| - i
  {
    i == |vecs| ||
    if n < vecs[i].len then n == 0 || n + m < vecs[i].len else CleanCut(vecs, i + 1, n - vecs[i].len, m)
  }

  /** `t`, cut at `n` and then at `m`, against `u`, cut at once: the tables are the same exactly if `clean`. */
  predicate CutsAgree(clean: bool, t: (seq<Bvec>, nat), u: (seq<Bvec>, nat)) {
    t.1 == u.1 && SameFrom(t.0, u.0, t.1) && (t.0 == u.0 <==> clean)
  }

  /** The first cut is inside the first vector, the second behind it. */
  lemma TrimPast(vecs: seq<Bvec>, i: nat, n: nat, m: nat)
    requires i < |vecs| && n < vecs[i].len <= n + m < Length(vecs[i..])
    ensures var cut := Trim(vecs, i, n);
      m < Length(cut.0[i..]) && CutsAgree(n == 0, Trim(cut.0, i, m), Trim(vecs, i, n + m))
  {
    var v := vecs[i];
    var vecs' := vecs[i := Bvec(v.offset + n, v.len - n)];
    LengthFrom(vecs, i);
    LengthFrom(vecs', i);
    assert vecs'[i + 1..] == vecs[i + 1..];
    TrimSame(vecs', vecs, i + 1, n + m - v.len);
    assert vecs[..i + 1][i] == vecs[i] && vecs'[..i + 1][i] == vecs'[i];
    if n == 0 { assert vecs' == vecs; }
  }

  /** Both cuts are inside the first vector. */
  lemma TrimInside(vecs: seq<Bvec>, i: nat, n: nat, m: nat)
    requires i < |vecs| && n + m < vecs[i].len && n + m < Length(vecs[i..])
    ensures var cut := Trim(vecs, i, n);
      m < Length(cut.0[i..]) && CutsAgree(true, Trim(cut.0, i, m), Trim(vecs, i, n + m))
  {
    var v := vecs[i];
    var vecs' := vecs[i := Bvec(v.offset + n, v.len - n)];
    LengthFrom(vecs, i);
    LengthFrom(vecs', i);
    assert vecs'[i + 1..] == vecs[i + 1..];
    assert vecs'[i := Bvec(v.offset + n + m, v.len - n - m)] == vecs[i := Bvec(v.offset + n + m, v.len - n - m)];
  }

  /**
    Cutting twice is cutting once. Only a vector that was cut inside and is done now keeps its
    mark, so the whole table is the same exactly if there is no such vector.
   */
  lemma {:induction false} TrimTrim(vecs: seq<Bvec>, i: nat, n: nat, m: nat)
    requires i < |vecs| && n + m < Length(vecs[i..])
    requires forall k :: i <= k < |vecs| ==> vecs[k].len > 0
    ensures var cut := Trim(vecs, i, n);
      && cut.1 < |cut.0| && m < Length(cut.0[cut.1..])
      && CutsAgree(CleanCut(vecs, i, n, m), Trim(cut.0, cut.1, m), Trim(vecs, i, n + m))
    decreases |vecs| - i
  {
    hide CutsAgree;
    TrimLength(vecs, i, n);
    LengthFrom(vecs, i);
    if n >= vecs[i].len {
      TrimTrim(vecs, i + 1, n - vecs[i].len, m);
    } else if n + m < vecs[i].len {
      TrimInside(vecs, i, n, m);
    } else {
      TrimPast(vecs, i, n, m);
    }
  }

  lemma {:induction false} CleanNothing(vecs: seq<Bvec>, i: nat, n: nat)
    requires i <= |vecs|
    ensures CleanCut(vecs, i, n, 0)
    decreases |vecs| - i
  {
    if i < |vecs| && n >= vecs[i].len { CleanNothing(vecs, i + 1, n - vecs[i].len); }
  }

  /** Bios that differ at most in vectors that are done. */
  predicate SameBio(b: Bio, c: Bio) {
    c == b.(vecs := c.vecs) && SameFrom(b.vecs, c.vecs, b.idx)
  }

  predicate SameChain(a: seq<Bio>, c: seq<Bio>) {
    |a| == |c| && forall i :: 0 <= i < |a| ==> SameBio(a[i], c[i])
  }

  lemma AdvanceAdvance(b: Bio, n: nat, m: nat, error: int)
    requires GoodBio(b) && n + m < b.size && n % 512 == 0
    ensures var b' := AdvanceBio(b, n, error);
      && GoodBio(b') && SameBio(AdvanceBio(b', m, error), AdvanceBio(b, n + m, error))
      && (AdvanceBio(b', m, error) == AdvanceBio(b, n + m, error) <==> CleanCut(b.vecs, b.idx, n, m))
  {
    AdvanceGood(b, n, error);
    TrimTrim(b.vecs, b.idx, n, m);
  }

  /** In the bio where the first call ends, the vectors are cut cleanly, or the second call ends the bio. */
  predicate CleanChain(bios: seq<Bio>, n: nat, m: nat)
    requires GoodChain(bios)
  {
    if bios == [] || n == 0 then true
    else if n >= bios[0].size then CleanChain(bios[1..], n - bios[0].size, m)
    else n + m >= bios[0].size || CleanCut(bios[0].vecs, bios[0].idx, n, m)
  }

  /** A call that ends inside the first bio. */
  lemma RestCut(bios: seq<Bio>, n: nat, error: int)
    requires GoodChain(bios) && bios != [] && 0 < n < bios[0].size
    ensures Rest(bios, n, error) == [AdvanceBio(bios[0], n, error)] + bios[1..] && EndedBy(bios, n, error) == []
  {
    hide AdvanceBio;
  }

  /** Chains that differ in their heads at most. */
  lemma HeadsDiffer(x: Bio, y: Bio, tail: seq<Bio>)
    requires SameBio(x, y)
    ensures SameChain([x] + tail, [y] + tail) && ([x] + tail == [y] + tail <==> x == y)
  {
    hide SameBio;
    assert ([x] + tail)[0] == x && ([y] + tail)[0] == y;
    forall i | 0 <= i < |tail| ensures SameBio(tail[i], tail[i]) { SameAsItself(tail[i]); }
  }

  lemma SameAsItself(b: Bio)
    ensures SameBio(b, b)
  {}

  /** The first call ends inside the first bio. */
  lemma RestInside(bios: seq<Bio>, n: nat, m: nat, error: int)
    requires GoodChain(bios) && n % 512 == 0 && bios != [] && 0 < n < bios[0].size
    ensures var r := Rest(bios, n, error);
      && GoodChain(r) && EndedBy(bios, n, error) == []
      && SameChain(Rest(r, m, error), Rest(bios, n + m, error))
      && (Rest(r, m, error) == Rest(bios, n + m, error) <==> CleanChain(bios, n, m))
      && EndedBy(bios, n + m, error) == EndedBy(r, m, error)
  {
    hide AdvanceBio; hide GoodBio; hide EndBio; hide CleanCut; hide Rest; hide EndedBy; hide SameChain; hide SameBio;
    var b := bios[0];
    AdvanceGood(b, n, error);
    AdvanceKeeps(b, n, error);
    RestCut(bios, n, error);
    var b', r := AdvanceBio(b, n, error), Rest(bios, n, error);
    assert r[0] == b' && r[1..] == bios[1..];
    if m == 0 {
      RestNone(r, 0, error);
      EndedZero(r, error);
      SameSelf(r);
      Indexed(b);
      CleanNothing(b.vecs, b.idx, n);
    } else if n + m < b.size {
      AdvanceAdvance(b, n, m, error);
      RestCut(r, m, error);
      RestCut(bios, n + m, error);
      HeadsDiffer(AdvanceBio(b', m, error), AdvanceBio(b, n + m, error), bios[1..]);
    } else {
      RestStep(r, m, error);
      RestStep(bios, n + m, error);
      SameSelf(Rest(bios, n + m, error));
    }
  }

  lemma Indexed(b: Bio)
    requires GoodBio(b)
    ensures b.idx < |b.vecs|
  {}

  lemma Multiples(a: nat, b: nat)
    requires a % 512 == 0 && b % 512 == 0 && b <= a
    ensures (a - b) % 512 == 0
  {}

  lemma {:induction false} RestRest(bios: seq<Bio>, n: nat, m: nat, error: int)
    requires GoodChain(bios) && n % 512 == 0 && Aligned(bios)
    ensures GoodChain(Rest(bios, n, error))
    ensures SameChain(Rest(Rest(bios, n, error), m, error), Rest(bios, n + m, error))
    ensures Rest(Rest(bios, n, error), m, error) == Rest(bios, n + m, error) <==> CleanChain(bios, n, m)
    ensures EndedBy(bios, n + m, error) == EndedBy(bios, n, error) + EndedBy(Rest(bios, n, error), m, error)
    decreases |bios|
  {
    hide AdvanceBio; hide GoodBio; hide EndBio; hide SameBio; hide Rest; hide EndedBy; hide SameChain;
    hide CleanCut;
    LeftOver(bios, n, error);
    if bios == [] || n == 0 {
      RestNone(bios, n, error);
      SameSelf(Rest(bios, n + m, error));
      EndedZero(bios, error);
      EndedNone(n, error);
      EndedNone(m, error);
      EndedNone(n + m, error);
    } else if n >= bios[0].size {
      Multiples(n, bios[0].size);
      RestStep(bios, n, error);
      RestStep(bios, n + m, error);
      RestRest(bios[1..], n - bios[0].size, m, error);
    } else {
      RestInside(bios, n, m, error);
    }
  }

  lemma RestNone(bios: seq<Bio>, n: nat, error: int)
    requires GoodChain(bios) && (bios == [] || n == 0)
    ensures Rest(bios, n, error) == bios
  {}

  lemma RestStep(bios: seq<Bio>, n: nat, error: int)
    requires GoodChain(bios) && bios != [] && n >= bios[0].size
    ensures n > 0 && Rest(bios, n, error) == Rest(bios[1..], n - bios[0].size, error)
    ensures EndedBy(bios, n, error) == [EndBio(bios[0], error)] + EndedBy(bios[1..], n - bios[0].size, error)
  {
    GoodSize(bios[0]);
  }

  lemma SameSelf(bios: seq<Bio>)
    ensures SameChain(bios, bios)
  {}

  lemma EndedZero(bios: seq<Bio>, error: int)
    requires GoodChain(bios)
    ensures EndedBy(bios, 0, error) == []
  {
    if bios != [] { GoodSize(bios[0]); }
  }

  lemma AdvanceKeeps(b: Bio, n: nat, error: int)
    requires GoodBio(b) && n < b.size
    ensures var b' := AdvanceBio(b, n, error); b'.size == b.size - n && EndBio(b', error) == EndBio(b, error)
  {}

  /**
    Completing `n` and then `m` bytes is completing `n + m`: the same bytes of the same bios remain, the same end with
    the same status in the same order, and the same length is left. The bios with their vectors that are done are the
    same exactly if the cut is clean, and the sector exactly if something remains or the first call was the last or
    had no sector to do.
   */
  lemma UpdatesCompose(r: Rq, n: nat, m: nat, error: int)
    requires GoodRq(r) && n % 512 == 0 && Aligned(r.bios)
    ensures GoodRq(Update(r, n, error).1)
    ensures var (more2, r2) := Update(Update(r, n, error).1, m, error); var (more, s) := Update(r, n + m, error);
      && SameChain(r2.bios, s.bios) && r2.ended == s.ended && r2.dataLen == s.dataLen && more2 == more
      && (r2.bios == s.bios <==> CleanChain(r.bios, n, m))
      && (r2.sector == s.sector <==> n + m < r.dataLen || n >= r.dataLen || n == 0)
  {
    hide Rest; hide EndedBy; hide CleanChain;
    UpdateGood(r, n, error);
    var (more1, r1) := Update(r, n, error);
    UpdateGood(r1, m, error);
    UpdateGood(r, n + m, error);
    RestRest(r.bios, n, m, error);
    LeftOver(r.bios, n, error);
    EndedNone(m, error);
    assert r.ended + EndedBy(r.bios, n, error) + EndedBy(r1.bios, m, error)
        == r.ended + (EndedBy(r.bios, n, error) + EndedBy(r1.bios, m, error));
  }

  lemma EndedNone(n: nat, error: int)
    ensures EndedBy([], n, error) == [] && Rest([], n, error) == []
  {}

  /** Bios end in chain order, each once: what has ended is a prefix of the chain, and the rest are still there. */
  lemma {:induction false} EndOnceInOrder(bios: seq<Bio>, n: nat, error: int)
    requires GoodChain(bios)
    ensures var k := |EndedBy(bios, n, error)|; var rest := Rest(bios, n, error);
      && k + |rest| == |bios|
      && (forall i :: 0 <= i < k ==> EndedBy(bios, n, error)[i] == EndBio(bios[i], error))
      && (forall i :: 0 <= i < |rest| ==> rest[i].id == bios[k + i].id)
    decreases |bios|
  {
    if bios != [] && n >= bios[0].size {
      GoodSize(bios[0]);
      EndOnceInOrder(bios[1..], n - bios[0].size, error);
    }
  }

  // Runs of calls

  datatype Call = Call(n: nat, error: int)

  /** The request after a run of completions. */
  function Completed(r: Rq, calls: seq<Call>): (s: Rq)
    requires GoodRq(r)
    ensures GoodRq(s)
    decreases |calls|
  {
    if calls == [] then r
    else
      UpdateGood(r, calls[0].n, calls[0].error);
      Completed(Update(r, calls[0].n, calls[0].error).1, calls[1..])
  }

  /** The bios that have ended and then those that remain. */
  function Order(ended: seq<Ended>, bios: seq<Bio>): (ids: seq<int>)
    ensures |ids| == |ended| + |bios|
  {
    seq(|ended| + |bios|, i requires 0 <= i < |ended| + |bios| =>
      if i < |ended| then ended[i].id else bios[i - |ended|].id)
  }

  lemma UpdateOrder(r: Rq, n: nat, error: int)
    requires GoodRq(r)
    ensures var s := Update(r, n, error).1; Order(s.ended, s.bios) == Order(r.ended, r.bios)
  {
    hide Rest; hide EndedBy;
    EndOnceInOrder(r.bios, n, error);
    LeftOver(r.bios, n, error);
  }

  /** Over every run of calls the bios end in chain order, each once; the others remain in their order. */
  lemma {:induction false} RunsEndInOrder(r: Rq, calls: seq<Call>)
    requires GoodRq(r)
    ensures var s := Completed(r, calls);
      && Order(s.ended, s.bios) == Order(r.ended, r.bios)
      && |s.ended| >= |r.ended| && s.ended[..|r.ended|] == r.ended
    decreases |calls|
  {
    hide Update; hide Order;
    if calls != [] {
      var s := Update(r, calls[0].n, calls[0].error).1;
      UpdateGood(r, calls[0].n, calls[0].error);
      UpdateOrder(r, calls[0].n, calls[0].error);
      UpdateAppends(r, calls[0].n, calls[0].error);
      RunsEndInOrder(s, calls[1..]);
      var e := Completed(r, calls).ended;
      assert e[..|r.ended|] == e[..|s.ended|][..|r.ended|];
    }
  }

  lemma UpdateAppends(r: Rq, n: nat, error: int)
    requires GoodRq(r)
    ensures var s := Update(r, n, error).1; |s.ended| >= |r.ended| && s.ended[..|r.ended|] == r.ended
  {}

  // Where the number of calls shows

  /** Two halves of a request of two sectors: the second call leaves the sector where the first has put it. */
  lemma SectorDependsOnSteps()
    ensures exists r ::
      && GoodRq(r) && GoodRq(Update(r, 512, 0).1)
      && Update(Update(r, 512, 0).1, 512, 0).1.sector != Update(r, 1024, 0).1.sector
  {
    hide Update;
    var vecs := [Bvec(0, 1024)];
    var bio := Bio(0, 0, 1024, vecs, 0, true);
    assert vecs[0..] == vecs && Length(vecs) == 1024;
    assert bio.size % 512 == 0;
    var r := Rq([bio], 1024, 0, []);
    assert Sizes(r.bios) == 1024;
    UpdatesCompose(r, 512, 512, 0);
    UpdateGood(r, 1024, 0);
  }

  /** Two vectors of two sectors: a call that ends inside the first leaves a mark that the next one keeps. */
  lemma VectorsDependOnSteps()
    ensures exists r :: GoodRq(r) && GoodRq(Update(r, 512, 0).1) && !SameBios(r, 512, 1024)
  {
    hide Update; hide CleanChain;
    var vecs := [Bvec(0, 1024), Bvec(0, 1024)];
    var bio := Bio(0, 0, 2048, vecs, 0, true);
    LengthFrom(vecs, 0);
    LengthFrom(vecs, 1);
    assert bio.size % 512 == 0;
    var r := Rq([bio], 2048, 0, []);
    assert Sizes(r.bios) == 2048;
    UpdatesCompose(r, 512, 1024, 0);
    MarkLeft(r.bios);
    assert !SameBios(r, 512, 1024);
  }

  predicate SameBios(r: Rq, n: nat, m: nat)
    requires GoodRq(r) && GoodRq(Update(r, n, 0).1)
  {
    Update(Update(r, n, 0).1, m, 0).1.bios == Update(r, n + m, 0).1.bios
  }

  lemma MarkLeft(bios: seq<Bio>)
    requires GoodChain(bios) && bios != [] && bios[0].size == 2048 && bios[0].idx == 0 && bios[0].vecs[0].len == 1024
    ensures !CleanChain(bios, 512, 1024)
  {}
}
