/** blk_update_request as the loop that it is. */
module CompletionLoop {
  import opened Completion

  /**
    The head bio while its vectors are being passed: `k` of them are done, together `done` bytes,
    and `nr` bytes are still to be taken off behind them.
   */
  ghost predicate Scanned(b: Bio, k: nat, done: nat, nr: nat) {
    && GoodBio(b) && b.idx + k <= |b.vecs|
    && (k == 0 <==> done == 0) && (k > 0 ==> done + nr < b.size)
    && Length(b.vecs[b.idx + k..]) == b.size - done
    && (done + nr < b.size ==>
          && b.idx + k < |b.vecs| && nr < Length(b.vecs[b.idx + k..])
          && Trim(b.vecs, b.idx, done + nr) == Trim(b.vecs, b.idx + k, nr))
  }

  lemma ScanStart(b: Bio, nr: nat)
    requires GoodBio(b)
    ensures Scanned(b, 0, 0, nr)
  {}

  lemma ScanNext(b: Bio, k: nat, done: nat, nr: nat)
    requires Scanned(b, k, done, nr) && nr < b.size
    ensures done + nr < b.size && b.idx + k < |b.vecs| && b.vecs[b.idx + k].len > 0
    ensures var len := b.vecs[b.idx + k].len; len <= b.size && (len <= nr ==> Scanned(b, k + 1, done + len, nr - len))
  {
    LengthFrom(b.vecs, b.idx + k);
  }

  /** What is left to do after the loop makes the head bio the advanced one. */
  lemma ScanEnd(b: Bio, k: nat, done: nat, nr: nat, error: int)
    requires Scanned(b, k, done, nr) && done + nr < b.size && nr < b.vecs[b.idx + k].len
    ensures
      var v := b.vecs[b.idx + k];
      AdvanceBio(b, done + nr, error) ==
        Bio(b.id, b.sector + (done + nr) / 512, b.size - (done + nr),
            b.vecs[b.idx + k := Bvec(v.offset + nr, v.len - nr)], b.idx + k, b.uptodate && error == 0)
  {}

  /** What is done and what is still to do make up the whole call. */
  ghost predicate OnTheWay(r: Rq, n: nat, error: int, bios: seq<Bio>, ended: seq<Ended>, left: nat) {
    && GoodChain(r.bios) && GoodChain(bios)
    && Rest(bios, left, error) == Rest(r.bios, n, error)
    && ended + EndedBy(bios, left, error) == r.ended + EndedBy(r.bios, n, error)
  }

  lemma BioDone(r: Rq, n: nat, error: int, bios: seq<Bio>, ended: seq<Ended>, left: nat)
    requires OnTheWay(r, n, error, bios, ended, left) && bios != [] && left >= bios[0].size
    ensures OnTheWay(r, n, error, bios[1..], ended + [EndBio(bios[0], error)], left - bios[0].size)
  {
    GoodSize(bios[0]);
    var rest := EndedBy(bios[1..], left - bios[0].size, error);
    assert ended + ([EndBio(bios[0], error)] + rest) == ended + [EndBio(bios[0], error)] + rest;
  }

  lemma FirstVector(bios: seq<Bio>)
    requires GoodChain(bios) && bios != []
    ensures bios[0].vecs[bios[0].idx].len <= Sizes(bios)
  {
    LengthFrom(bios[0].vecs, bios[0].idx);
  }

  class Request {
    var bios: seq<Bio>
    var dataLen: nat
    var sector: nat
    var ended: seq<Ended>

    function View(): Rq
      reads this
    {
      Rq(bios, dataLen, sector, ended)
    }

    /** req_bio_endio; a count that is too large is clamped. */
    method BioEndio(bio: Bio, nbytes: nat, error: int) returns (b: Bio)
      modifies this`ended
      ensures var n := if nbytes > bio.size then bio.size else nbytes;
        && b == bio.(size := bio.size - n, sector := bio.sector + n / 512, uptodate := bio.uptodate && error == 0)
        && ended == if n == bio.size then old(ended) + [EndBio(bio, error)] else old(ended)
    {
      b := bio;
      var err, n := error, nbytes;
      if error != 0 {
        b := b.(uptodate := false);
      } else if !b.uptodate {
        err := -EIO;
      }
      if n > b.size {
        n := b.size;
      }
      b := b.(size := b.size - n, sector := b.sector + n / 512);
      if b.size == 0 {
        ended := ended + [Ended(b.id, err)];
      }
    }

    /** The bio in which the call ends is advanced, and its current vector cut. */
    method CutHead(error: int, bioBytes: nat, nextIdx: nat, nr: nat)
      requires bios != [] && 0 < bioBytes < bios[0].size && nr <= bioBytes
      requires Scanned(bios[0], nextIdx, bioBytes - nr, nr)
      requires bios[0].idx + nextIdx < |bios[0].vecs| && nr < bios[0].vecs[bios[0].idx + nextIdx].len
      modifies this`bios, this`ended
      ensures ended == old(ended) && GoodBio(old(bios)[0])
      ensures bios == [AdvanceBio(old(bios)[0], bioBytes, error)] + old(bios)[1..]
    {
      hide GoodBio; hide AdvanceBio; hide Scanned; hide EndBio;
      ScanFacts(bios[0], nextIdx, bioBytes - nr, nr);
      ScanEnd(bios[0], nextIdx, bioBytes - nr, nr, error);
      var b := BioEndio(bios[0], bioBytes, error);
      var i := b.idx + nextIdx;
      var v := b.vecs[i];
      b := b.(idx := i, vecs := b.vecs[i := Bvec(v.offset + nr, v.len - nr)]);
      bios := [b] + bios[1..];
    }

    /** One pass over the head of the chain: whole bios end, whole vectors are counted. */
    method Pass(error: int, nrBytes: nat) returns (nr: nat, total: nat, bioBytes: nat, nextIdx: nat)
      requires GoodChain(bios) && bios != []
      modifies this`bios, this`ended
      ensures bios == [] ==> OnTheWay(old(View()), nrBytes, error, [], ended, 0)
      ensures bios != [] ==>
        && total == nrBytes && OnTheWay(old(View()), nrBytes, error, bios, ended, bioBytes)
        && nr <= bioBytes && Scanned(bios[0], nextIdx, bioBytes - nr, nr) && bioBytes < bios[0].size
        && bios[0].idx + nextIdx < |bios[0].vecs| && nr < bios[0].vecs[bios[0].idx + nextIdx].len
    {
      hide GoodBio; hide EndBio; hide Scanned; hide OnTheWay;
      nr, total, bioBytes, nextIdx := nrBytes, 0, 0, 0;
      Entry(View(), nrBytes, error);
      ScanStart(bios[0], nr);
      while bios != []
        invariant GoodChain(bios)
        invariant total + nr == nrBytes
        invariant bios == [] ==> bioBytes == 0
        invariant OnTheWay(old(View()), nrBytes, error, bios, ended, bioBytes + nr)
        invariant bios != [] ==> Scanned(bios[0], nextIdx, bioBytes, nr)
        decreases |bios|, if bios == [] then 0 else |bios[0].vecs| - nextIdx
      {
        var bio, nbytes := bios[0], 0;
        ScanFacts(bio, nextIdx, bioBytes, nr);
        if nr >= bio.size {
          BioDone(old(View()), nrBytes, error, bios, ended, nr);
          bios := bios[1..];
          nbytes := bio.size;
          var _ := BioEndio(bio, nbytes, error);
          nextIdx, bioBytes := 0, 0;
          if bios != [] { ScanStart(bios[0], nr - nbytes); }
        } else {
          ScanNext(bio, nextIdx, bioBytes, nr);
          var idx := bio.idx + nextIdx;
          if idx >= |bio.vecs| {
            // "bio idx >= vcnt"
            assert false;
            break;
          }
          nbytes := bio.vecs[idx].len;
          if nbytes > nr {
            bioBytes := bioBytes + nr;
            total := total + nr;
            return;
          }
          nextIdx := nextIdx + 1;
          bioBytes := bioBytes + nbytes;
        }
        total := total + nbytes;
        nr := nr - nbytes;
        if bios != [] && nr <= 0 {
          ScanFacts(bios[0], nextIdx, bioBytes, nr);
          return;
        }
      }
      NothingLeft(old(View()), nrBytes, error, ended, nr);
    }

    method UpdateRequest(error: int, nrBytes: nat) returns (more: bool)
      requires GoodRq(View())
      modifies this
      ensures (more, View()) == Update(old(View()), nrBytes, error)
      ensures GoodRq(View()) && more == (nrBytes < old(dataLen))
    {
      hide GoodBio; hide EndBio; hide Rest; hide EndedBy; hide AdvanceBio; hide Scanned; hide Length;
      UpdateGood(View(), nrBytes, error);
      if bios == [] { return false; }
      var nr, total, bioBytes, nextIdx := Pass(error, nrBytes);
      if bios == [] {
        AllDone(old(View()), nrBytes, error, ended);
        dataLen := 0;
        return false;
      }
      HeadAdvances(old(View()), nrBytes, error, bios, ended, bioBytes);
      if bioBytes > 0 {
        CutHead(error, bioBytes, nextIdx, nr);
      }
      dataLen := dataLen - total;
      sector := sector + total / 512;
      HeadGood(bios);
      FirstVector(bios);
      if dataLen < bios[0].vecs[bios[0].idx].len {
        // "request botched"
        assert false;
      }
      return true;
    }
  }

  lemma HeadGood(bios: seq<Bio>)
    requires GoodChain(bios) && bios != []
    ensures bios[0].idx < |bios[0].vecs|
  {}

  lemma NothingLeft(r: Rq, n: nat, error: int, ended: seq<Ended>, left: nat)
    requires OnTheWay(r, n, error, [], ended, left)
    ensures OnTheWay(r, n, error, [], ended, 0)
  {}

  lemma AllDone(r: Rq, n: nat, error: int, ended: seq<Ended>)
    requires OnTheWay(r, n, error, [], ended, 0)
    ensures Rest(r.bios, n, error) == [] && ended == r.ended + EndedBy(r.bios, n, error)
  {}

  /** The chain is done up to its head. */
  lemma HeadAdvances(r: Rq, n: nat, error: int, bios: seq<Bio>, ended: seq<Ended>, left: nat)
    requires OnTheWay(r, n, error, bios, ended, left) && bios != [] && left < bios[0].size
    ensures GoodBio(bios[0]) && ended == r.ended + EndedBy(r.bios, n, error)
    ensures Rest(r.bios, n, error) == if left == 0 then bios else [AdvanceBio(bios[0], left, error)] + bios[1..]
  {}

  lemma Entry(r: Rq, n: nat, error: int)
    requires GoodChain(r.bios)
    ensures OnTheWay(r, n, error, r.bios, r.ended, n)
  {}

  lemma ScanFacts(b: Bio, k: nat, done: nat, nr: nat)
    requires Scanned(b, k, done, nr)
    ensures GoodBio(b) && b.size > 0 && b.idx + k <= |b.vecs|
    ensures (done > 0 ==> done + nr < b.size) && (k == 0 <==> done == 0)
    ensures nr == 0 && done < b.size ==> b.idx + k < |b.vecs| && b.vecs[b.idx + k].len > 0
  {}
}
