/** With which status a bio ends, and where it stands meanwhile, told by the bytes that each call completed. */
module CompletionStatus {
  import opened Completion

  function Total(calls: seq<Call>): nat { if calls == [] then 0 else calls[0].n + Total(calls[1..]) }

  /** The error with which the byte at `p` was completed. */
  function ErrorAt(calls: seq<Call>, p: nat): int
    requires p < Total(calls)
  {
    if p < calls[0].n then calls[0].error else ErrorAt(calls[1..], p - calls[0].n)
  }

  ghost predicate NoError(calls: seq<Call>, a: nat, b: nat)
    requires b <= Total(calls)
  {
    forall p :: a <= p < b ==> ErrorAt(calls, p) == 0
  }

  /**
    The status of the bio at the bytes from `a` to `b`: the error of its last byte, or an I/O error if an
    earlier one, or something before, has failed.
   */
  ghost function Status(uptodate: bool, a: nat, b: nat, calls: seq<Call>): int
    requires a < b <= Total(calls)
  {
    var last := ErrorAt(calls, b - 1);
    if last != 0 then last else if uptodate && NoError(calls, a, b) then 0 else -EIO
  }

  /** Where bio `k` starts in the request. */
  function Start(bios: seq<Bio>, k: nat): nat
    requires k <= |bios|
  {
    Sizes(bios[..k])
  }

  lemma {:induction false} SizesCat(a: seq<Bio>, b: seq<Bio>)
    ensures Sizes(a + b) == Sizes(a) + Sizes(b)
  {
    if a == [] {
      assert a + b == b;
    } else {
      assert (a + b)[1..] == a[1..] + b;
      SizesCat(a[1..], b);
    }
  }

  lemma StartNext(bios: seq<Bio>, k: nat)
    requires k < |bios|
    ensures Start(bios, k + 1) == Start(bios, k) + bios[k].size
  {
    assert bios[..k + 1] == bios[..k] + [bios[k]];
    SizesCat(bios[..k], [bios[k]]);
    assert [bios[k]][1..] == [];
  }

  lemma StartTail(bios: seq<Bio>, k: nat)
    requires 0 < k <= |bios|
    ensures Start(bios, k) == bios[0].size + Start(bios[1..], k - 1)
  {
    assert bios[..k][1..] == bios[1..][..k - 1];
  }

  /** What one call leaves: the bios behind its last byte, of which it may have cut the first. */
  ghost predicate Leaves(bios: seq<Bio>, n: nat, error: int, k: nat, rest: seq<Bio>)
    requires GoodChain(bios)
  {
    && k + |rest| == |bios| && Start(bios, k) <= n
    && (k < |bios| ==> n < Start(bios, k) + bios[k].size)
    && (forall i :: 0 < i < |rest| ==> rest[i] == bios[k + i])
    && (rest != [] ==>
          rest[0] == if n == Start(bios, k) then bios[k] else AdvanceBio(bios[k], n - Start(bios, k), error))
  }

  lemma LeavesTail(bios: seq<Bio>, n: nat, error: int, k: nat, rest: seq<Bio>)
    requires GoodChain(bios) && bios != [] && n >= bios[0].size
    requires Leaves(bios[1..], n - bios[0].size, error, k, rest)
    ensures Leaves(bios, n, error, k + 1, rest)
  {
    hide AdvanceBio; hide GoodBio;
    StartTail(bios, k + 1);
  }

  lemma LeavesHead(bios: seq<Bio>, n: nat, error: int)
    requires GoodChain(bios) && bios != [] && n < bios[0].size
    ensures Leaves(bios, n, error, 0, Rest(bios, n, error)) && EndedBy(bios, n, error) == []
  {
    hide AdvanceBio; hide GoodBio;
    assert bios[..0] == [];
  }

  lemma {:induction false} RestLeaves(bios: seq<Bio>, n: nat, error: int)
    requires GoodChain(bios)
    ensures Leaves(bios, n, error, |EndedBy(bios, n, error)|, Rest(bios, n, error))
    decreases |bios|
  {
    hide EndBio; hide GoodBio;
    if bios == [] {
      EndedNone(n, error);
    } else if n < bios[0].size {
      LeavesHead(bios, n, error);
    } else {
      hide Leaves;
      RestStep(bios, n, error);
      RestLeaves(bios[1..], n - bios[0].size, error);
      LeavesTail(bios, n, error, |EndedBy(bios[1..], n - bios[0].size, error)|, Rest(bios, n, error));
    }
  }

  // The first call of a run

  lemma ErrorFirst(calls: seq<Call>, p: nat)
    requires calls != [] && p < Total(calls)
    ensures p < calls[0].n ==> ErrorAt(calls, p) == calls[0].error
    ensures p >= calls[0].n ==> ErrorAt(calls, p) == ErrorAt(calls[1..], p - calls[0].n)
  {}

  /** The first call ends the bio. */
  lemma StatusNow(b: Bio, a: nat, calls: seq<Call>)
    requires calls != [] && b.size > 0 && a + b.size <= calls[0].n
    ensures a + b.size <= Total(calls) && EndBio(b, calls[0].error).error == Status(b.uptodate, a, a + b.size, calls)
  {
    assert forall p :: a <= p < a + b.size ==> ErrorAt(calls, p) == calls[0].error;
    assert ErrorAt(calls, a) == calls[0].error;
  }

  lemma NoErrorLater(calls: seq<Call>, a: nat, b: nat, a': nat)
    requires calls != [] && a <= b && calls[0].n <= b <= Total(calls)
    requires a' == if a < calls[0].n then 0 else a - calls[0].n
    ensures NoError(calls, a, b) <==>
      (a < calls[0].n ==> calls[0].error == 0) && NoError(calls[1..], a', b - calls[0].n)
  {
    var n := calls[0].n;
    if NoError(calls, a, b) {
      if a < n { ErrorFirst(calls, a); }
      forall p | a' <= p < b - n ensures ErrorAt(calls[1..], p) == 0 { ErrorFirst(calls, p + n); }
    }
    if (a < n ==> calls[0].error == 0) && NoError(calls[1..], a', b - n) {
      forall p | a <= p < b ensures ErrorAt(calls, p) == 0 { ErrorFirst(calls, p); }
    }
  }

  /** A later call ends the bio; what the first call does to it is remembered. */
  lemma StatusLater(up: bool, a: nat, b: nat, calls: seq<Call>, up': bool, a': nat)
    requires calls != [] && a < b <= Total(calls) && calls[0].n < b
    requires a' == if a < calls[0].n then 0 else a - calls[0].n
    requires up' == (up && (a < calls[0].n ==> calls[0].error == 0))
    ensures Status(up, a, b, calls) == Status(up', a', b - calls[0].n, calls[1..])
  {
    hide NoError; hide ErrorAt;
    ErrorFirst(calls, b - 1);
    NoErrorLater(calls, a, b, a');
  }

  // Every run

  /** The bio is ended exactly if the calls cover it, in its place and with the status of its bytes. */
  ghost predicate EndedAs(r: Rq, calls: seq<Call>, s: Rq, j: nat)
    requires j < |r.bios|
  {
    var a, b := Start(r.bios, j), Start(r.bios, j) + r.bios[j].size;
    if b <= Total(calls) then
      && |r.ended| + j < |s.ended|
      && (a < b ==> s.ended[|r.ended| + j] == Ended(r.bios[j].id, Status(r.bios[j].uptodate, a, b, calls)))
    else |s.ended| <= |r.ended| + j
  }

  /** One call, as the position of its last byte says. */
  lemma UpdateLeaves(r: Rq, n: nat, error: int)
    requires GoodRq(r)
    ensures var s := Update(r, n, error).1; var k := |s.ended| - |r.ended|;
      && 0 <= k <= |r.bios| && Leaves(r.bios, n, error, k, s.bios) && r.ended <= s.ended
      && forall i :: 0 <= i < k ==> s.ended[|r.ended| + i] == EndBio(r.bios[i], error)
  {
    hide Rest; hide EndedBy; hide Leaves;
    RestLeaves(r.bios, n, error);
    EndOnceInOrder(r.bios, n, error);
    LeftOver(r.bios, n, error);
    EndedNone(n, error);
  }

  lemma {:induction false} StartGrows(bios: seq<Bio>, j: nat, k: nat)
    requires j < k <= |bios|
    ensures Start(bios, j) + bios[j].size <= Start(bios, k)
    decreases k - j
  {
    StartNext(bios, k - 1);
    if j < k - 1 { StartGrows(bios, j, k - 1); }
  }

  lemma LeavesFirst(bios: seq<Bio>, n: nat, error: int, k: nat, rest: seq<Bio>)
    requires GoodChain(bios) && Leaves(bios, n, error, k, rest) && rest != []
    ensures Start(bios, k) + bios[k].size == n + rest[0].size
  {
    hide Trim; hide GoodBio;
  }

  /** The bios that a call leaves start where they did, counted from its last byte. */
  lemma {:induction false} StartShifts(bios: seq<Bio>, n: nat, error: int, k: nat, rest: seq<Bio>, i: nat)
    requires GoodChain(bios) && Leaves(bios, n, error, k, rest) && i < |rest|
    ensures i > 0 ==> Start(bios, k + i) == n + Start(rest, i)
    ensures Start(bios, k + i) + bios[k + i].size == n + Start(rest, i) + rest[i].size
    decreases i
  {
    hide AdvanceBio; hide GoodBio;
    assert rest[..0] == [];
    if i == 0 {
      LeavesFirst(bios, n, error, k, rest);
    } else {
      StartShifts(bios, n, error, k, rest, i - 1);
      StartNext(bios, k + i - 1);
      StartNext(rest, i - 1);
    }
  }

  /** A bio that the first call does not end, `b` as it was and `c` as the call has left it. */
  ghost predicate Goes(b: Bio, a: nat, c: Bio, a': nat, calls: seq<Call>) {
    && calls != [] && 0 < b.size && 0 < c.size && c.id == b.id && a + b.size == a' + c.size + calls[0].n
    && (a + b.size <= Total(calls) ==>
          Status(b.uptodate, a, a + b.size, calls) == Status(c.uptodate, a', a' + c.size, calls[1..]))
  }

  lemma LeftStatus(bios: seq<Bio>, k: nat, rest: seq<Bio>, i: nat, calls: seq<Call>)
    requires calls != [] && GoodChain(bios) && Leaves(bios, calls[0].n, calls[0].error, k, rest) && i < |rest|
    ensures Goes(bios[k + i], Start(bios, k + i), rest[i], Start(rest, i), calls)
  {
    hide Status; hide GoodBio;
    var n := calls[0].n;
    GoodSize(bios[k + i]);
    StartShifts(bios, n, calls[0].error, k, rest, i);
    assert rest[..0] == [];
    if i > 0 { StartGrows(bios, k, k + i); }
    var a, b := Start(bios, k + i), Start(bios, k + i) + bios[k + i].size;
    if b <= Total(calls) {
      StatusLater(bios[k + i].uptodate, a, b, calls, rest[i].uptodate, Start(rest, i));
    }
  }

  /**
    Over every run of calls, a bio is ended exactly if its bytes are completed, in its place in the chain, with the
    error of its last byte, or EIO if only earlier bytes of it have failed.
   */
  lemma {:induction false} RunStatus(r: Rq, calls: seq<Call>, j: nat)
    requires GoodRq(r) && j < |r.bios|
    ensures EndedAs(r, calls, Completed(r, calls), j)
    decreases |calls|
  {
    hide Update; hide Leaves; hide Status; hide GoodBio;
    GoodSize(r.bios[j]);
    if calls != [] {
      var n, error := calls[0].n, calls[0].error;
      UpdateGood(r, n, error);
      UpdateLeaves(r, n, error);
      var s1, s := Update(r, n, error).1, Completed(r, calls);
      var k := |s1.ended| - |r.ended|;
      RunsEndInOrder(s1, calls[1..]);
      if j < k {
        EndsNow(r, calls, s1, k, j);
        assert s.ended[|r.ended| + j] == s.ended[..|s1.ended|][|r.ended| + j];
      } else {
        LeavesCount(r.bios, n, error, k, s1.bios);
        LeftStatus(r.bios, k, s1.bios, j - k, calls);
        RunStatus(s1, calls[1..], j - k);
      }
    }
  }

  lemma LeavesCount(bios: seq<Bio>, n: nat, error: int, k: nat, rest: seq<Bio>)
    requires GoodChain(bios) && Leaves(bios, n, error, k, rest)
    ensures k + |rest| == |bios| && Start(bios, k) <= n
  {}

  lemma EndsNow(r: Rq, calls: seq<Call>, s1: Rq, k: nat, j: nat)
    requires GoodRq(r) && calls != [] && j < k <= |r.bios| && |s1.ended| == |r.ended| + k
    requires Leaves(r.bios, calls[0].n, calls[0].error, k, s1.bios)
    requires forall i :: 0 <= i < k ==> s1.ended[|r.ended| + i] == EndBio(r.bios[i], calls[0].error)
    ensures EndedAs(r, calls, s1, j)
  {
    hide Status; hide Leaves;
    LeavesCount(r.bios, calls[0].n, calls[0].error, k, s1.bios);
    StartGrows(r.bios, j, k);
    GoodSize(r.bios[j]);
    StatusNow(r.bios[j], Start(r.bios, j), calls);
  }

  // Sectors

  /** The sector behind what is left of a bio. */
  function EndSector(b: Bio): nat { b.sector + b.size / 512 }

  /** A cut bio still ends at its sector exactly if the cut is at a sector. */
  lemma AdvanceEnd(b: Bio, n: nat, error: int)
    requires GoodBio(b) && n < b.size && b.size % 512 == 0
    ensures EndSector(AdvanceBio(b, n, error)) == EndSector(b) <==> n % 512 == 0
    ensures n % 512 == 0 ==> AdvanceBio(b, n, error).size % 512 == 0
  {
    hide Trim;
  }

  lemma {:induction false} StartAligned(bios: seq<Bio>, k: nat)
    requires Aligned(bios) && k <= |bios|
    ensures Start(bios, k) % 512 == 0
  {
    if k > 0 {
      StartAligned(bios, k - 1);
      StartNext(bios, k - 1);
    }
  }

  /** The bios that remain are the last ones, and each still ends at its sector. */
  ghost predicate EndsKept(bios: seq<Bio>, rest: seq<Bio>) {
    && |rest| <= |bios| && Aligned(rest)
    && forall i :: 0 <= i < |rest| ==>
         var b := bios[|bios| - |rest| + i]; rest[i].id == b.id && EndSector(rest[i]) == EndSector(b)
  }

  lemma LeavesEnds(bios: seq<Bio>, n: nat, error: int, k: nat, rest: seq<Bio>)
    requires GoodChain(bios) && Aligned(bios) && n % 512 == 0 && Leaves(bios, n, error, k, rest)
    ensures EndsKept(bios, rest)
  {
    hide AdvanceBio; hide GoodBio; hide EndSector;
    StartAligned(bios, k);
    if rest != [] && n != Start(bios, k) {
      AdvanceEnd(bios[k], n - Start(bios, k), error);
      AdvanceId(bios[k], n - Start(bios, k), error);
    }
  }

  lemma AdvanceId(b: Bio, n: nat, error: int)
    requires GoodBio(b) && n < b.size
    ensures AdvanceBio(b, n, error).id == b.id
  {}

  /** Over every run of calls of whole sectors, what is left of each bio ends at the sector where the bio ended. */
  lemma {:induction false} RunsKeepEnds(r: Rq, calls: seq<Call>)
    requires GoodRq(r) && Aligned(r.bios) && forall i :: 0 <= i < |calls| ==> calls[i].n % 512 == 0
    ensures EndsKept(r.bios, Completed(r, calls).bios)
    decreases |calls|
  {
    hide Update; hide GoodBio; hide EndSector; hide Leaves;
    if calls != [] {
      var n, error := calls[0].n, calls[0].error;
      UpdateGood(r, n, error);
      UpdateLeaves(r, n, error);
      var s := Update(r, n, error).1;
      LeavesEnds(r.bios, n, error, |s.ended| - |r.ended|, s.bios);
      RunsKeepEnds(s, calls[1..]);
    }
  }
}
