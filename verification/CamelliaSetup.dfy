/**
  The kernel's Camellia key setup: the subkeys of RFC 3713, from which the
  second and fourth whitening keys are then absorbed into the other subkeys and
  the key additions moved behind the S-layer.
 */
module CamelliaSetup {
  import opened CamelliaWords
  import opened CamelliaCipher

  // Absorbing kw2 and kw4

  /** kw2 as it stands in group `g`, carried across `g` FLINV layers. */
  ghost function Kw2(s: seq<Half>, g: nat): Half
    requires 8 * g + 1 < |s|
  {
    if g == 0 then s[1] else Carry(Kw2(s, g - 1), s[8 * g + 1])
  }

  /** kw4 as it stands in group `g` of `n`, carried back across the FL layers behind it. */
  ghost function Kw4(s: seq<Half>, n: nat, g: nat): Half
    requires g < n && |s| == 8 * n + 2
    decreases n - g
  {
    if g + 1 == n then s[8 * n + 1] else Carry(Kw4(s, n, g + 1), s[8 * g + 8])
  }

  /** Group `g` and the FL keys behind it, once kw2 is absorbed: the even rounds have taken it up. */
  ghost predicate Even(s: seq<Half>, a: seq<Half>, g: nat)
    requires 8 * g + 10 <= |s| == |a|
  {
    var b, k := 8 * g, Kw2(s, g);
    && a[b + 2] == s[b + 2] && a[b + 4] == s[b + 4] && a[b + 6] == s[b + 6]
    && a[b + 3] == Xor(s[b + 3], k) && a[b + 5] == Xor(s[b + 5], k) && a[b + 7] == Xor(s[b + 7], k)
    && a[b + 8] == s[b + 8] && a[b + 9] == s[b + 9]
  }

  /** The FL keys in front of group `g` and the group, once kw4 is absorbed: the odd rounds have taken it up. */
  ghost predicate Odd(s: seq<Half>, n: nat, a: seq<Half>, g: nat)
    requires g < n && |s| == |a| == 8 * n + 2
  {
    var b, k := 8 * g, Kw4(s, n, g);
    && a[b] == s[b] && a[b + 1] == s[b + 1]
    && a[b + 2] == Xor(s[b + 2], k) && a[b + 4] == Xor(s[b + 4], k) && a[b + 6] == Xor(s[b + 6], k)
    && a[b + 3] == s[b + 3] && a[b + 5] == s[b + 5] && a[b + 7] == s[b + 7]
  }

  /** kw2 is absorbed in the first `m` groups. */
  ghost predicate Upto(s: seq<Half>, a: seq<Half>, m: nat)
  {
    && 8 * m + 2 <= |s| == |a|
    && a[0] == s[0]
    && (forall g :: 0 <= g < m ==> Even(s, a, g))
    && (forall i :: 8 * m + 2 <= i < |s| ==> a[i] == s[i])
  }

  /** kw4 is absorbed from group `m` on. */
  ghost predicate Downto(s: seq<Half>, n: nat, a: seq<Half>, m: nat)
  {
    && m <= n && |s| == |a| == 8 * n + 2
    && (forall g :: m <= g < n ==> Odd(s, n, a, g))
    && (forall i :: 0 <= i < 8 * m ==> a[i] == s[i])
    && a[8 * n] == s[8 * n] && a[8 * n + 1] == s[8 * n + 1]
  }

  /** Three every-other entries from `i` on take up `k`. */
  ghost function XorThree(a: seq<Half>, i: nat, k: Half): seq<Half>
    requires i + 4 < |a|
  {
    a[i := Xor(a[i], k)][i + 2 := Xor(a[i + 2], k)][i + 4 := Xor(a[i + 4], k)]
  }

  lemma XorThreeIs(a: seq<Half>, i: nat, k: Half)
    requires i + 4 < |a|
    ensures var a' := XorThree(a, i, k);
            && |a'| == |a| && a'[i] == Xor(a[i], k) && a'[i + 2] == Xor(a[i + 2], k) && a'[i + 4] == Xor(a[i + 4], k)
            && forall j :: 0 <= j < |a| && j != i && j != i + 2 && j != i + 4 ==> a'[j] == a[j]
  {
    hide Xor;
  }

  lemma UptoNext(s: seq<Half>, a: seq<Half>, m: nat)
    requires Upto(s, a, m) && 8 * m + 10 <= |s|
    ensures Upto(s, XorThree(a, 8 * m + 3, Kw2(s, m)), m + 1)
  {
    hide Xor; hide Kw2; hide XorThree;
    var a' := XorThree(a, 8 * m + 3, Kw2(s, m));
    XorThreeIs(a, 8 * m + 3, Kw2(s, m));
    assert Even(s, a', m);
    forall g | 0 <= g < m ensures Even(s, a', g) {
      assert Even(s, a, g);
    }
  }

  lemma DowntoNext(s: seq<Half>, n: nat, a: seq<Half>, m: nat)
    requires Downto(s, n, a, m + 1)
    ensures Downto(s, n, XorThree(a, 8 * m + 2, Kw4(s, n, m)), m)
  {
    hide Xor; hide Kw4; hide XorThree;
    var a' := XorThree(a, 8 * m + 2, Kw4(s, n, m));
    XorThreeIs(a, 8 * m + 2, Kw4(s, n, m));
    assert Odd(s, n, a', m);
    forall g | m < g < n ensures Odd(s, n, a', g) {
      assert Odd(s, n, a, g);
    }
  }

  method AbsorbEven(ghost s: seq<Half>, sub: array<Half>, g: nat)
    requires 8 * g + 10 <= |s| == sub.Length
    requires Upto(s, sub[..], g) && sub[1] == Kw2(s, g)
    modifies sub
    ensures Upto(s, sub[..], g + 1) && sub[1] == Kw2(s, g)
  {
    hide Xor; hide Kw2; hide Upto;
    ghost var a := sub[..];
    var b := 8 * g;
    sub[b + 3] := Xor(sub[b + 3], sub[1]);
    sub[b + 5] := Xor(sub[b + 5], sub[1]);
    sub[b + 7] := Xor(sub[b + 7], sub[1]);
    UptoNext(s, a, g);
    assert sub[..] == XorThree(a, 8 * g + 3, a[1]);
  }

  method CarryKw2(ghost s: seq<Half>, sub: array<Half>, g: nat)
    requires 8 * g + 10 < sub.Length
    requires Upto(s, sub[..], g + 1) && sub[1] == Kw2(s, g)
    modifies sub
    ensures Upto(s, sub[..], g + 1) && sub[1] == Kw2(s, g + 1)
  {
    hide Xor; hide X; hide AndNot; hide And; hide Rol1;
    var k, w := sub[8 * g + 9], sub[1];
    assert Even(s, sub[..], g);
    ghost var a := sub[..];
    w := Half(X(w.l, AndNot(w.r, k.r)), w.r);
    var dw := And(w.l, k.l);
    w := Half(w.l, X(w.r, Rol1(dw)));
    sub[1] := w;
    UptoSkip(s, a, sub[..], g + 1);
  }

  /** Entry 1 is not among the absorbed ones. */
  lemma UptoSkip(s: seq<Half>, a: seq<Half>, a': seq<Half>, m: nat)
    requires Upto(s, a, m) && |a'| == |a|
    requires forall i :: 0 <= i < |s| && i != 1 ==> a'[i] == a[i]
    ensures Upto(s, a', m)
  {
    hide Xor; hide Kw2;
    forall g | 0 <= g < m ensures Even(s, a', g) {
      assert Even(s, a, g);
    }
  }

  /** kw2 is absorbed in every group and in kw3. */
  ghost predicate Absorbed2(s: seq<Half>, n: nat, a: seq<Half>)
  {
    && 1 <= n && |s| == |a| == 8 * n + 2
    && a[0] == s[0] && a[8 * n] == Xor(s[8 * n], Kw2(s, n - 1)) && a[8 * n + 1] == s[8 * n + 1]
    && (forall g :: 0 <= g < n ==> EvenRounds(s, a, g))
    && FlKeys(s, a, n)
  }

  ghost predicate EvenRounds(s: seq<Half>, a: seq<Half>, g: nat)
    requires 8 * g + 8 <= |s| == |a|
  {
    var b, k := 8 * g, Kw2(s, g);
    && a[b + 2] == s[b + 2] && a[b + 4] == s[b + 4] && a[b + 6] == s[b + 6]
    && a[b + 3] == Xor(s[b + 3], k) && a[b + 5] == Xor(s[b + 5], k) && a[b + 7] == Xor(s[b + 7], k)
  }

  /** kw4 is absorbed in every group and in kw1. */
  ghost predicate Absorbed4(s: seq<Half>, n: nat, a: seq<Half>)
  {
    && 1 <= n && |s| == |a| == 8 * n + 2
    && a[0] == Xor(s[0], Kw4(s, n, 0)) && a[8 * n] == s[8 * n]
    && (forall g :: 0 <= g < n ==> OddRounds(s, n, a, g))
    && FlKeys(s, a, n)
  }

  ghost predicate OddRounds(s: seq<Half>, n: nat, a: seq<Half>, g: nat)
    requires g < n && |s| == |a| == 8 * n + 2
  {
    var b, k := 8 * g, Kw4(s, n, g);
    && a[b + 2] == Xor(s[b + 2], k) && a[b + 4] == Xor(s[b + 4], k) && a[b + 6] == Xor(s[b + 6], k)
    && a[b + 3] == s[b + 3] && a[b + 5] == s[b + 5] && a[b + 7] == s[b + 7]
  }

  ghost predicate FlKeys(s: seq<Half>, a: seq<Half>, n: nat)
    requires 8 * n < |s| && 8 * n < |a|
  {
    forall g {:trigger a[8 * g]} :: 0 < g < n ==> a[8 * g] == s[8 * g] && a[8 * g + 1] == s[8 * g + 1]
  }

  lemma UptoAll(s: seq<Half>, n: nat, a: seq<Half>)
    requires 1 <= n && |s| == 8 * n + 2 && Upto(s, a, n)
    ensures Absorbed2(s, n, a[8 * n := Xor(s[8 * n], Kw2(s, n - 1))])
  {
    hide Xor; hide Kw2;
    var k := Xor(s[8 * n], Kw2(s, n - 1));
    var a' := a[8 * n := k];
    assert forall i :: 0 <= i < |a| && i != 8 * n ==> a'[i] == a[i];
    assert Even(s, a, n - 1);
    forall g | 0 <= g < n ensures EvenRounds(s, a', g) {
      assert Even(s, a, g);
    }
    forall g | 0 < g < n ensures a'[8 * g] == s[8 * g] && a'[8 * g + 1] == s[8 * g + 1] {
      assert Even(s, a, g - 1);
    }
  }

  lemma DowntoAll(s: seq<Half>, n: nat, a: seq<Half>)
    requires 1 <= n && |s| == 8 * n + 2 && Downto(s, n, a, 0)
    ensures Absorbed4(s, n, a[0 := Xor(s[0], Kw4(s, n, 0))])
  {
    hide Xor; hide Kw4;
    var a' := a[0 := Xor(s[0], Kw4(s, n, 0))];
    forall g | 0 <= g < n ensures OddRounds(s, n, a', g) {
      assert Odd(s, n, a, g);
    }
    forall g | 0 < g < n ensures a'[8 * g] == s[8 * g] && a'[8 * g + 1] == s[8 * g + 1] {
      assert Odd(s, n, a, g);
    }
  }

  method AbsorbKw2(sub: array<Half>, max: nat)
    requires (max == 24 || max == 32) && sub.Length == max + 2
    modifies sub
    ensures Absorbed2(old(sub[..]), max / 8, sub[..])
  {
    hide Xor; hide Kw2; hide Even;
    ghost var s := sub[..];
    Kw2Base(s);
    AbsorbEven(s, sub, 0);
    CarryKw2(s, sub, 0);
    AbsorbEven(s, sub, 1);
    CarryKw2(s, sub, 1);
    AbsorbEven(s, sub, 2);
    ghost var a := sub[..];
    if max == 24 {
      Kw3Untouched(s, a, 3);
      sub[24] := Xor(sub[24], sub[1]);
    } else {
      CarryKw2(s, sub, 2);
      AbsorbEven(s, sub, 3);
      a := sub[..];
      Kw3Untouched(s, a, 4);
      sub[32] := Xor(sub[32], sub[1]);
    }
    assert sub[..] == a[max := Xor(s[max], Kw2(s, max / 8 - 1))];
    UptoAll(s, max / 8, a);
  }

  lemma Kw3Untouched(s: seq<Half>, a: seq<Half>, n: nat)
    requires 1 <= n && |s| == 8 * n + 2 && Upto(s, a, n)
    ensures a[8 * n] == s[8 * n]
  {
    hide Xor; hide Kw2;
    assert Even(s, a, n - 1);
  }

  lemma Kw2Base(s: seq<Half>)
    requires 2 <= |s|
    ensures Kw2(s, 0) == s[1]
  {}

  method AbsorbOdd(ghost s: seq<Half>, sub: array<Half>, g: nat, ghost n: nat, kw4: Half)
    requires g < n && |s| == sub.Length == 8 * n + 2
    requires Downto(s, n, sub[..], g + 1) && kw4 == Kw4(s, n, g)
    modifies sub
    ensures Downto(s, n, sub[..], g)
  {
    hide Xor; hide Kw4; hide Downto;
    ghost var a := sub[..];
    var b := 8 * g;
    sub[b + 6] := Xor(sub[b + 6], kw4);
    sub[b + 4] := Xor(sub[b + 4], kw4);
    sub[b + 2] := Xor(sub[b + 2], kw4);
    DowntoNext(s, n, a, g);
    assert sub[..] == XorThree(a, 8 * g + 2, kw4);
  }

  method CarryKw4(ghost s: seq<Half>, ghost n: nat, kw4: Half, k: Half, ghost g: nat) returns (w: Half)
    requires |s| == 8 * n + 2 && g + 1 < n && k == s[8 * g + 8] && kw4 == Kw4(s, n, g + 1)
    ensures w == Kw4(s, n, g)
  {
    hide X; hide AndNot; hide And; hide Rol1;
    w := Half(X(kw4.l, AndNot(kw4.r, k.r)), kw4.r);
    var dw := And(w.l, k.l);
    w := Half(w.l, X(w.r, Rol1(dw)));
  }

  method AbsorbKw4(sub: array<Half>, max: nat)
    requires (max == 24 || max == 32) && sub.Length == max + 2
    modifies sub
    ensures Absorbed4(old(sub[..]), max / 8, sub[..])
  {
    hide Xor; hide Kw4; hide Downto;
    ghost var s, n := sub[..], max / 8;
    Kw4Base(s, n);
    var kw4;
    if max == 24 {
      kw4 := sub[25];
    } else {
      kw4 := sub[33];
      AbsorbOdd(s, sub, 3, n, kw4);
      FlKept(s, n, sub[..], 3);
      kw4 := CarryKw4(s, n, kw4, sub[24], 2);
    }
    AbsorbOdd(s, sub, 2, n, kw4);
    FlKept(s, n, sub[..], 2);
    kw4 := CarryKw4(s, n, kw4, sub[16], 1);
    AbsorbOdd(s, sub, 1, n, kw4);
    FlKept(s, n, sub[..], 1);
    kw4 := CarryKw4(s, n, kw4, sub[8], 0);
    AbsorbOdd(s, sub, 0, n, kw4);
    FlKept(s, n, sub[..], 0);
    ghost var a := sub[..];
    sub[0] := Xor(sub[0], kw4);
    assert sub[..] == a[0 := Xor(s[0], Kw4(s, n, 0))];
    DowntoAll(s, n, a);
  }

  lemma FlKept(s: seq<Half>, n: nat, a: seq<Half>, m: nat)
    requires m < n && |s| == 8 * n + 2 && Downto(s, n, a, m)
    ensures |a| == |s| && a[8 * m] == s[8 * m]
  {
    hide Xor; hide Kw4;
    assert Odd(s, n, a, m);
  }

  lemma Kw4Base(s: seq<Half>, n: nat)
    requires 1 <= n && |s| == 8 * n + 2
    ensures Kw4(s, n, n - 1) == s[8 * n + 1]
    ensures Downto(s, n, s, n)
  {}


  /** Both whitening keys are absorbed. */
  ghost predicate Absorbed(s: seq<Half>, n: nat, a: seq<Half>)
  {
    && 1 <= n && |s| == |a| == 8 * n + 2
    && a[0] == Xor(s[0], Kw4(s, n, 0))
    && a[8 * n] == Xor(s[8 * n], Kw2(s, n - 1))
    && (forall g :: 0 <= g < n ==> AbsorbedGroup(s, n, a, g))
    && FlKeys(s, a, n)
  }

  ghost predicate AbsorbedGroup(s: seq<Half>, n: nat, a: seq<Half>, g: nat)
    requires g < n && |s| == |a| == 8 * n + 2
  {
    var b, c, d := 8 * g, Kw2(s, g), Kw4(s, n, g);
    && a[b + 2] == Xor(s[b + 2], d) && a[b + 4] == Xor(s[b + 4], d) && a[b + 6] == Xor(s[b + 6], d)
    && a[b + 3] == Xor(s[b + 3], c) && a[b + 5] == Xor(s[b + 5], c) && a[b + 7] == Xor(s[b + 7], c)
  }

  /** kw4 meets only FL keys on its way, and absorbing kw2 leaves those alone. */
  lemma {:induction false} Kw4Agrees(s: seq<Half>, n: nat, a: seq<Half>, g: nat)
    requires g < n && |s| == |a| == 8 * n + 2 && a[8 * n + 1] == s[8 * n + 1] && FlKeys(s, a, n)
    ensures Kw4(a, n, g) == Kw4(s, n, g)
    decreases n - g
  {
    hide Carry;
    if g + 1 < n {
      Kw4Agrees(s, n, a, g + 1);
      assert a[8 * (g + 1)] == s[8 * (g + 1)];
    }
  }

  lemma BothAbsorbed(s: seq<Half>, n: nat, a: seq<Half>, c: seq<Half>)
    requires Absorbed2(s, n, a) && Absorbed4(a, n, c)
    ensures Absorbed(s, n, c)
  {
    hide Xor; hide Kw2; hide Kw4;
    forall g | 0 <= g < n ensures AbsorbedGroup(s, n, c, g) {
      Kw4Agrees(s, n, a, g);
      assert EvenRounds(s, a, g) && OddRounds(a, n, c, g);
    }
    forall g | 0 < g < n ensures c[8 * g] == s[8 * g] && c[8 * g + 1] == s[8 * g + 1] {
      assert a[8 * g] == s[8 * g];
    }
    Kw4Agrees(s, n, a, 0);
  }

  // Moving the key addition to the end of the F-function

  /** What the rounds of group `g` add, before the inverse of P. */
  ghost predicate Stored(s: seq<Half>, n: nat, u: seq<Half>, g: nat)
    requires g < n && |s| == 8 * n + 2 && 8 * n < |u|
  {
    var b := 8 * g;
    && RoundKeys(s, n, g, u[b + 2], u[b + 3], u[b + 4], u[b + 5], u[b + 6], u[b + 7])
    && (g + 1 < n ==> u[b + 8] == s[b + 8] && u[b + 9] == s[b + 9])
  }

  ghost predicate StoredUpto(s: seq<Half>, n: nat, u: seq<Half>, m: nat)
  {
    && 1 <= n && m <= n && |s| == 8 * n + 2 && 8 * n < |u|
    && u[0] == Xor(s[0], s[2])
    && forall g :: 0 <= g < m ==> Stored(s, n, u, g)
  }

  /** The absorbed keys cancel: only the RFC subkeys remain in what a round adds. */
  lemma AbsorbedCancels(s: seq<Half>, n: nat, a: seq<Half>, g: nat)
    requires Absorbed(s, n, a) && g < n
    ensures var b := 8 * g;
            var first := if g == 0 then a[3] else Xor(Carry(a[b - 1], a[b + 1]), a[b + 3]);
            var last := if g + 1 == n then a[b + 6] else Xor(a[b + 6], Carry(a[b + 10], a[b + 8]));
            RoundKeys(s, n, g, first, Xor(a[b + 2], a[b + 4]), Xor(a[b + 3], a[b + 5]),
                      Xor(a[b + 4], a[b + 6]), Xor(a[b + 5], a[b + 7]), last)
  {
    hide Xor; hide Carry;
    var b, c, d := 8 * g, Kw2(s, g), Kw4(s, n, g);
    assert AbsorbedGroup(s, n, a, g);
    XorSame(s[b + 2], s[b + 4], d);
    XorSame(s[b + 3], s[b + 5], c);
    XorSame(s[b + 4], s[b + 6], d);
    XorSame(s[b + 5], s[b + 7], c);
    if g == 0 {
      XorComm(s[3], s[1]);
    } else {
      assert AbsorbedGroup(s, n, a, g - 1);
      assert a[8 * g] == s[8 * g];
      CarryLinear(s[b - 1], Kw2(s, g - 1), s[b + 1]);
      XorSame(Carry(s[b - 1], s[b + 1]), s[b + 3], c);
    }
    if g + 1 < n {
      assert AbsorbedGroup(s, n, a, g + 1);
      assert a[8 * (g + 1)] == s[8 * (g + 1)];
      CarryLinear(s[b + 10], Kw4(s, n, g + 1), s[b + 8]);
      XorSame(s[b + 6], Carry(s[b + 10], s[b + 8]), d);
    }
  }

  method StoreInner(sub: array<Half>, subkey: array<Half>, b: nat)
    requires sub != subkey && b + 8 <= sub.Length && b + 8 <= subkey.Length
    modifies subkey
    ensures subkey[b + 3] == Xor(sub[b + 2], sub[b + 4])
    ensures subkey[b + 4] == Xor(sub[b + 3], sub[b + 5])
    ensures subkey[b + 5] == Xor(sub[b + 4], sub[b + 6])
    ensures subkey[b + 6] == Xor(sub[b + 5], sub[b + 7])
    ensures forall i :: 0 <= i < subkey.Length && !(b + 3 <= i < b + 7) ==> subkey[i] == old(subkey[i])
  {
    hide Xor;
    subkey[b + 3] := Xor(sub[b + 2], sub[b + 4]);
    subkey[b + 4] := Xor(sub[b + 3], sub[b + 5]);
    subkey[b + 5] := Xor(sub[b + 4], sub[b + 6]);
    subkey[b + 6] := Xor(sub[b + 5], sub[b + 7]);
  }

  method StoreCrossing(sub: array<Half>, subkey: array<Half>, b: nat)
    requires sub != subkey && b + 10 < sub.Length && b + 10 <= subkey.Length
    modifies subkey
    ensures subkey[b + 7] == Xor(sub[b + 6], Carry(sub[b + 10], sub[b + 8]))
    ensures subkey[b + 8] == sub[b + 8] && subkey[b + 9] == sub[b + 9]
    ensures forall i :: 0 <= i < subkey.Length && !(b + 7 <= i < b + 10) ==> subkey[i] == old(subkey[i])
  {
    hide Xor; hide Carry;
    var t := Carry(sub[b + 10], sub[b + 8]);
    subkey[b + 7] := Xor(sub[b + 6], t);
    subkey[b + 8] := sub[b + 8];
    subkey[b + 9] := sub[b + 9];
  }

  method StoreGroup(sub: array<Half>, subkey: array<Half>, g: nat, n: nat)
    requires g < n && sub != subkey && sub.Length == 8 * n + 2 && 8 * n < subkey.Length
    modifies subkey
    ensures var b := 8 * g;
            && subkey[b + 2] == (if g == 0 then sub[3] else Xor(Carry(sub[b - 1], sub[b + 1]), sub[b + 3]))
            && subkey[b + 3] == Xor(sub[b + 2], sub[b + 4])
            && subkey[b + 4] == Xor(sub[b + 3], sub[b + 5])
            && subkey[b + 5] == Xor(sub[b + 4], sub[b + 6])
            && subkey[b + 6] == Xor(sub[b + 5], sub[b + 7])
            && subkey[b + 7] == (if g + 1 == n then sub[b + 6] else Xor(sub[b + 6], Carry(sub[b + 10], sub[b + 8])))
            && (g + 1 < n ==> subkey[b + 8] == sub[b + 8] && subkey[b + 9] == sub[b + 9])
    ensures forall i :: 0 <= i < subkey.Length && !(8 * g + 2 <= i < 8 * g + 10) ==> subkey[i] == old(subkey[i])
  {
    hide Xor; hide Carry;
    var b := 8 * g;
    if g == 0 {
      subkey[2] := sub[3];
    } else {
      var t := Carry(sub[b - 1], sub[b + 1]);
      subkey[b + 2] := Xor(t, sub[b + 3]);
    }
    StoreInner(sub, subkey, b);
    if g + 1 == n {
      subkey[b + 7] := sub[b + 6];
    } else {
      StoreCrossing(sub, subkey, b);
    }
  }

  lemma StoredNext(s: seq<Half>, n: nat, u: seq<Half>, u': seq<Half>, g: nat)
    requires StoredUpto(s, n, u, g) && g < n && |u| == |u'|
    requires Stored(s, n, u', g)
    requires forall i :: 0 <= i < |u| && !(8 * g + 2 <= i < 8 * g + 10) ==> u'[i] == u[i]
    ensures StoredUpto(s, n, u', g + 1)
  {
    hide Xor; hide RoundKeys;
    forall h | 0 <= h < g ensures Stored(s, n, u', h) {
      assert Stored(s, n, u, h);
    }
  }

  /** Stores one more group and relates what is stored to the RFC subkeys. */
  method StoreNext(ghost s: seq<Half>, sub: array<Half>, subkey: array<Half>, g: nat, n: nat)
    requires g < n && sub != subkey && sub.Length == 8 * n + 2 && 8 * n < subkey.Length
    requires |s| == 8 * n + 2 && Absorbed(s, n, sub[..]) && StoredUpto(s, n, subkey[..], g)
    modifies subkey
    ensures StoredUpto(s, n, subkey[..], g + 1)
  {
    hide Xor; hide Carry; hide RoundKeys; hide StoredUpto; hide AbsorbedGroup;
    ghost var u := subkey[..];
    AbsorbedCancels(s, n, sub[..], g);
    assert g + 1 < n ==> sub[8 * (g + 1)] == s[8 * (g + 1)];
    StoreGroup(sub, subkey, g, n);
    StoredNext(s, n, u, subkey[..], g);
  }

  ghost predicate SixUnmixed(u: seq<Half>, v: seq<Half>, i: nat)
    requires i + 6 <= |u| == |v|
  {
    && v[i] == Unmix(u[i]) && v[i + 1] == Unmix(u[i + 1]) && v[i + 2] == Unmix(u[i + 2])
    && v[i + 3] == Unmix(u[i + 3]) && v[i + 4] == Unmix(u[i + 4]) && v[i + 5] == Unmix(u[i + 5])
  }

  /** The six statements of the loop body below. */
  method UnmixSix(subkey: array<Half>, i: nat)
    requires i + 6 <= subkey.Length
    modifies subkey
    ensures SixUnmixed(old(subkey[..]), subkey[..], i)
    ensures forall j :: 0 <= j < subkey.Length && !(i <= j < i + 6) ==> subkey[j] == old(subkey[j])
  {
    hide Unmix;
    subkey[i] := Unmix(subkey[i]);
    subkey[i + 1] := Unmix(subkey[i + 1]);
    subkey[i + 2] := Unmix(subkey[i + 2]);
    subkey[i + 3] := Unmix(subkey[i + 3]);
    subkey[i + 4] := Unmix(subkey[i + 4]);
    subkey[i + 5] := Unmix(subkey[i + 5]);
  }

  /** The first `m` groups have been through the inverse of P. */
  ghost predicate Unmixed(u: seq<Half>, v: seq<Half>, m: nat)
  {
    && |u| == |v| && 8 * m <= |u|
    && (forall g :: 0 <= g < m ==> SixUnmixed(u, v, 8 * g + 2))
    && (forall g {:trigger v[8 * g]} :: 0 <= g < m ==> v[8 * g] == u[8 * g] && v[8 * g + 1] == u[8 * g + 1])
    && (forall j :: 8 * m <= j < |u| ==> v[j] == u[j])
  }

  /** The loop that undoes the last half of P on every round key. */
  method InverseP(subkey: array<Half>, max: nat)
    requires (max == 24 || max == 32) && max < subkey.Length
    modifies subkey
    ensures Unmixed(old(subkey[..]), subkey[..], max / 8)
  {
    hide Unmix;
    ghost var u, m := subkey[..], 0;
    var i := 2;
    while i < max
      invariant i == 8 * m + 2 <= max + 2
      invariant Unmixed(u, subkey[..], m)
    {
      ghost var v := subkey[..];
      UnmixSix(subkey, i);
      UnmixedNext(u, v, subkey[..], m);
      i := i + 8;
      m := m + 1;
    }
  }

  lemma UnmixedNext(u: seq<Half>, v: seq<Half>, v': seq<Half>, m: nat)
    requires Unmixed(u, v, m) && |v'| == |v| && 8 * m + 8 <= |v| && SixUnmixed(v, v', 8 * m + 2)
    requires forall j :: 0 <= j < |v| && !(8 * m + 2 <= j < 8 * m + 8) ==> v'[j] == v[j]
    ensures Unmixed(u, v', m + 1)
  {
    hide Unmix;
    forall g | 0 <= g < m + 1 ensures SixUnmixed(u, v', 8 * g + 2) {
      if g < m {
        assert SixUnmixed(u, v, 8 * g + 2);
      }
    }
    forall g | 0 <= g < m + 1 ensures v'[8 * g] == u[8 * g] && v'[8 * g + 1] == u[8 * g + 1] {
      if g < m {
        assert v[8 * g] == u[8 * g];
      }
    }
  }

  lemma TableFrom(s: seq<Half>, n: nat, u: seq<Half>, v: seq<Half>)
    requires StoredUpto(s, n, u, n) && Unmixed(u, v, n)
    requires u[8 * n] == Xor(s[8 * n], s[8 * n - 1])
    ensures Table(s, n, v)
  {
    hide Xor; hide Mix; hide Unmix; hide RoundKeys;
    forall g | 0 <= g < n ensures GroupTable(s, n, v, g) {
      var b := 8 * g;
      assert Stored(s, n, u, g) && SixUnmixed(u, v, b + 2);
      MixUnmix(u[b + 2]); MixUnmix(u[b + 3]); MixUnmix(u[b + 4]);
      MixUnmix(u[b + 5]); MixUnmix(u[b + 6]); MixUnmix(u[b + 7]);
    }
    assert v[8 * 0] == u[0];
    forall g | 0 < g < n ensures v[8 * g] == s[8 * g] && v[8 * g + 1] == s[8 * g + 1] {
      assert Stored(s, n, u, g - 1);
      assert v[8 * g] == u[8 * g];
    }
  }

  /** For every list of subkeys the tail of the key setup produces the table that the cipher needs. */
  method SetupTail(sub: array<Half>, subkey: array<Half>, max: nat)
    requires (max == 24 || max == 32) && sub != subkey && sub.Length == max + 2 && max < subkey.Length
    modifies sub, subkey
    ensures Table(old(sub[..]), max / 8, subkey[..])
  {
    hide Xor; hide Absorbed2; hide Absorbed4; hide AbsorbedGroup; hide FlKeys; hide Kw2; hide Kw4;
    hide Stored; hide Unmixed; hide Table;
    ghost var s := sub[..];
    var n := max / 8;
    AbsorbKw2(sub, max);
    ghost var a := sub[..];
    AbsorbKw4(sub, max);
    BothAbsorbed(s, n, a, sub[..]);
    assert AbsorbedGroup(s, n, sub[..], 0) && AbsorbedGroup(s, n, sub[..], n - 1);
    EndGroups(s, n, sub[..]);
    subkey[0] := Xor(sub[0], sub[2]);
    StoreNext(s, sub, subkey, 0, n);
    StoreNext(s, sub, subkey, 1, n);
    StoreNext(s, sub, subkey, 2, n);
    if max == 32 {
      StoreNext(s, sub, subkey, 3, n);
    }
    ghost var u := subkey[..];
    subkey[max] := Xor(sub[max], sub[max - 1]);
    StoredKept(s, n, u, subkey[..]);
    u := subkey[..];
    InverseP(subkey, max);
    TableFrom(s, n, u, subkey[..]);
  }

  lemma EndGroups(s: seq<Half>, n: nat, a: seq<Half>)
    requires Absorbed(s, n, a)
    ensures Xor(a[0], a[2]) == Xor(s[0], s[2])
    ensures Xor(a[8 * n], a[8 * n - 1]) == Xor(s[8 * n], s[8 * n - 1])
  {
    hide Xor;
    assert AbsorbedGroup(s, n, a, 0) && AbsorbedGroup(s, n, a, n - 1);
    XorSame(s[0], s[2], Kw4(s, n, 0));
    XorSame(s[8 * n], s[8 * n - 1], Kw2(s, n - 1));
  }

  lemma StoredKept(s: seq<Half>, n: nat, u: seq<Half>, u': seq<Half>)
    requires StoredUpto(s, n, u, n) && |u'| == |u|
    requires forall i :: 0 <= i < 8 * n ==> u'[i] == u[i]
    ensures StoredUpto(s, n, u', n)
  {
    hide Xor; hide RoundKeys;
    forall g | 0 <= g < n ensures Stored(s, n, u', g) {
      assert Stored(s, n, u, g);
    }
  }
}
