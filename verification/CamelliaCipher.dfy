/**
  The kernel's data path: rounds without a key in front of the S-layer, subkeys
  added in the middle of the P-layer, and no second whitening key.

  `Simulation` shows that it computes RFC 3713 whenever the subkey table is the
  one `Table` describes, and `DecryptInverts` that decryption undoes encryption
  for every table. The in-place code of the source is proved against these
  functions in CamelliaCode.dfy.
 */
module CamelliaCipher {
  import opened CamelliaWords
  import opened CamelliaRfc

  // The lookup tables: an S-box output copied into three of the four bytes

  function Sp1110(sb: SBoxes, x: bv8): bv32 { var s := sb.s1(x); Pack(s, s, s, 0) }
  function Sp0222(sb: SBoxes, x: bv8): bv32 { var s := sb.s2(x); Pack(0, s, s, s) }
  function Sp3033(sb: SBoxes, x: bv8): bv32 { var s := sb.s3(x); Pack(s, 0, s, s) }
  function Sp4404(sb: SBoxes, x: bv8): bv32 { var s := sb.s4(x); Pack(s, s, 0, s) }

  /** Table lookups on the left input word. */
  function LookupL(sb: SBoxes, x: bv32): bv32 {
    X(X(X(Sp1110(sb, Byte(x, 3)), Sp0222(sb, Byte(x, 2))), Sp3033(sb, Byte(x, 1))), Sp4404(sb, Byte(x, 0)))
  }

  /** Table lookups on the right input word. */
  function LookupR(sb: SBoxes, x: bv32): bv32 {
    X(X(X(Sp1110(sb, Byte(x, 0)), Sp0222(sb, Byte(x, 3))), Sp3033(sb, Byte(x, 2))), Sp4404(sb, Byte(x, 1)))
  }

  /** The last half of the P-function. */
  function Mix(i: Half): Half {
    var y := X(i.r, i.l);
    Half(y, X(Ror8(i.l), y))
  }

  /** The four bytes that the lookups on one word produce. */
  lemma LookupBytes(s1: bv8, s2: bv8, s3: bv8, s4: bv8)
    ensures X(X(X(Pack(s1, s1, s1, 0), Pack(0, s2, s2, s2)), Pack(s3, 0, s3, s3)), Pack(s4, s4, 0, s4))
         == Pack(Sum3(s1, s3, s4), Sum3(s1, s2, s4), Sum3(s1, s2, s3), Sum3(s2, s3, s4))
  {
    hide X; hide Pack; hide X8;
    PackXor(s1, s1, s1, 0, 0, s2, s2, s2);
    X8Zero(s1); X8Zero(s2);
    PackXor(s1, X8(s1, s2), X8(s1, s2), s2, s3, 0, s3, s3);
    X8Zero(X8(s1, s2));
    PackXor(X8(s1, s3), X8(s1, s2), Sum3(s1, s2, s3), X8(s2, s3), s4, s4, 0, s4);
    X8Zero(Sum3(s1, s2, s3));
  }

  lemma MixBytes(t1: bv8, t2: bv8, t3: bv8, t4: bv8, t5: bv8, t6: bv8, t7: bv8, t8: bv8)
    ensures Mix(Half(Pack(Sum3(t1, t3, t4), Sum3(t1, t2, t4), Sum3(t1, t2, t3), Sum3(t2, t3, t4)),
                     Pack(Sum3(t8, t6, t7), Sum3(t8, t5, t7), Sum3(t8, t5, t6), Sum3(t5, t6, t7))))
         == Half(Pack(Sum6(t1, t3, t4, t6, t7, t8), Sum6(t1, t2, t4, t5, t7, t8),
                      Sum6(t1, t2, t3, t5, t6, t8), Sum6(t2, t3, t4, t5, t6, t7)),
                 Pack(Sum5(t1, t2, t6, t7, t8), Sum5(t2, t3, t5, t7, t8),
                      Sum5(t3, t4, t5, t6, t8), Sum5(t1, t4, t5, t6, t7)))
  {
    hide X; hide Pack; hide Ror8; hide X8; hide Sum3; hide Sum5; hide Sum6;
    Sum3Turn(t6, t7, t8); Sum3Turn(t5, t7, t8); Sum3Turn(t5, t6, t8);
    PackXor(Sum3(t6, t7, t8), Sum3(t5, t7, t8), Sum3(t5, t6, t8), Sum3(t5, t6, t7),
            Sum3(t1, t3, t4), Sum3(t1, t2, t4), Sum3(t1, t2, t3), Sum3(t2, t3, t4));
    SixOfThrees(t1, t3, t4, t6, t7, t8); SixOfThrees(t1, t2, t4, t5, t7, t8);
    SixOfThrees(t1, t2, t3, t5, t6, t8); SixOfThrees(t2, t3, t4, t5, t6, t7);
    PackRor8(Sum3(t1, t3, t4), Sum3(t1, t2, t4), Sum3(t1, t2, t3), Sum3(t2, t3, t4));
    PackXor(Sum3(t2, t3, t4), Sum3(t1, t3, t4), Sum3(t1, t2, t4), Sum3(t1, t2, t3),
            Sum6(t1, t3, t4, t6, t7, t8), Sum6(t1, t2, t4, t5, t7, t8),
            Sum6(t1, t2, t3, t5, t6, t8), Sum6(t2, t3, t4, t5, t6, t7));
    Fifth(t1, t2, t3, t4, t6, t7, t8); Sixth(t1, t2, t3, t4, t5, t7, t8);
    Seventh(t1, t2, t3, t4, t5, t6, t8); Eighth(t1, t2, t3, t4, t5, t6, t7);
  }

  /** Table lookups followed by the last half of P are the S-layer and P-layer of the RFC. */
  lemma TablesAreSubstPerm(sb: SBoxes, x: Half)
    ensures Mix(Half(LookupL(sb, x.l), LookupR(sb, x.r))) == SubstPerm(sb, x)
  {
    hide Mix; hide X; hide Pack; hide Byte; hide Sum3; hide Sum5; hide Sum6;
    var t1, t2, t3, t4 := sb.s1(Byte(x.l, 3)), sb.s2(Byte(x.l, 2)), sb.s3(Byte(x.l, 1)), sb.s4(Byte(x.l, 0));
    var t5, t6, t7, t8 := sb.s2(Byte(x.r, 3)), sb.s3(Byte(x.r, 2)), sb.s4(Byte(x.r, 1)), sb.s1(Byte(x.r, 0));
    LookupBytes(t1, t2, t3, t4);
    LookupBytes(t8, t5, t6, t7);
    MixBytes(t1, t2, t3, t4, t5, t6, t7, t8);
  }

  lemma Ror8Linear(a: bv32, b: bv32)
    ensures Ror8(X(a, b)) == X(Ror8(a), Ror8(b))
  {}

  lemma MixLinear(a: Half, b: Half)
    ensures Mix(Xor(a, b)) == Xor(Mix(a), Mix(b))
  {
    hide X; hide Ror8;
    SwapWords(a.r, b.r, a.l, b.l);
    Ror8Linear(a.l, b.l);
    SwapWords(Ror8(a.l), Ror8(b.l), X(a.r, a.l), X(b.r, b.l));
  }

  function Rol8(x: bv32): bv32 { x.RotateLeft(8) }

  /** What the last loop of the key setup does to one subkey. */
  function Unmix(k: Half): Half {
    var dw := Rol8(X(k.l, k.r));
    Half(dw, X(k.l, dw))
  }

  lemma Ror8Rol8(x: bv32)
    ensures Ror8(Rol8(x)) == x
  {}

  /** That loop applies the inverse of the last half of P. */
  lemma MixUnmix(k: Half)
    ensures Mix(Unmix(k)) == k
  {
    hide X; hide Ror8; hide Rol8;
    XCancel(k.l, Unmix(k).l);
    Ror8Rol8(X(k.l, k.r));
    XComm(k.l, k.r);
    XCancel(k.r, k.l);
  }

  // The data path

  /** One round: `y` is updated from `x` with the table entry `k`. */
  function Round(sb: SBoxes, x: Half, k: Half, y: Half): Half {
    Xor(y, Xor(SubstPerm(sb, x), Mix(k)))
  }

  function TwoSteps(sb: SBoxes, ka: Half, kb: Half, io: Block): Block {
    var d2 := Round(sb, io.d1, ka, io.d2);
    Block(Round(sb, d2, kb, io.d1), d2)
  }

  function SixSteps(sb: SBoxes, t: seq<Half>, i: nat, io: Block): Block
    requires i + 6 <= |t|
  {
    TwoSteps(sb, t[i + 4], t[i + 5], TwoSteps(sb, t[i + 2], t[i + 3], TwoSteps(sb, t[i], t[i + 1], io)))
  }

  function StepGroups(sb: SBoxes, t: seq<Half>, n: nat, io: Block): Block
    requires 1 <= n && 8 * n <= |t|
  {
    if n == 1 then SixSteps(sb, t, 2, io)
    else SixSteps(sb, t, 8 * n - 6, FlLayer(t[8 * n - 8], t[8 * n - 7], StepGroups(sb, t, n - 1, io)))
  }

  /** Encryption of one block; the caller's exchange of the halves is included. */
  function KernelEncrypt(sb: SBoxes, t: seq<Half>, n: nat, m: Block): Block
    requires 1 <= n && 8 * n < |t|
  {
    var d := StepGroups(sb, t, n, Block(Xor(m.d1, t[0]), m.d2));
    Block(Xor(d.d2, t[8 * n]), d.d1)
  }

  // What the subkey table must hold for the RFC subkeys `s`

  /** The difference on the second half when group `g` starts. */
  function Entry(s: seq<Half>, g: nat): Half
    requires 8 * g + 1 < |s|
  {
    if g == 0 then s[1] else Carry(s[8 * g - 1], s[8 * g + 1])
  }

  /** The difference on the first half when group `g` of `n` ends. */
  function Exit(s: seq<Half>, n: nat, g: nat): Half
    requires g < n && |s| == 8 * n + 2
  {
    if g + 1 == n then s[8 * n + 1] else Carry(s[8 * g + 10], s[8 * g + 8])
  }

  /** What the six rounds of group `g` must add to the halves. */
  ghost predicate RoundKeys(s: seq<Half>, n: nat, g: nat, e2: Half, e3: Half, e4: Half, e5: Half, e6: Half, e7: Half)
    requires g < n && |s| == 8 * n + 2
  {
    var b := 8 * g;
    && e2 == Xor(Entry(s, g), s[b + 3])
    && e3 == Xor(s[b + 2], s[b + 4])
    && e4 == Xor(s[b + 3], s[b + 5])
    && e5 == Xor(s[b + 4], s[b + 6])
    && e6 == Xor(s[b + 5], s[b + 7])
    && e7 == Xor(s[b + 6], Exit(s, n, g))
  }

  ghost predicate GroupTable(s: seq<Half>, n: nat, t: seq<Half>, g: nat)
    requires g < n && |s| == 8 * n + 2 && 8 * n < |t|
  {
    var b := 8 * g;
    RoundKeys(s, n, g, Mix(t[b + 2]), Mix(t[b + 3]), Mix(t[b + 4]), Mix(t[b + 5]), Mix(t[b + 6]), Mix(t[b + 7]))
  }

  ghost predicate Table(s: seq<Half>, n: nat, t: seq<Half>)
  {
    && 1 <= n && |s| == 8 * n + 2 && 8 * n < |t|
    && t[0] == Xor(s[0], s[2])
    && t[8 * n] == Xor(s[8 * n], s[8 * n - 1])
    && (forall g :: 0 <= g < n ==> GroupTable(s, n, t, g))
    && (forall g {:trigger t[8 * g]} :: 0 < g < n ==> t[8 * g] == s[8 * g] && t[8 * g + 1] == s[8 * g + 1])
  }

  /** One round of each cipher, from halves that differ by `k` and `q`, to one that differs by `e`. */
  lemma RoundSim(sb: SBoxes, x: Half, y: Half, k: Half, q: Half, e: Half, t: Half)
    requires Mix(t) == Xor(q, e)
    ensures Round(sb, Xor(x, k), t, Xor(y, q)) == Xor(Xor(y, F(sb, x, k)), e)
  {
    hide Xor; hide SubstPerm; hide Mix;
    var f := F(sb, x, k);
    XorAssoc(Xor(y, q), f, Xor(q, e));
    XorSwap(y, q, f, Xor(q, e));
    assert Round(sb, Xor(x, k), t, Xor(y, q)) == Xor(Xor(y, q), Xor(f, Xor(q, e)));
    XorComm(q, Xor(q, e)); XorComm(q, e); XorCancel(e, q);
  }

  lemma TwoStepsSim(sb: SBoxes, ka: Half, kb: Half, ta: Half, tb: Half, q: Half, p: Half, d: Block)
    requires Mix(ta) == Xor(q, kb) && Mix(tb) == Xor(ka, p)
    ensures var e := TwoRounds(sb, ka, kb, d);
            TwoSteps(sb, ta, tb, Block(Xor(d.d1, ka), Xor(d.d2, q))) == Block(Xor(e.d1, p), Xor(e.d2, kb))
  {
    hide Xor; hide F; hide Round; hide Mix;
    RoundSim(sb, d.d1, d.d2, ka, q, kb, ta);
    RoundSim(sb, Xor(d.d2, F(sb, d.d1, ka)), d.d1, kb, ka, p, tb);
  }

  lemma SixStepsSim(sb: SBoxes, s: seq<Half>, n: nat, t: seq<Half>, g: nat, d: Block)
    requires g < n && |s| == 8 * n + 2 && 8 * n < |t| && GroupTable(s, n, t, g)
    ensures var b := 8 * g;
            var e := SixRounds(sb, s, b + 2, d);
            SixSteps(sb, t, b + 2, Block(Xor(d.d1, s[b + 2]), Xor(d.d2, Entry(s, g))))
              == Block(Xor(e.d1, Exit(s, n, g)), Xor(e.d2, s[b + 7]))
  {
    hide Xor; hide TwoRounds; hide TwoSteps; hide Mix; hide Entry; hide Exit;
    var b := 8 * g;
    TwoStepsSim(sb, s[b + 2], s[b + 3], t[b + 2], t[b + 3], Entry(s, g), s[b + 4], d);
    var d' := TwoRounds(sb, s[b + 2], s[b + 3], d);
    TwoStepsSim(sb, s[b + 4], s[b + 5], t[b + 4], t[b + 5], s[b + 3], s[b + 6], d');
    var d'' := TwoRounds(sb, s[b + 4], s[b + 5], d');
    TwoStepsSim(sb, s[b + 6], s[b + 7], t[b + 6], t[b + 7], s[b + 5], Exit(s, n, g), d'');
  }

  /** After `m` groups the two ciphers differ by the exit difference and the last round key. */
  lemma {:induction false} GroupsSim(sb: SBoxes, s: seq<Half>, n: nat, t: seq<Half>, m: nat, d: Block)
    requires Table(s, n, t) && 1 <= m <= n
    ensures var e := Groups(sb, s, m, d);
            StepGroups(sb, t, m, Block(Xor(d.d1, s[2]), Xor(d.d2, s[1])))
              == Block(Xor(e.d1, Exit(s, n, m - 1)), Xor(e.d2, s[8 * m - 1]))
    decreases m
  {
    hide Xor; hide SixRounds; hide SixSteps; hide GroupTable; hide Fl; hide FlInv; hide Carry;
    var g := m - 1;
    assert GroupTable(s, n, t, g);
    if m == 1 {
      SixStepsSim(sb, s, n, t, 0, d);
    } else {
      GroupsSim(sb, s, n, t, g, d);
      var e := Groups(sb, s, g, d);
      assert t[8 * g] == s[8 * g] && t[8 * g + 1] == s[8 * g + 1];
      FlAffine(e.d1, s[8 * g + 2], s[8 * g]);
      FlInvAffine(e.d2, s[8 * g - 1], s[8 * g + 1]);
      SixStepsSim(sb, s, n, t, g, FlLayer(s[8 * g], s[8 * g + 1], e));
    }
  }

  /** The kernel's cipher is the cipher of RFC 3713, for every S-box, schedule and block. */
  lemma Simulation(sb: SBoxes, s: seq<Half>, n: nat, t: seq<Half>, m: Block)
    requires Table(s, n, t)
    ensures KernelEncrypt(sb, t, n, m) == Encrypt(sb, s, n, m)
  {
    hide Xor; hide Groups; hide StepGroups; hide GroupTable;
    var d := Block(Xor(m.d1, s[0]), Xor(m.d2, s[1]));
    GroupsSim(sb, s, n, t, n, d);
    XorAssoc(m.d1, s[0], s[2]);
    XorCancel(m.d2, s[1]);
    var e := Groups(sb, s, n, d);
    XorComm(s[8 * n], s[8 * n - 1]);
    XorAssoc(Xor(e.d2, s[8 * n - 1]), s[8 * n - 1], s[8 * n]);
    XorCancel(e.d2, s[8 * n - 1]);
  }

  // Decryption walks the same table backwards, with the halves exchanged

  function SixBack(sb: SBoxes, t: seq<Half>, i: nat, io: Block): Block
    requires i + 6 <= |t|
  {
    TwoSteps(sb, t[i + 1], t[i], TwoSteps(sb, t[i + 3], t[i + 2], TwoSteps(sb, t[i + 5], t[i + 4], io)))
  }

  function BackGroups(sb: SBoxes, t: seq<Half>, n: nat, io: Block): Block
    requires 1 <= n && 8 * n <= |t|
  {
    if n == 1 then SixBack(sb, t, 2, io)
    else BackGroups(sb, t, n - 1, FlLayer(t[8 * n - 7], t[8 * n - 8], SixBack(sb, t, 8 * n - 6, io)))
  }

  function KernelDecrypt(sb: SBoxes, t: seq<Half>, n: nat, c: Block): Block
    requires 1 <= n && 8 * n < |t|
  {
    var d := BackGroups(sb, t, n, Block(Xor(c.d1, t[8 * n]), c.d2));
    Block(Xor(d.d2, t[0]), d.d1)
  }

  lemma TwoStepsBack(sb: SBoxes, ka: Half, kb: Half, io: Block)
    ensures var e := TwoSteps(sb, ka, kb, io);
            TwoSteps(sb, kb, ka, Block(e.d2, e.d1)) == Block(io.d2, io.d1)
  {
    hide Xor; hide SubstPerm; hide Mix;
    var e := TwoSteps(sb, ka, kb, io);
    XorCancel(io.d1, Xor(SubstPerm(sb, e.d2), Mix(kb)));
    XorCancel(io.d2, Xor(SubstPerm(sb, io.d1), Mix(ka)));
  }

  lemma SixStepsBack(sb: SBoxes, t: seq<Half>, i: nat, io: Block)
    requires i + 6 <= |t|
    ensures var e := SixSteps(sb, t, i, io);
            SixBack(sb, t, i, Block(e.d2, e.d1)) == Block(io.d2, io.d1)
  {
    hide TwoSteps;
    TwoStepsBack(sb, t[i], t[i + 1], io);
    var io1 := TwoSteps(sb, t[i], t[i + 1], io);
    TwoStepsBack(sb, t[i + 2], t[i + 3], io1);
    TwoStepsBack(sb, t[i + 4], t[i + 5], TwoSteps(sb, t[i + 2], t[i + 3], io1));
  }

  lemma {:induction false} GroupsBack(sb: SBoxes, t: seq<Half>, n: nat, io: Block)
    requires 1 <= n && 8 * n <= |t|
    ensures var e := StepGroups(sb, t, n, io);
            BackGroups(sb, t, n, Block(e.d2, e.d1)) == Block(io.d2, io.d1)
    decreases n
  {
    hide SixSteps; hide SixBack; hide Fl; hide FlInv;
    if n == 1 {
      SixStepsBack(sb, t, 2, io);
    } else {
      var e := StepGroups(sb, t, n - 1, io);
      SixStepsBack(sb, t, 8 * n - 6, FlLayer(t[8 * n - 8], t[8 * n - 7], e));
      FlInverts(e.d1, t[8 * n - 8]);
      FlInverts(e.d2, t[8 * n - 7]);
      GroupsBack(sb, t, n - 1, io);
    }
  }

  /** Decryption inverts encryption, whatever the table holds. */
  lemma DecryptInverts(sb: SBoxes, t: seq<Half>, n: nat, m: Block)
    requires 1 <= n && 8 * n < |t|
    ensures KernelDecrypt(sb, t, n, KernelEncrypt(sb, t, n, m)) == m
  {
    hide Xor; hide StepGroups; hide BackGroups;
    var d := StepGroups(sb, t, n, Block(Xor(m.d1, t[0]), m.d2));
    XorCancel(d.d2, t[8 * n]);
    GroupsBack(sb, t, n, Block(Xor(m.d1, t[0]), m.d2));
    XorCancel(m.d1, t[0]);
  }

  lemma SixBackSteps(sb: SBoxes, t: seq<Half>, i: nat, io: Block)
    requires i + 6 <= |t|
    ensures var e := SixBack(sb, t, i, io);
            SixSteps(sb, t, i, Block(e.d2, e.d1)) == Block(io.d2, io.d1)
  {
    hide TwoSteps;
    TwoStepsBack(sb, t[i + 5], t[i + 4], io);
    var io1 := TwoSteps(sb, t[i + 5], t[i + 4], io);
    TwoStepsBack(sb, t[i + 3], t[i + 2], io1);
    TwoStepsBack(sb, t[i + 1], t[i], TwoSteps(sb, t[i + 3], t[i + 2], io1));
  }

  lemma {:induction false} BackGroupsSteps(sb: SBoxes, t: seq<Half>, n: nat, io: Block)
    requires 1 <= n && 8 * n <= |t|
    ensures var e := BackGroups(sb, t, n, io);
            StepGroups(sb, t, n, Block(e.d2, e.d1)) == Block(io.d2, io.d1)
    decreases n
  {
    hide SixSteps; hide SixBack; hide Fl; hide FlInv;
    if n == 1 {
      SixBackSteps(sb, t, 2, io);
    } else {
      var e := SixBack(sb, t, 8 * n - 6, io);
      SixBackSteps(sb, t, 8 * n - 6, io);
      FlInverts(e.d1, t[8 * n - 7]);
      FlInverts(e.d2, t[8 * n - 8]);
      BackGroupsSteps(sb, t, n - 1, FlLayer(t[8 * n - 7], t[8 * n - 8], e));
    }
  }

  /** Encryption inverts decryption, so that every block is the ciphertext of one. */
  lemma EncryptInverts(sb: SBoxes, t: seq<Half>, n: nat, c: Block)
    requires 1 <= n && 8 * n < |t|
    ensures KernelEncrypt(sb, t, n, KernelDecrypt(sb, t, n, c)) == c
  {
    hide Xor; hide StepGroups; hide BackGroups;
    var d := BackGroups(sb, t, n, Block(Xor(c.d1, t[8 * n]), c.d2));
    XorCancel(d.d2, t[0]);
    BackGroupsSteps(sb, t, n, Block(Xor(c.d1, t[8 * n]), c.d2));
    XorCancel(c.d1, t[8 * n]);
  }
}
