/**
  The in-place code of the kernel's Camellia: key setup, encryption, decryption.

  Words come in pairs everywhere in the source (`subL[i]`/`subR[i]`,
  `subkey[2i]`/`subkey[2i+1]`, `io[0]`/`io[1]`), so an array element is a `Half`.
 */
module CamelliaCode {
  import opened CamelliaWords
  import opened CamelliaRfc
  import opened CamelliaCipher

  ghost function View(io: array<Half>): Block
    requires io.Length == 2
    reads io
  {
    Block(io[0], io[1])
  }

  /** The words that CAMELLIA_ROUNDSM adds to its output are those of `Round`. */
  lemma RoundWords(sb: SBoxes, x: Half, k: Half, y: Half, il: bv32, ir: bv32)
    requires il == X(LookupL(sb, x.l), k.l)
    requires ir == X(LookupR(sb, x.r), X(il, k.r))
    ensures Half(X(y.l, ir), X(y.r, X(Ror8(il), ir))) == Round(sb, x, k, y)
  {
    hide X; hide LookupL; hide LookupR; hide SubstPerm; hide Ror8;
    var i := Half(LookupL(sb, x.l), LookupR(sb, x.r));
    TablesAreSubstPerm(sb, x);
    MixLinear(i, k);
    XComm(il, k.r);
    XAssoc(i.r, k.r, il);
    assert Mix(Xor(i, k)) == Half(ir, X(Ror8(il), ir));
  }

  method RoundSm(sb: SBoxes, io: array<Half>, x: nat, y: nat, k: Half)
    requires io.Length == 2 && x < 2 && y == 1 - x
    modifies io
    ensures io[x] == old(io[x])
    ensures io[y] == Round(sb, old(io[x]), k, old(io[y]))
  {
    hide *;
    var xl, xr := io[x].l, io[x].r;
    var ir := Sp1110(sb, Byte(xr, 0));
    var il := Sp1110(sb, Byte(xl, 3));
    ir := X(ir, Sp0222(sb, Byte(xr, 3)));
    il := X(il, Sp0222(sb, Byte(xl, 2)));
    ir := X(ir, Sp3033(sb, Byte(xr, 2)));
    il := X(il, Sp3033(sb, Byte(xl, 1)));
    ir := X(ir, Sp4404(sb, Byte(xr, 1)));
    il := X(il, Sp4404(sb, Byte(xl, 0)));
    LookupDef(sb, xl); LookupDef(sb, xr);
    il := X(il, k.l);
    ir := X(ir, X(il, k.r));
    RoundWords(sb, io[x], k, io[y], il, ir);
    io[y] := Half(X(io[y].l, ir), X(io[y].r, X(Ror8(il), ir)));
  }

  lemma LookupDef(sb: SBoxes, x: bv32)
    ensures LookupL(sb, x)
         == X(X(X(Sp1110(sb, Byte(x, 3)), Sp0222(sb, Byte(x, 2))), Sp3033(sb, Byte(x, 1))), Sp4404(sb, Byte(x, 0)))
    ensures LookupR(sb, x)
         == X(X(X(Sp1110(sb, Byte(x, 0)), Sp0222(sb, Byte(x, 3))), Sp3033(sb, Byte(x, 2))), Sp4404(sb, Byte(x, 1)))
  {
    hide X; hide Sp1110; hide Sp0222; hide Sp3033; hide Sp4404; hide Byte;
  }

  method Rounds(sb: SBoxes, subkey: array<Half>, io: array<Half>, i: nat)
    requires io.Length == 2 && i + 8 <= subkey.Length && io != subkey
    modifies io
    ensures View(io) == SixSteps(sb, subkey[..], i + 2, old(View(io)))
  {
    hide Round;
    RoundSm(sb, io, 0, 1, subkey[i + 2]);
    RoundSm(sb, io, 1, 0, subkey[i + 3]);
    RoundSm(sb, io, 0, 1, subkey[i + 4]);
    RoundSm(sb, io, 1, 0, subkey[i + 5]);
    RoundSm(sb, io, 0, 1, subkey[i + 6]);
    RoundSm(sb, io, 1, 0, subkey[i + 7]);
  }

  method RoundsBack(sb: SBoxes, subkey: array<Half>, io: array<Half>, i: nat)
    requires io.Length == 2 && i + 8 <= subkey.Length && io != subkey
    modifies io
    ensures View(io) == SixBack(sb, subkey[..], i + 2, old(View(io)))
  {
    hide Round;
    RoundSm(sb, io, 0, 1, subkey[i + 7]);
    RoundSm(sb, io, 1, 0, subkey[i + 6]);
    RoundSm(sb, io, 0, 1, subkey[i + 5]);
    RoundSm(sb, io, 1, 0, subkey[i + 4]);
    RoundSm(sb, io, 0, 1, subkey[i + 3]);
    RoundSm(sb, io, 1, 0, subkey[i + 2]);
  }

  method Fls(io: array<Half>, kl: Half, kr: Half)
    requires io.Length == 2
    modifies io
    ensures View(io) == FlLayer(kl, kr, old(View(io)))
  {
    hide X; hide Or; hide And; hide Rol1;
    var ll, lr, rl, rr := io[0].l, io[0].r, io[1].l, io[1].r;
    var t0 := And(ll, kl.l);
    var t2 := Or(rr, kr.r);
    rl := X(rl, t2);
    lr := X(lr, Rol1(t0));
    var t3 := And(rl, kr.l);
    var t1 := Or(lr, kl.r);
    ll := X(ll, t1);
    rr := X(rr, Rol1(t3));
    io[0], io[1] := Half(ll, lr), Half(rl, rr);
  }

  /** Leaves the halves exchanged, as the source does. */
  method DoEncrypt(sb: SBoxes, subkey: array<Half>, io: array<Half>, max: nat)
    requires io.Length == 2 && io != subkey && (max == 24 || max == 32) && max < subkey.Length
    modifies io
    ensures Block(io[1], io[0]) == KernelEncrypt(sb, subkey[..], max / 8, old(View(io)))
  {
    hide SixSteps; hide FlLayer; hide Xor;
    ghost var t := subkey[..];
    io[0] := Xor(io[0], subkey[0]);
    ghost var d := View(io);
    Rounds(sb, subkey, io, 0);
    assert View(io) == StepGroups(sb, t, 1, d);
    Fls(io, subkey[8], subkey[9]);
    Rounds(sb, subkey, io, 8);
    assert View(io) == StepGroups(sb, t, 2, d);
    Fls(io, subkey[16], subkey[17]);
    Rounds(sb, subkey, io, 16);
    assert View(io) == StepGroups(sb, t, 3, d);
    if max == 32 {
      Fls(io, subkey[24], subkey[25]);
      Rounds(sb, subkey, io, 24);
      assert View(io) == StepGroups(sb, t, 4, d);
    }
    io[1] := Xor(io[1], subkey[max]);
  }

  /** Leaves the halves exchanged, as the source does. */
  method DoDecrypt(sb: SBoxes, subkey: array<Half>, io: array<Half>, i: nat)
    requires io.Length == 2 && io != subkey && (i == 24 || i == 32) && i < subkey.Length
    modifies io
    ensures Block(io[1], io[0]) == KernelDecrypt(sb, subkey[..], i / 8, old(View(io)))
  {
    hide SixBack; hide FlLayer; hide Xor;
    ghost var t := subkey[..];
    io[0] := Xor(io[0], subkey[i]);
    ghost var d := BackGroups(sb, t, i / 8, View(io));
    if i == 32 {
      RoundsBack(sb, subkey, io, 24);
      Fls(io, subkey[25], subkey[24]);
    }
    assert BackGroups(sb, t, 3, View(io)) == d;
    RoundsBack(sb, subkey, io, 16);
    Fls(io, subkey[17], subkey[16]);
    assert BackGroups(sb, t, 2, View(io)) == d;
    RoundsBack(sb, subkey, io, 8);
    Fls(io, subkey[9], subkey[8]);
    assert BackGroups(sb, t, 1, View(io)) == d;
    RoundsBack(sb, subkey, io, 0);
    io[1] := Xor(io[1], subkey[0]);
  }
}
