/**
  Key setup for the three key lengths, and the cipher behind `setkey`, `encrypt`
  and `decrypt`.
 */
module CamelliaKeys {
  import opened CamelliaWords
  import opened CamelliaRfc
  import opened CamelliaCipher
  import opened CamelliaSetup
  import opened CamelliaRotations
  import opened CamelliaCode

  /** CAMELLIA_F computes the F-function of the RFC. */
  function CamelliaF(sb: SBoxes, x: Half, k: Half): (y: Half)
    ensures y == F(sb, x, k)
  {
    hide X; hide LookupL; hide LookupR; hide SubstPerm; hide Ror8;
    var i := Xor(x, k);
    var yr := LookupL(sb, i.l);
    var yl := X(LookupR(sb, i.r), yr);
    TablesAreSubstPerm(sb, i);
    Half(yl, X(Ror8(yr), yl))
  }

  method DeriveKa128(sb: SBoxes, kl: Quad) returns (ka: Quad)
    ensures Block(Left(ka), Right(ka))
         == DeriveKa(sb, Block(Left(kl), Right(kl)), Block(ZERO, ZERO))
  {
    hide Xor; hide F;
    var l, r := Left(kl), Right(kl);
    var w := CamelliaF(sb, l, SIGMA1);
    r := Xor(r, w);
    var l' := CamelliaF(sb, r, SIGMA2);
    // the left half is now l' and the right half w
    r := CamelliaF(sb, l', SIGMA3);
    r := Xor(r, w);
    w := CamelliaF(sb, r, SIGMA4);
    l' := Xor(l', w);
    ka := Quad(l'.l, l'.r, r.l, r.r);
    ghost var k1, k2 := Left(kl), Right(kl);
    XorZero(k1); XorZero(k2);
    ghost var f1 := F(sb, k1, SIGMA1);
    ghost var f2 := F(sb, Xor(k2, f1), SIGMA2);
    XorComm(k1, f2); XorCancel(f2, k1);
    XorComm(k2, f1); XorCancel(f1, k2);
    XorComm(f1, F(sb, f2, SIGMA3));
  }

  lemma XorZero(a: Half)
    ensures Xor(a, ZERO) == a
  {
    hide X;
    XZero(a.l); XZero(a.r);
  }

  lemma XZero(a: bv32)
    ensures X(a, 0) == a
  {}

  /** The rotations of KL that a 128-bit key needs. */
  method RotateKl128(k: Quad) returns (k15: Quad, k45: Quad, k60: Quad, k77: Quad, k94: Quad, k111: Quad)
    ensures var kl := Value(k);
            && Value(k15) == Rol(kl, 15) && Value(k45) == Rol(kl, 45) && Value(k60) == Rol(kl, 60)
            && Value(k77) == Rol(kl, 77) && Value(k94) == Rol(kl, 94) && Value(k111) == Rol(kl, 111)
  {
    hide Turn; hide Concat; hide Roldq; hide Rol; hide Left; hide Right; hide Hi; hide Lo; hide Value;
    ghost var kl := Value(k);
    Rol0(kl);
    RoldqAdds(kl, 0, k, 15); k15 := Roldq(k, 15);
    RoldqAdds(kl, 15, k15, 30); k45 := Roldq(k15, 30);
    RoldqAdds(kl, 45, k45, 15); k60 := Roldq(k45, 15);
    RoldqAdds(kl, 60, k60, 17); k77 := Roldq(k60, 17);
    RoldqAdds(kl, 77, k77, 17); k94 := Roldq(k77, 17);
    RoldqAdds(kl, 94, k94, 17); k111 := Roldq(k94, 17);
  }

  /** The rotations of KA that a 128-bit key needs. */
  method RotateKa128(k: Quad)
    returns (k15: Quad, k30: Quad, k45: Quad, k60: Quad, k94: Quad, k111: Quad)
    ensures var ka := Value(k);
            && Value(k15) == Rol(ka, 15) && Value(k30) == Rol(ka, 30) && Value(k45) == Rol(ka, 45)
            && Value(k60) == Rol(ka, 60) && Value(k94) == Rol(ka, 94) && Value(k111) == Rol(ka, 111)
  {
    hide Turn; hide Concat; hide Roldq; hide Rol; hide Left; hide Right; hide Hi; hide Lo; hide Value;
    ghost var ka := Value(k);
    Rol0(ka);
    RoldqAdds(ka, 0, k, 15); k15 := Roldq(k, 15);
    RoldqAdds(ka, 15, k15, 15); k30 := Roldq(k15, 15);
    RoldqAdds(ka, 30, k30, 15); k45 := Roldq(k30, 15);
    RoldqAdds(ka, 45, k45, 15); k60 := Roldq(k45, 15);
    RoldqAdds(ka, 60, k60, 34); k94 := Roldq(k60, 34);
    RoldqAdds(ka, 94, k94, 17); k111 := Roldq(k94, 17);
  }

  lemma Rol0(x: Wide)
    ensures Rol(x, 0) == x
  {}

  lemma RolAround(x: Wide)
    ensures Rol(x, 128) == x
  {
    hide Turn;
    TurnedAround(x.v);
  }

  method List128(k: Quad, a: Quad) returns (s: seq<Half>)
    ensures s == Schedule128(Value(k), Value(a))
  {
    hide Rol; hide Hi; hide Lo; hide Value; hide Left; hide Right;
    var l15, l45, l60, l77, l94, l111 := RotateKl128(k);
    var a15, a30, a45, a60, a94, a111 := RotateKa128(a);
    s := [ Left(k), Right(k),
           Left(a), Right(a), Left(l15), Right(l15), Left(a15), Right(a15),
           Left(a30), Right(a30),
           Left(l45), Right(l45), Left(a45), Right(l60), Left(a60), Right(a60),
           Left(l77), Right(l77),
           Left(l94), Right(l94), Left(a94), Right(a94), Left(l111), Right(l111),
           Left(a111), Right(a111) ];
    Halves(k); Halves(a); Rol0(Value(k)); Rol0(Value(a));
    Halves(l15); Halves(l45); Halves(l60); Halves(l77); Halves(l94); Halves(l111);
    Halves(a15); Halves(a30); Halves(a45); Halves(a60); Halves(a94); Halves(a111);
  }

  /** The subkeys of a 16-byte key are those of RFC 3713. */
  method Subkeys128(sb: SBoxes, key: seq<bv8>) returns (s: seq<Half>)
    requires |key| == 16
    ensures s == Subkeys(sb, key)
  {
    hide DeriveKa; hide Value; hide Left; hide Right; hide Word; hide Schedule128; hide KeyHalves; hide Whole;
    var k := Quad(Word(key, 0), Word(key, 4), Word(key, 8), Word(key, 12));
    var a := DeriveKa128(sb, k);
    s := List128(k, a);
    WholeIs(k); WholeIs(a); KeyIs(key, 0);
  }

  // Keys of 32 bytes

  method DeriveKaKb256(sb: SBoxes, kl: Quad, kr: Quad) returns (ka: Quad, kb: Quad)
    ensures var l, r := Block(Left(kl), Right(kl)), Block(Left(kr), Right(kr));
            && Block(Left(ka), Right(ka)) == DeriveKa(sb, l, r)
            && Block(Left(kb), Right(kb)) == DeriveKb(sb, DeriveKa(sb, l, r), r)
  {
    hide Xor; hide F;
    var krl, krr := Left(kr), Right(kr);
    var l := Xor(Left(kl), krl);
    var r := Xor(Right(kl), krr);
    var w := CamelliaF(sb, l, SIGMA1);
    r := Xor(r, w);
    l := CamelliaF(sb, r, SIGMA2);
    l := Xor(l, krl);
    r := CamelliaF(sb, l, SIGMA3);
    r := Xor(r, Xor(w, krr));
    DeriveSteps(sb, Left(kl), Right(kl), krl, krr);
    var w' := CamelliaF(sb, r, SIGMA4);
    l := Xor(l, w');
    ka := Quad(l.l, l.r, r.l, r.r);
    var bl, br := Xor(krl, l), Xor(krr, r);
    XorComm(krl, l); XorComm(krr, r);
    w' := CamelliaF(sb, bl, SIGMA5);
    br := Xor(br, w');
    w' := CamelliaF(sb, br, SIGMA6);
    bl := Xor(bl, w');
    kb := Quad(bl.l, bl.r, br.l, br.r);
  }

  /** Overwriting a half with the round output and adding the key half again is the Feistel step. */
  lemma DeriveSteps(sb: SBoxes, l1: Half, l2: Half, r1: Half, r2: Half)
    ensures var w := F(sb, Xor(l1, r1), SIGMA1);
            var d := TwoRounds(sb, SIGMA1, SIGMA2, Block(Xor(l1, r1), Xor(l2, r2)));
            var x := Xor(F(sb, d.d2, SIGMA2), r1);
            && d.d2 == Xor(Xor(l2, r2), w)
            && Xor(d.d1, l1) == x
            && Xor(Xor(d.d2, l2), F(sb, x, SIGMA3)) == Xor(F(sb, x, SIGMA3), Xor(w, r2))
  {
    hide Xor; hide F;
    var w := F(sb, Xor(l1, r1), SIGMA1);
    var y := Xor(Xor(l2, r2), w);
    var f := F(sb, y, SIGMA2);
    // (l1 + r1) + f + l1 == f + r1
    XorAssoc(Xor(l1, r1), f, l1); XorComm(f, l1); XorComm(l1, r1);
    XorAssoc(Xor(r1, l1), l1, f); XorCancel(r1, l1); XorComm(r1, f);
    // ((l2 + r2) + w) + l2 == w + r2
    XorAssoc(Xor(l2, r2), w, l2); XorComm(w, l2); XorComm(l2, r2);
    XorAssoc(Xor(r2, l2), l2, w); XorCancel(r2, l2); XorComm(r2, w);
    XorComm(Xor(w, r2), F(sb, Xor(f, r1), SIGMA3));
  }

  method RotateKl256(k: Quad) returns (k45: Quad, k60: Quad, k77: Quad, k111: Quad)
    ensures var kl := Value(k);
            && Value(k45) == Rol(kl, 45) && Value(k60) == Rol(kl, 60)
            && Value(k77) == Rol(kl, 77) && Value(k111) == Rol(kl, 111)
  {
    hide Turn; hide Concat; hide Roldq; hide Rol; hide Left; hide Right; hide Hi; hide Lo; hide Value;
    ghost var kl := Value(k);
    Rol0(kl);
    RoldqAdds(kl, 0, k, 45); k45 := Roldq(k, 45);
    RoldqAdds(kl, 45, k45, 15); k60 := Roldq(k45, 15);
    RoldqAdds(kl, 60, k60, 17); k77 := Roldq(k60, 17);
    RoldqAdds(kl, 77, k77, 34); k111 := Roldq(k77, 34);
  }

  /** The last rotation brings KR back to where it started. */
  method RotateKr256(k: Quad) returns (k15: Quad, k30: Quad, k60: Quad, k94: Quad, k0: Quad)
    ensures var kr := Value(k);
            && Value(k15) == Rol(kr, 15) && Value(k30) == Rol(kr, 30) && Value(k60) == Rol(kr, 60)
            && Value(k94) == Rol(kr, 94) && Left(k0) == Left(k) && Right(k0) == Right(k)
  {
    hide Turn; hide Concat; hide Roldq; hide Rol; hide Left; hide Right; hide Hi; hide Lo; hide Value;
    ghost var kr := Value(k);
    Rol0(kr);
    RoldqAdds(kr, 0, k, 15); k15 := Roldq(k, 15);
    RoldqAdds(kr, 15, k15, 15); k30 := Roldq(k15, 15);
    RoldqAdds(kr, 30, k30, 30); k60 := Roldq(k30, 30);
    RoldqAdds(kr, 60, k60, 34); k94 := Roldq(k60, 34);
    RoldqAdds(kr, 94, k94, 34); k0 := Roldq(k94, 34); RolAround(kr);
    Halves(k); Halves(k0);
  }

  method RotateKa256(k: Quad) returns (k15: Quad, k45: Quad, k77: Quad, k94: Quad)
    ensures var ka := Value(k);
            && Value(k15) == Rol(ka, 15) && Value(k45) == Rol(ka, 45)
            && Value(k77) == Rol(ka, 77) && Value(k94) == Rol(ka, 94)
  {
    hide Turn; hide Concat; hide Roldq; hide Rol; hide Left; hide Right; hide Hi; hide Lo; hide Value;
    ghost var ka := Value(k);
    Rol0(ka);
    RoldqAdds(ka, 0, k, 15); k15 := Roldq(k, 15);
    RoldqAdds(ka, 15, k15, 30); k45 := Roldq(k15, 30);
    RoldqAdds(ka, 45, k45, 32); k77 := Roldq(k45, 32);
    RoldqAdds(ka, 45, k45, 49); k94 := Roldq(k45, 49);
  }

  method RotateKb256(k: Quad) returns (k30: Quad, k60: Quad, k111: Quad)
    ensures var kb := Value(k);
            Value(k30) == Rol(kb, 30) && Value(k60) == Rol(kb, 60) && Value(k111) == Rol(kb, 111)
  {
    hide Turn; hide Concat; hide Roldq; hide Rol; hide Left; hide Right; hide Hi; hide Lo; hide Value;
    ghost var kb := Value(k);
    Rol0(kb);
    RoldqAdds(kb, 0, k, 30); k30 := Roldq(k, 30);
    RoldqAdds(kb, 30, k30, 30); k60 := Roldq(k30, 30);
    RoldqAdds(kb, 60, k60, 51); k111 := Roldq(k60, 51);
  }

  method List256(sb: SBoxes, l: Quad, r: Quad) returns (s: seq<Half>, ghost a: Quad, ghost b: Quad)
    ensures s == Schedule256(Value(l), Value(r), Value(a), Value(b))
    ensures var kl, kr := Block(Left(l), Right(l)), Block(Left(r), Right(r));
            && Block(Left(a), Right(a)) == DeriveKa(sb, kl, kr)
            && Block(Left(b), Right(b)) == DeriveKb(sb, DeriveKa(sb, kl, kr), kr)
  {
    hide Rol; hide Hi; hide Lo; hide Value; hide Left; hide Right; hide DeriveKa; hide DeriveKb;
    var l45, l60, l77, l111 := RotateKl256(l);
    var r15, r30, r60, r94, r0 := RotateKr256(r);
    var ka, kb := DeriveKaKb256(sb, l, r0);
    a, b := ka, kb;
    var a15, a45, a77, a94 := RotateKa256(ka);
    var b30, b60, b111 := RotateKb256(kb);
    s := [ Left(l), Right(l),
           Left(kb), Right(kb), Left(r15), Right(r15), Left(a15), Right(a15),
           Left(r30), Right(r30),
           Left(b30), Right(b30), Left(l45), Right(l45), Left(a45), Right(a45),
           Left(l60), Right(l60),
           Left(r60), Right(r60), Left(b60), Right(b60), Left(l77), Right(l77),
           Left(a77), Right(a77),
           Left(r94), Right(r94), Left(a94), Right(a94), Left(l111), Right(l111),
           Left(b111), Right(b111) ];
    Halves(l); Halves(kb); Rol0(Value(l)); Rol0(Value(kb));
    Halves(l45); Halves(l60); Halves(l77); Halves(l111);
    Halves(r15); Halves(r30); Halves(r60); Halves(r94);
    Halves(a15); Halves(a45); Halves(a77); Halves(a94);
    Halves(b30); Halves(b60); Halves(b111);
  }

  /** The subkeys of a 32-byte key, and of a 24-byte key once extended, are those of RFC 3713. */
  method Subkeys256(sb: SBoxes, key: seq<bv8>) returns (s: seq<Half>)
    requires |key| == 24 || |key| == 32
    ensures s == Subkeys(sb, key)
  {
    hide DeriveKa; hide DeriveKb; hide Value; hide Left; hide Right; hide Word; hide Schedule256;
    hide KeyHalves; hide Whole;
    var full := if |key| == 24 then key + seq(8, i requires 0 <= i < 8 => !key[16 + i]) else key;
    var l := Quad(Word(full, 0), Word(full, 4), Word(full, 8), Word(full, 12));
    var r := Quad(Word(full, 16), Word(full, 20), Word(full, 24), Word(full, 28));
    ghost var a, b;
    s, a, b := List256(sb, l, r);
    WholeIs(l); WholeIs(r); WholeIs(a); WholeIs(b); KeyIs(full, 0); KeyIs(full, 16);
    assert KeyHalves(full, 0) == KeyHalves(key, 0) by { KeyPrefix(key, full); }
  }

  lemma KeyPrefix(key: seq<bv8>, full: seq<bv8>)
    requires 16 <= |key| <= |full| && full[..16] == key[..16]
    ensures KeyHalves(full, 0) == KeyHalves(key, 0)
  {
    hide Pack;
    assert forall i :: 0 <= i < 16 ==> full[i] == full[..16][i] == key[i];
  }

  lemma WholeIs(q: Quad)
    ensures Whole(Block(Left(q), Right(q))) == Value(q)
  {}

  lemma KeyIs(key: seq<bv8>, i: nat)
    requires i + 16 <= |key|
    ensures var q := Quad(Word(key, i), Word(key, i + 4), Word(key, i + 8), Word(key, i + 12));
            KeyHalves(key, i) == Block(Left(q), Right(q))
  {}

  /** Groups of six rounds for a key of `length` bytes. */
  function GroupCount(length: nat): nat { if length == 16 then 3 else 4 }

  predicate Supported(length: nat) { length == 16 || length == 24 || length == 32 }

  /** The cipher context: the key length and the table that key setup leaves behind. */
  class Context {
    const sb: SBoxes
    var keyLength: nat
    var keyTable: array<Half>
    ghost var key: seq<bv8>

    /** A key has been accepted, and the table is the one that belongs to it. */
    ghost predicate Keyed()
      reads this, keyTable
    {
      && Supported(|key|) && keyLength == |key| && keyTable.Length == 34
      && Table(Subkeys(sb, key), GroupCount(keyLength), keyTable[..])
    }

    constructor (sb: SBoxes)
      ensures this.sb == sb && keyTable.Length == 34 && fresh(keyTable)
    {
      this.sb, keyLength, key := sb, 0, [];
      keyTable := new Half[34];
    }

    /** Accepts exactly the keys of 16, 24 and 32 bytes; another one leaves the context as it was. */
    method SetKey(newKey: seq<bv8>) returns (ok: bool)
      requires keyTable.Length == 34
      modifies this, keyTable
      ensures keyTable == old(keyTable)
      ensures ok <==> Supported(|newKey|)
      ensures ok ==> Keyed() && key == newKey
      ensures !ok ==> keyLength == old(keyLength) && key == old(key) && keyTable[..] == old(keyTable[..])
    {
      hide Subkeys; hide Table;
      if !Supported(|newKey|) {
        return false;
      }
      keyLength, key := |newKey|, newKey;
      var s;
      if keyLength == 16 {
        s := Subkeys128(sb, newKey);
      } else {
        s := Subkeys256(sb, newKey);
      }
      var sub := new Half[|s|](i requires 0 <= i < |s| => s[i]);
      assert sub[..] == s;
      SetupTail(sub, keyTable, if keyLength == 16 then 24 else 32);
      ok := true;
    }

    /** Encryption computes the cipher of RFC 3713. */
    method Encrypt(m: Block) returns (c: Block)
      requires Keyed()
      ensures c == CamelliaRfc.Encrypt(sb, Subkeys(sb, key), GroupCount(keyLength), m)
    {
      hide Subkeys; hide Table; hide KernelEncrypt; hide CamelliaRfc.Encrypt;
      var tmp := new Half[2][m.d1, m.d2];
      DoEncrypt(sb, keyTable, tmp, if keyLength == 16 then 24 else 32);
      c := Block(tmp[1], tmp[0]);
      Simulation(sb, Subkeys(sb, key), GroupCount(keyLength), keyTable[..], m);
    }

    /** Decryption gives back the one block whose RFC 3713 ciphertext it is given. */
    method Decrypt(c: Block) returns (m: Block)
      requires Keyed()
      ensures CamelliaRfc.Encrypt(sb, Subkeys(sb, key), GroupCount(keyLength), m) == c
      ensures forall p :: CamelliaRfc.Encrypt(sb, Subkeys(sb, key), GroupCount(keyLength), p) == c ==> p == m
    {
      hide Subkeys; hide Table; hide KernelEncrypt; hide KernelDecrypt; hide CamelliaRfc.Encrypt;
      var tmp := new Half[2][c.d1, c.d2];
      DoDecrypt(sb, keyTable, tmp, if keyLength == 16 then 24 else 32);
      m := Block(tmp[1], tmp[0]);
      ghost var s, n, t := Subkeys(sb, key), GroupCount(keyLength), keyTable[..];
      Simulation(sb, s, n, t, m);
      EncryptInverts(sb, t, n, c);
      forall p | CamelliaRfc.Encrypt(sb, s, n, p) == c ensures p == m {
        Simulation(sb, s, n, t, p);
        DecryptInverts(sb, t, n, p);
      }
    }
  }
}
