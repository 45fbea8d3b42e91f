/**
  The Camellia cipher as sections 2.2 to 2.4 of RFC 3713 define it, with the
  four S-boxes left arbitrary.
 */
module CamelliaRfc {
  import opened CamelliaWords

  /** SBOX1 to SBOX4 of section 2.4.1. */
  datatype SBoxes = SBoxes(s1: bv8 -> bv8, s2: bv8 -> bv8, s3: bv8 -> bv8, s4: bv8 -> bv8)

  /** The S-layer and the P-layer of the F-function, on the key-mixed input. */
  function SubstPerm(sb: SBoxes, x: Half): Half {
    var t1, t2, t3, t4 := sb.s1(Byte(x.l, 3)), sb.s2(Byte(x.l, 2)), sb.s3(Byte(x.l, 1)), sb.s4(Byte(x.l, 0));
    var t5, t6, t7, t8 := sb.s2(Byte(x.r, 3)), sb.s3(Byte(x.r, 2)), sb.s4(Byte(x.r, 1)), sb.s1(Byte(x.r, 0));
    Half(Pack(Sum6(t1, t3, t4, t6, t7, t8),
              Sum6(t1, t2, t4, t5, t7, t8),
              Sum6(t1, t2, t3, t5, t6, t8),
              Sum6(t2, t3, t4, t5, t6, t7)),
         Pack(Sum5(t1, t2, t6, t7, t8),
              Sum5(t2, t3, t5, t7, t8),
              Sum5(t3, t4, t5, t6, t8),
              Sum5(t1, t4, t5, t6, t7)))
  }

  /** The F-function of section 2.4.1. */
  function F(sb: SBoxes, x: Half, k: Half): Half {
    SubstPerm(sb, Xor(x, k))
  }

  /** The two halves D1 and D2 of the data part. */
  datatype Block = Block(d1: Half, d2: Half)

  /** One odd and one even round of the Feistel network. */
  function TwoRounds(sb: SBoxes, ka: Half, kb: Half, d: Block): Block {
    var d2 := Xor(d.d2, F(sb, d.d1, ka));
    Block(Xor(d.d1, F(sb, d2, kb)), d2)
  }

  /** Six rounds with the subkeys `s[i]` to `s[i + 5]`. */
  function SixRounds(sb: SBoxes, s: seq<Half>, i: nat, d: Block): Block
    requires i + 6 <= |s|
  {
    TwoRounds(sb, s[i + 4], s[i + 5], TwoRounds(sb, s[i + 2], s[i + 3], TwoRounds(sb, s[i], s[i + 1], d)))
  }

  /** The FL and FLINV layer. */
  function FlLayer(ka: Half, kb: Half, d: Block): Block {
    Block(Fl(d.d1, ka), FlInv(d.d2, kb))
  }

  /**
    The first `n` groups of six rounds, with an FL layer between any two of them.

    Subkeys are listed in the order of their use: kw1, kw2, then k1 to k6, ke1, ke2,
    k7 to k12, ke3, ke4 and so on, and kw3, kw4 last.
   */
  function Groups(sb: SBoxes, s: seq<Half>, n: nat, d: Block): Block
    requires 1 <= n && 8 * n <= |s|
  {
    if n == 1 then SixRounds(sb, s, 2, d)
    else SixRounds(sb, s, 8 * n - 6, FlLayer(s[8 * n - 8], s[8 * n - 7], Groups(sb, s, n - 1, d)))
  }

  /** Encryption: section 2.3.1 with three groups, section 2.3.2 with four. */
  function Encrypt(sb: SBoxes, s: seq<Half>, n: nat, m: Block): Block
    requires 1 <= n && |s| == 8 * n + 2
  {
    var d := Groups(sb, s, n, Block(Xor(m.d1, s[0]), Xor(m.d2, s[1])));
    Block(Xor(d.d2, s[8 * n]), Xor(d.d1, s[8 * n + 1]))
  }

  // Key schedule, section 2.2

  datatype Wide = Wide(v: bv128)

  function Turn1(x: bv128): bv128 { x.RotateLeft(1) }

  /** Rotation to the left, `n` times by one bit. */
  function Turn(x: bv128, n: nat): bv128 {
    if n == 0 then x else Turn1(Turn(x, n - 1))
  }

  function Rol(x: Wide, n: nat): Wide { Wide(Turn(x.v, n)) }

  /** A 128-bit value by its words, most significant first. */
  datatype Quad = Quad(a: bv32, b: bv32, c: bv32, d: bv32)

  function Concat(a: bv32, b: bv32, c: bv32, d: bv32): bv128 {
    (a as bv128 << 96) | (b as bv128 << 64) | (c as bv128 << 32) | d as bv128
  }

  function Value(q: Quad): Wide { Wide(Concat(q.a, q.b, q.c, q.d)) }

  function Left(q: Quad): Half { Half(q.a, q.b) }
  function Right(q: Quad): Half { Half(q.c, q.d) }

  // The words of a 128-bit value, most significant first
  function Word0(x: bv128): bv32 { (x >> 96) as bv32 }
  function Word1(x: bv128): bv32 { ((x >> 64) & 0xffff_ffff) as bv32 }
  function Word2(x: bv128): bv32 { ((x >> 32) & 0xffff_ffff) as bv32 }
  function Word3(x: bv128): bv32 { (x & 0xffff_ffff) as bv32 }

  /** The upper 64 bits. */
  function Hi(x: Wide): Half { Half(Word0(x.v), Word1(x.v)) }

  /** The lower 64 bits. */
  function Lo(x: Wide): Half { Half(Word2(x.v), Word3(x.v)) }

  function Join(h: Half, l: Half): Wide {
    Value(Quad(h.l, h.r, l.l, l.r))
  }

  const SIGMA1 := Half(0xA09E667F, 0x3BCC908B)
  const SIGMA2 := Half(0xB67AE858, 0x4CAA73B2)
  const SIGMA3 := Half(0xC6EF372F, 0xE94F82BE)
  const SIGMA4 := Half(0x54FF53A5, 0xF1D36F1C)
  const SIGMA5 := Half(0x10E527FA, 0xDE682D1D)
  const SIGMA6 := Half(0xB05688C2, 0xB3E6C1FD)

  /** KA from the halves of KL and KR. */
  function DeriveKa(sb: SBoxes, kl: Block, kr: Block): Block {
    var d := TwoRounds(sb, SIGMA1, SIGMA2, Block(Xor(kl.d1, kr.d1), Xor(kl.d2, kr.d2)));
    TwoRounds(sb, SIGMA3, SIGMA4, Block(Xor(d.d1, kl.d1), Xor(d.d2, kl.d2)))
  }

  /** KB from the halves of KA and KR. */
  function DeriveKb(sb: SBoxes, ka: Block, kr: Block): Block {
    TwoRounds(sb, SIGMA5, SIGMA6, Block(Xor(ka.d1, kr.d1), Xor(ka.d2, kr.d2)))
  }

  const ZERO := Half(0, 0)

  /** The subkeys of a 128-bit key, in the order of use. */
  function Schedule128(kl: Wide, ka: Wide): (s: seq<Half>)
    ensures |s| == 26
  {
    [ Hi(Rol(kl, 0)), Lo(Rol(kl, 0)),
      Hi(Rol(ka, 0)), Lo(Rol(ka, 0)), Hi(Rol(kl, 15)), Lo(Rol(kl, 15)), Hi(Rol(ka, 15)), Lo(Rol(ka, 15)),
      Hi(Rol(ka, 30)), Lo(Rol(ka, 30)),
      Hi(Rol(kl, 45)), Lo(Rol(kl, 45)), Hi(Rol(ka, 45)), Lo(Rol(kl, 60)), Hi(Rol(ka, 60)), Lo(Rol(ka, 60)),
      Hi(Rol(kl, 77)), Lo(Rol(kl, 77)),
      Hi(Rol(kl, 94)), Lo(Rol(kl, 94)), Hi(Rol(ka, 94)), Lo(Rol(ka, 94)), Hi(Rol(kl, 111)), Lo(Rol(kl, 111)),
      Hi(Rol(ka, 111)), Lo(Rol(ka, 111)) ]
  }

  /** The subkeys of a 192-bit or 256-bit key, in the order of use. */
  function Schedule256(kl: Wide, kr: Wide, ka: Wide, kb: Wide): (s: seq<Half>)
    ensures |s| == 34
  {
    [ Hi(Rol(kl, 0)), Lo(Rol(kl, 0)),
      Hi(Rol(kb, 0)), Lo(Rol(kb, 0)), Hi(Rol(kr, 15)), Lo(Rol(kr, 15)), Hi(Rol(ka, 15)), Lo(Rol(ka, 15)),
      Hi(Rol(kr, 30)), Lo(Rol(kr, 30)),
      Hi(Rol(kb, 30)), Lo(Rol(kb, 30)), Hi(Rol(kl, 45)), Lo(Rol(kl, 45)), Hi(Rol(ka, 45)), Lo(Rol(ka, 45)),
      Hi(Rol(kl, 60)), Lo(Rol(kl, 60)),
      Hi(Rol(kr, 60)), Lo(Rol(kr, 60)), Hi(Rol(kb, 60)), Lo(Rol(kb, 60)), Hi(Rol(kl, 77)), Lo(Rol(kl, 77)),
      Hi(Rol(ka, 77)), Lo(Rol(ka, 77)),
      Hi(Rol(kr, 94)), Lo(Rol(kr, 94)), Hi(Rol(ka, 94)), Lo(Rol(ka, 94)), Hi(Rol(kl, 111)), Lo(Rol(kl, 111)),
      Hi(Rol(kb, 111)), Lo(Rol(kb, 111)) ]
  }

  /** A big-endian word of a byte string. */
  function Word(key: seq<bv8>, i: nat): bv32
    requires i + 4 <= |key|
  {
    Pack(key[i], key[i + 1], key[i + 2], key[i + 3])
  }

  /** A big-endian 128-bit half of the key, as two halves of 64 bits. */
  function KeyHalves(key: seq<bv8>, i: nat): Block
    requires i + 16 <= |key|
  {
    Block(Half(Word(key, i), Word(key, i + 4)), Half(Word(key, i + 8), Word(key, i + 12)))
  }

  function Whole(b: Block): Wide { Join(b.d1, b.d2) }

  /** Section 2.2 for a key of 16, 24 or 32 bytes: the subkeys in the order of use. */
  function Subkeys(sb: SBoxes, key: seq<bv8>): (s: seq<Half>)
    requires |key| == 16 || |key| == 24 || |key| == 32
    ensures |s| == if |key| == 16 then 26 else 34
  {
    var kl := KeyHalves(key, 0);
    if |key| == 16 then
      Schedule128(Whole(kl), Whole(DeriveKa(sb, kl, Block(ZERO, ZERO))))
    else
      // the right half of a 192-bit key is its last 64 bits followed by their complement
      var full := if |key| == 24 then key + seq(8, i requires 0 <= i < 8 => !key[16 + i]) else key;
      var kr := KeyHalves(full, 16);
      var ka := DeriveKa(sb, kl, kr);
      Schedule256(Whole(kl), Whole(kr), Whole(ka), Whole(DeriveKb(sb, ka, kr)))
  }
}
