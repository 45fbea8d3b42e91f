/** The key constants are digits of square roots. */
module CamelliaSigma {
  import opened CamelliaWords
  import opened CamelliaRfc

  const TWO_32: nat := 0x1_0000_0000
  const TWO_64: nat := TWO_32 * TWO_32

  /** A half as the number with its sixteen hexadecimal digits. */
  function Value(h: Half): nat { h.l as nat * TWO_32 + h.r as nat }

  /** `n` is the root of `p` with seventeen hexadecimal places, rounded down. */
  ghost predicate Root(p: nat, n: nat) {
    var places := TWO_64 * 16;
    n * n <= p * places * places < (n + 1) * (n + 1)
  }

  /** The digits from the second to the seventeenth place of the square root of `p`. */
  ghost predicate RootDigits(p: nat, h: Half) { exists n: nat :: Root(p, n) && n % TWO_64 == Value(h) }

  lemma RootIs(p: nat, h: Half, n: nat)
    requires Root(p, n) && n % TWO_64 == Value(h)
    ensures RootDigits(p, h)
  {}

  /** The constants come from the first six primes. */
  lemma SigmasAreRoots()
    ensures RootDigits(2, SIGMA1) && RootDigits(3, SIGMA2) && RootDigits(5, SIGMA3)
    ensures RootDigits(7, SIGMA4) && RootDigits(11, SIGMA5) && RootDigits(13, SIGMA6)
  {
    RootIs(2, SIGMA1, 0x16A09E667F3BCC908B);
    RootIs(3, SIGMA2, 0x1BB67AE8584CAA73B2);
    RootIs(5, SIGMA3, 0x23C6EF372FE94F82BE);
    RootIs(7, SIGMA4, 0x2A54FF53A5F1D36F1C);
    RootIs(11, SIGMA5, 0x3510E527FADE682D1D);
    RootIs(13, SIGMA6, 0x39B05688C2B3E6C1FD);
  }
}
