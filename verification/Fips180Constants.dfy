/** The constants of `Fips180` are the ones sections 4.2.2 and 5.3.3 describe. */
module Fips180Constants {
  import opened Fips180

  /** `word` is the first 32 bits of the fractional part of the square root of `n`. */
  ghost predicate SquareRootFraction(n: nat, word: Word) {
    exists whole: nat | whole <= n :: IsSquareRoot(n, whole * 0x1_0000_0000 + word.bits as nat)
  }

  /** The same for the cube root. */
  ghost predicate CubeRootFraction(n: nat, word: Word) {
    exists whole: nat | whole <= n :: IsCubeRoot(n, whole * 0x1_0000_0000 + word.bits as nat)
  }

  /** x = floor(2^32 sqrt(n)) */
  predicate IsSquareRoot(n: nat, x: nat) {
    x * x <= n * 0x1_0000_0000_0000_0000 < (x + 1) * (x + 1)
  }

  /** x = floor(2^32 cbrt(n)) */
  predicate IsCubeRoot(n: nat, x: nat) {
    x * x * x <= n * 0x1_0000_0000_0000_0000_0000_0000 < (x + 1) * (x + 1) * (x + 1)
  }

  /** The first 64 primes. */
  function Prime(t: nat): nat {
    match t
    case 0 => 2 case 1 => 3 case 2 => 5 case 3 => 7 case 4 => 11 case 5 => 13 case 6 => 17
    case 7 => 19 case 8 => 23 case 9 => 29 case 10 => 31 case 11 => 37 case 12 => 41 case 13 => 43
    case 14 => 47 case 15 => 53 case 16 => 59 case 17 => 61 case 18 => 67 case 19 => 71 case 20 => 73
    case 21 => 79 case 22 => 83 case 23 => 89 case 24 => 97 case 25 => 101 case 26 => 103 case 27 => 107
    case 28 => 109 case 29 => 113 case 30 => 127 case 31 => 131 case 32 => 137 case 33 => 139 case 34 => 149
    case 35 => 151 case 36 => 157 case 37 => 163 case 38 => 167 case 39 => 173 case 40 => 179 case 41 => 181
    case 42 => 191 case 43 => 193 case 44 => 197 case 45 => 199 case 46 => 211 case 47 => 223 case 48 => 227
    case 49 => 229 case 50 => 233 case 51 => 239 case 52 => 241 case 53 => 251 case 54 => 257 case 55 => 263
    case 56 => 269 case 57 => 271 case 58 => 277 case 59 => 281 case 60 => 283 case 61 => 293 case 62 => 307
    case _ => 311
  }

  ghost predicate IsRoundConstant(t: nat) {
    CubeRootFraction(Prime(t), K(t))
  }

  lemma CubeRoot(t: nat, n: nat, whole: nat, word: nat)
    requires Prime(t) == n && K(t).bits as nat == word && whole <= n && IsCubeRoot(n, whole * 0x1_0000_0000 + word)
    ensures IsRoundConstant(t)
  {
  }

  lemma CubeRoots0(t: nat)
    requires 0 <= t < 8
    ensures IsRoundConstant(t)
  {
    if t == 0 { CubeRoot(0, 2, 1, 0x428a2f98); }
    else if t == 1 { CubeRoot(1, 3, 1, 0x71374491); }
    else if t == 2 { CubeRoot(2, 5, 1, 0xb5c0fbcf); }
    else if t == 3 { CubeRoot(3, 7, 1, 0xe9b5dba5); }
    else if t == 4 { CubeRoot(4, 11, 2, 0x3956c25b); }
    else if t == 5 { CubeRoot(5, 13, 2, 0x59f111f1); }
    else if t == 6 { CubeRoot(6, 17, 2, 0x923f82a4); }
    else { CubeRoot(7, 19, 2, 0xab1c5ed5); }
  }

  lemma CubeRoots8(t: nat)
    requires 8 <= t < 16
    ensures IsRoundConstant(t)
  {
    if t == 8 { CubeRoot(8, 23, 2, 0xd807aa98); }
    else if t == 9 { CubeRoot(9, 29, 3, 0x12835b01); }
    else if t == 10 { CubeRoot(10, 31, 3, 0x243185be); }
    else if t == 11 { CubeRoot(11, 37, 3, 0x550c7dc3); }
    else if t == 12 { CubeRoot(12, 41, 3, 0x72be5d74); }
    else if t == 13 { CubeRoot(13, 43, 3, 0x80deb1fe); }
    else if t == 14 { CubeRoot(14, 47, 3, 0x9bdc06a7); }
    else { CubeRoot(15, 53, 3, 0xc19bf174); }
  }

  lemma CubeRoots16(t: nat)
    requires 16 <= t < 24
    ensures IsRoundConstant(t)
  {
    if t == 16 { CubeRoot(16, 59, 3, 0xe49b69c1); }
    else if t == 17 { CubeRoot(17, 61, 3, 0xefbe4786); }
    else if t == 18 { CubeRoot(18, 67, 4, 0x0fc19dc6); }
    else if t == 19 { CubeRoot(19, 71, 4, 0x240ca1cc); }
    else if t == 20 { CubeRoot(20, 73, 4, 0x2de92c6f); }
    else if t == 21 { CubeRoot(21, 79, 4, 0x4a7484aa); }
    else if t == 22 { CubeRoot(22, 83, 4, 0x5cb0a9dc); }
    else { CubeRoot(23, 89, 4, 0x76f988da); }
  }

  lemma CubeRoots24(t: nat)
    requires 24 <= t < 32
    ensures IsRoundConstant(t)
  {
    if t == 24 { CubeRoot(24, 97, 4, 0x983e5152); }
    else if t == 25 { CubeRoot(25, 101, 4, 0xa831c66d); }
    else if t == 26 { CubeRoot(26, 103, 4, 0xb00327c8); }
    else if t == 27 { CubeRoot(27, 107, 4, 0xbf597fc7); }
    else if t == 28 { CubeRoot(28, 109, 4, 0xc6e00bf3); }
    else if t == 29 { CubeRoot(29, 113, 4, 0xd5a79147); }
    else if t == 30 { CubeRoot(30, 127, 5, 0x06ca6351); }
    else { CubeRoot(31, 131, 5, 0x14292967); }
  }

  lemma CubeRoots32(t: nat)
    requires 32 <= t < 40
    ensures IsRoundConstant(t)
  {
    if t == 32 { CubeRoot(32, 137, 5, 0x27b70a85); }
    else if t == 33 { CubeRoot(33, 139, 5, 0x2e1b2138); }
    else if t == 34 { CubeRoot(34, 149, 5, 0x4d2c6dfc); }
    else if t == 35 { CubeRoot(35, 151, 5, 0x53380d13); }
    else if t == 36 { CubeRoot(36, 157, 5, 0x650a7354); }
    else if t == 37 { CubeRoot(37, 163, 5, 0x766a0abb); }
    else if t == 38 { CubeRoot(38, 167, 5, 0x81c2c92e); }
    else { CubeRoot(39, 173, 5, 0x92722c85); }
  }

  lemma CubeRoots40(t: nat)
    requires 40 <= t < 48
    ensures IsRoundConstant(t)
  {
    if t == 40 { CubeRoot(40, 179, 5, 0xa2bfe8a1); }
    else if t == 41 { CubeRoot(41, 181, 5, 0xa81a664b); }
    else if t == 42 { CubeRoot(42, 191, 5, 0xc24b8b70); }
    else if t == 43 { CubeRoot(43, 193, 5, 0xc76c51a3); }
    else if t == 44 { CubeRoot(44, 197, 5, 0xd192e819); }
    else if t == 45 { CubeRoot(45, 199, 5, 0xd6990624); }
    else if t == 46 { CubeRoot(46, 211, 5, 0xf40e3585); }
    else { CubeRoot(47, 223, 6, 0x106aa070); }
  }

  lemma CubeRoots48(t: nat)
    requires 48 <= t < 56
    ensures IsRoundConstant(t)
  {
    if t == 48 { CubeRoot(48, 227, 6, 0x19a4c116); }
    else if t == 49 { CubeRoot(49, 229, 6, 0x1e376c08); }
    else if t == 50 { CubeRoot(50, 233, 6, 0x2748774c); }
    else if t == 51 { CubeRoot(51, 239, 6, 0x34b0bcb5); }
    else if t == 52 { CubeRoot(52, 241, 6, 0x391c0cb3); }
    else if t == 53 { CubeRoot(53, 251, 6, 0x4ed8aa4a); }
    else if t == 54 { CubeRoot(54, 257, 6, 0x5b9cca4f); }
    else { CubeRoot(55, 263, 6, 0x682e6ff3); }
  }

  lemma CubeRoots56(t: nat)
    requires 56 <= t < 64
    ensures IsRoundConstant(t)
  {
    if t == 56 { CubeRoot(56, 269, 6, 0x748f82ee); }
    else if t == 57 { CubeRoot(57, 271, 6, 0x78a5636f); }
    else if t == 58 { CubeRoot(58, 277, 6, 0x84c87814); }
    else if t == 59 { CubeRoot(59, 281, 6, 0x8cc70208); }
    else if t == 60 { CubeRoot(60, 283, 6, 0x90befffa); }
    else if t == 61 { CubeRoot(61, 293, 6, 0xa4506ceb); }
    else if t == 62 { CubeRoot(62, 307, 6, 0xbef9a3f7); }
    else { CubeRoot(63, 311, 6, 0xc67178f2); }
  }

  /** The round constants, in order. */
  lemma RoundConstants(t: nat)
    requires t < 64
    ensures IsRoundConstant(t)
  {
    if t < 8 { CubeRoots0(t); }
    else if t < 16 { CubeRoots8(t); }
    else if t < 24 { CubeRoots16(t); }
    else if t < 32 { CubeRoots24(t); }
    else if t < 40 { CubeRoots32(t); }
    else if t < 48 { CubeRoots40(t); }
    else if t < 56 { CubeRoots48(t); }
    else { CubeRoots56(t); }
  }

  /** The initial hash value. */
  lemma InitialHash()
    ensures forall i | 0 <= i < 8 :: SquareRootFraction(Prime(i), H0()[i])
  {
    assert IsSquareRoot(2, 1 * 0x1_0000_0000 + H0()[0].bits as nat);
    assert IsSquareRoot(3, 1 * 0x1_0000_0000 + H0()[1].bits as nat);
    assert IsSquareRoot(5, 2 * 0x1_0000_0000 + H0()[2].bits as nat);
    assert IsSquareRoot(7, 2 * 0x1_0000_0000 + H0()[3].bits as nat);
    assert IsSquareRoot(11, 3 * 0x1_0000_0000 + H0()[4].bits as nat);
    assert IsSquareRoot(13, 3 * 0x1_0000_0000 + H0()[5].bits as nat);
    assert IsSquareRoot(17, 4 * 0x1_0000_0000 + H0()[6].bits as nat);
    assert IsSquareRoot(19, 4 * 0x1_0000_0000 + H0()[7].bits as nat);
  }
}
