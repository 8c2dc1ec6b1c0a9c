/** The table of `Fips180Constants` is the list of the first 64 primes. */
module Primes {
  import opened Fips180Constants

  predicate IsPrime(n: nat) {
    n >= 2 && forall d | 2 <= d < n :: n % d != 0
  }

  /** No prime up to 17 divides `n`, but itself. */
  predicate Sieved(n: nat) {
    && (n % 2 != 0 || n == 2) && (n % 3 != 0 || n == 3) && (n % 5 != 0 || n == 5) && (n % 7 != 0 || n == 7)
    && (n % 11 != 0 || n == 11) && (n % 13 != 0 || n == 13) && (n % 17 != 0 || n == 17)
  }

  lemma MultipleOf2(m: nat)
    requires m > 1
    ensures !Sieved(2 * m)
  {
    assert (2 * m) % 2 == 0;
  }

  lemma MultipleOf3(m: nat)
    requires m > 1
    ensures !Sieved(3 * m)
  {
    assert (3 * m) % 3 == 0;
  }

  lemma MultipleOf5(m: nat)
    requires m > 1
    ensures !Sieved(5 * m)
  {
    assert (5 * m) % 5 == 0;
  }

  lemma MultipleOf7(m: nat)
    requires m > 1
    ensures !Sieved(7 * m)
  {
    assert (7 * m) % 7 == 0;
  }

  lemma MultipleOf11(m: nat)
    requires m > 1
    ensures !Sieved(11 * m)
  {
    assert (11 * m) % 11 == 0;
  }

  lemma MultipleOf13(m: nat)
    requires m > 1
    ensures !Sieved(13 * m)
  {
    assert (13 * m) % 13 == 0;
  }

  lemma MultipleOf17(m: nat)
    requires m > 1
    ensures !Sieved(17 * m)
  {
    assert (17 * m) % 17 == 0;
  }

  /** A number with a divisor from 2 to 17, other than itself, is not sieved. */
  lemma SmallDivisor(n: nat, d: nat, e: nat)
    requires n == d * e && 2 <= d <= 17 && e > 1
    ensures !Sieved(n)
  {
    if d == 2 { MultipleOf2(e); } else if d == 3 { MultipleOf3(e); } else if d == 4 { MultipleOf2(2 * e); }
    else if d == 5 { MultipleOf5(e); } else if d == 6 { MultipleOf2(3 * e); }
    else if d == 7 { MultipleOf7(e); } else if d == 8 { MultipleOf2(4 * e); }
    else if d == 9 { MultipleOf3(3 * e); } else if d == 10 { MultipleOf2(5 * e); }
    else if d == 11 { MultipleOf11(e); } else if d == 12 { MultipleOf2(6 * e); }
    else if d == 13 { MultipleOf13(e); } else if d == 14 { MultipleOf2(7 * e); }
    else if d == 15 { MultipleOf3(5 * e); } else if d == 16 { MultipleOf2(8 * e); } else { MultipleOf17(e); }
  }

  /** Below 324 the sieve decides primality. */
  lemma SieveDecides(n: nat)
    requires 2 <= n < 324
    ensures Sieved(n) <==> IsPrime(n)
  {
    if Sieved(n) {
      forall d | 2 <= d < n ensures n % d != 0 {
        if n % d == 0 {
          var e := n / d;
          assert n == d * e;
          OneIsSmall(n, d, e);
          if d <= 17 {
            SmallDivisor(n, d, e);
          } else {
            SmallDivisor(n, e, d);
          }
        }
      }
    }
  }

  lemma OneIsSmall(n: nat, d: nat, e: nat)
    requires n == d * e && 2 <= d < n < 324
    ensures 2 <= e < n && (d <= 17 || e <= 17)
  {
    if d >= 18 && e >= 18 {
      AtLeast(d, e);
    }
  }

  lemma AtLeast(d: nat, e: nat)
    requires d >= 18 && e >= 18
    ensures d * e >= 324
  {
  }

  // ------------------------------------------------------------------ the table

  lemma EntriesSieved(t: nat)
    requires t < 64
    ensures Sieved(Prime(t)) && Prime(t) <= 311 && (t < 63 ==> Prime(t) < Prime(t + 1))
  {
    if t == 0 {} else if t == 1 {} else if t == 2 {} else if t == 3 {} else if t == 4 {} else if t == 5 {}
    else if t == 6 {} else if t == 7 {} else if t == 8 {} else if t == 9 {} else if t == 10 {}
    else if t == 11 {} else if t == 12 {} else if t == 13 {} else if t == 14 {} else if t == 15 {}
    else if t == 16 {} else if t == 17 {} else if t == 18 {} else if t == 19 {} else if t == 20 {}
    else if t == 21 {} else if t == 22 {} else if t == 23 {} else if t == 24 {} else if t == 25 {}
    else if t == 26 {} else if t == 27 {} else if t == 28 {} else if t == 29 {} else if t == 30 {}
    else if t == 31 {} else if t == 32 {} else if t == 33 {} else if t == 34 {} else if t == 35 {}
    else if t == 36 {} else if t == 37 {} else if t == 38 {} else if t == 39 {} else if t == 40 {}
    else if t == 41 {} else if t == 42 {} else if t == 43 {} else if t == 44 {} else if t == 45 {}
    else if t == 46 {} else if t == 47 {} else if t == 48 {} else if t == 49 {} else if t == 50 {}
    else if t == 51 {} else if t == 52 {} else if t == 53 {} else if t == 54 {} else if t == 55 {}
    else if t == 56 {} else if t == 57 {} else if t == 58 {} else if t == 59 {} else if t == 60 {}
    else if t == 61 {} else if t == 62 {} else {}
  }

  lemma Found2(n: nat)
    requires 2 <= n < 64 && Sieved(n)
    ensures exists t: nat :: t < 64 && Prime(t) == n
  {
    if n % 2 == 0 { assert n == 2 ==> Prime(0) == n; } else if n == 3 { assert Prime(1) == n; }
    else if n == 5 { assert Prime(2) == n; } else if n == 7 { assert Prime(3) == n; } else if n == 9 {}
    else if n == 11 { assert Prime(4) == n; } else if n == 13 { assert Prime(5) == n; } else if n == 15 {}
    else if n == 17 { assert Prime(6) == n; } else if n == 19 { assert Prime(7) == n; } else if n == 21 {}
    else if n == 23 { assert Prime(8) == n; } else if n == 25 {} else if n == 27 {}
    else if n == 29 { assert Prime(9) == n; } else if n == 31 { assert Prime(10) == n; } else if n == 33 {}
    else if n == 35 {} else if n == 37 { assert Prime(11) == n; } else if n == 39 {}
    else if n == 41 { assert Prime(12) == n; } else if n == 43 { assert Prime(13) == n; } else if n == 45 {}
    else if n == 47 { assert Prime(14) == n; } else if n == 49 {} else if n == 51 {}
    else if n == 53 { assert Prime(15) == n; } else if n == 55 {} else if n == 57 {}
    else if n == 59 { assert Prime(16) == n; } else if n == 61 { assert Prime(17) == n; } else {}
  }

  lemma Found64(n: nat)
    requires 64 <= n < 128 && Sieved(n)
    ensures exists t: nat :: t < 64 && Prime(t) == n
  {
    if n % 2 == 0 {} else if n == 65 {} else if n == 67 { assert Prime(18) == n; } else if n == 69 {}
    else if n == 71 { assert Prime(19) == n; } else if n == 73 { assert Prime(20) == n; } else if n == 75 {}
    else if n == 77 {} else if n == 79 { assert Prime(21) == n; } else if n == 81 {}
    else if n == 83 { assert Prime(22) == n; } else if n == 85 {} else if n == 87 {}
    else if n == 89 { assert Prime(23) == n; } else if n == 91 {} else if n == 93 {} else if n == 95 {}
    else if n == 97 { assert Prime(24) == n; } else if n == 99 {} else if n == 101 { assert Prime(25) == n; }
    else if n == 103 { assert Prime(26) == n; } else if n == 105 {} else if n == 107 { assert Prime(27) == n; }
    else if n == 109 { assert Prime(28) == n; } else if n == 111 {} else if n == 113 { assert Prime(29) == n; }
    else if n == 115 {} else if n == 117 {} else if n == 119 {} else if n == 121 {} else if n == 123 {}
    else if n == 125 {} else { assert Prime(30) == n; }
  }

  lemma Found128(n: nat)
    requires 128 <= n < 192 && Sieved(n)
    ensures exists t: nat :: t < 64 && Prime(t) == n
  {
    if n % 2 == 0 {} else if n == 129 {} else if n == 131 { assert Prime(31) == n; } else if n == 133 {}
    else if n == 135 {} else if n == 137 { assert Prime(32) == n; } else if n == 139 { assert Prime(33) == n; }
    else if n == 141 {} else if n == 143 {} else if n == 145 {} else if n == 147 {}
    else if n == 149 { assert Prime(34) == n; } else if n == 151 { assert Prime(35) == n; } else if n == 153 {}
    else if n == 155 {} else if n == 157 { assert Prime(36) == n; } else if n == 159 {} else if n == 161 {}
    else if n == 163 { assert Prime(37) == n; } else if n == 165 {} else if n == 167 { assert Prime(38) == n; }
    else if n == 169 {} else if n == 171 {} else if n == 173 { assert Prime(39) == n; } else if n == 175 {}
    else if n == 177 {} else if n == 179 { assert Prime(40) == n; } else if n == 181 { assert Prime(41) == n; }
    else if n == 183 {} else if n == 185 {} else if n == 187 {} else if n == 189 {}
    else { assert Prime(42) == n; }
  }

  lemma Found192(n: nat)
    requires 192 <= n < 256 && Sieved(n)
    ensures exists t: nat :: t < 64 && Prime(t) == n
  {
    if n % 2 == 0 {} else if n == 193 { assert Prime(43) == n; } else if n == 195 {}
    else if n == 197 { assert Prime(44) == n; } else if n == 199 { assert Prime(45) == n; } else if n == 201 {}
    else if n == 203 {} else if n == 205 {} else if n == 207 {} else if n == 209 {}
    else if n == 211 { assert Prime(46) == n; } else if n == 213 {} else if n == 215 {} else if n == 217 {}
    else if n == 219 {} else if n == 221 {} else if n == 223 { assert Prime(47) == n; } else if n == 225 {}
    else if n == 227 { assert Prime(48) == n; } else if n == 229 { assert Prime(49) == n; } else if n == 231 {}
    else if n == 233 { assert Prime(50) == n; } else if n == 235 {} else if n == 237 {}
    else if n == 239 { assert Prime(51) == n; } else if n == 241 { assert Prime(52) == n; } else if n == 243 {}
    else if n == 245 {} else if n == 247 {} else if n == 249 {} else if n == 251 { assert Prime(53) == n; }
    else if n == 253 {} else {}
  }

  lemma Found256(n: nat)
    requires 256 <= n < 312 && Sieved(n)
    ensures exists t: nat :: t < 64 && Prime(t) == n
  {
    if n % 2 == 0 {} else if n == 257 { assert Prime(54) == n; } else if n == 259 {} else if n == 261 {}
    else if n == 263 { assert Prime(55) == n; } else if n == 265 {} else if n == 267 {}
    else if n == 269 { assert Prime(56) == n; } else if n == 271 { assert Prime(57) == n; } else if n == 273 {}
    else if n == 275 {} else if n == 277 { assert Prime(58) == n; } else if n == 279 {}
    else if n == 281 { assert Prime(59) == n; } else if n == 283 { assert Prime(60) == n; } else if n == 285 {}
    else if n == 287 {} else if n == 289 {} else if n == 291 {} else if n == 293 { assert Prime(61) == n; }
    else if n == 295 {} else if n == 297 {} else if n == 299 {} else if n == 301 {} else if n == 303 {}
    else if n == 305 {} else if n == 307 { assert Prime(62) == n; } else if n == 309 {}
    else { assert Prime(63) == n; }
  }

  lemma Found(n: nat)
    requires 2 <= n <= 311 && Sieved(n)
    ensures exists t: nat :: t < 64 && Prime(t) == n
  {
    if n < 64 { Found2(n); }
    else if n < 128 { Found64(n); }
    else if n < 192 { Found128(n); }
    else if n < 256 { Found192(n); }
    else { Found256(n); }
  }

  lemma {:induction false} Ascending(table: nat -> nat, t: nat, u: nat)
    requires t < u < 64 && forall i: nat | i < 63 :: table(i) < table(i + 1)
    ensures table(t) < table(u)
  {
    if t + 1 < u {
      Ascending(table, t, u - 1);
    }
    assert table(u - 1) < table(u - 1 + 1);
  }

  /** Up to 311 a number is prime iff it is an entry of the table. */
  lemma FirstPrimes(n: nat)
    requires n <= 311
    ensures IsPrime(n) <==> exists t: nat :: t < 64 && Prime(t) == n
  {
    if t: nat :| t < 64 && Prime(t) == n {
      EntriesSieved(t);
      assert n >= 2;
    }
    if n >= 2 {
      SieveDecides(n);
      if Sieved(n) {
        Found(n);
      }
    }
  }

  /** The entries ascend: they are the first 64 primes, in order. */
  lemma EntriesAscend(t: nat, u: nat)
    requires t < u < 64
    ensures Prime(t) < Prime(u)
  {
    forall i: nat | i < 63 ensures Prime(i) < Prime(i + 1) {
      EntriesSieved(i);
    }
    Ascending(Prime, t, u);
  }
}
