/** What section 6.2.2 of FIPS 180-4 does in numbers: one word of the schedule, four
    rounds, the last addition and the text of a digest, for words that are known. */
module HashSteps {
  import opened SyncTypes
  import opened Fips180
  import opened StreamingSha256

  // ------------------------------------------------------------------ the functions of section 4.1.2, in shifts

  lemma Sum0Of(x: bv32, p: bv32, q: bv32, r: bv32)
    requires ROTR(x, 2) == p && ROTR(x, 13) == q && ROTR(x, 22) == r
    ensures Sum0(x) == Xor(p, q, r)
  {
  }

  lemma Sum0Is(x: bv32)
    ensures Sum0(x) == ((x >> 2) | (x << 30)) ^ ((x >> 13) | (x << 19)) ^ ((x >> 22) | (x << 10))
  {
    assert ROTR(x, 2) == ((x >> 2) | (x << 30));
    assert ROTR(x, 13) == ((x >> 13) | (x << 19));
    assert ROTR(x, 22) == ((x >> 22) | (x << 10));
    Sum0Of(x, ((x >> 2) | (x << 30)), ((x >> 13) | (x << 19)), ((x >> 22) | (x << 10)));
  }

  lemma Sum1Of(x: bv32, p: bv32, q: bv32, r: bv32)
    requires ROTR(x, 6) == p && ROTR(x, 11) == q && ROTR(x, 25) == r
    ensures Sum1(x) == Xor(p, q, r)
  {
  }

  lemma Sum1Is(x: bv32)
    ensures Sum1(x) == ((x >> 6) | (x << 26)) ^ ((x >> 11) | (x << 21)) ^ ((x >> 25) | (x << 7))
  {
    assert ROTR(x, 6) == ((x >> 6) | (x << 26));
    assert ROTR(x, 11) == ((x >> 11) | (x << 21));
    assert ROTR(x, 25) == ((x >> 25) | (x << 7));
    Sum1Of(x, ((x >> 6) | (x << 26)), ((x >> 11) | (x << 21)), ((x >> 25) | (x << 7)));
  }

  lemma Sigma0Of(x: bv32, p: bv32, q: bv32, r: bv32)
    requires ROTR(x, 7) == p && ROTR(x, 18) == q && SHR(x, 3) == r
    ensures Sigma0(x) == Xor(p, q, r)
  {
  }

  lemma Sigma0Is(x: bv32)
    ensures Sigma0(x) == ((x >> 7) | (x << 25)) ^ ((x >> 18) | (x << 14)) ^ (x >> 3)
  {
    assert ROTR(x, 7) == ((x >> 7) | (x << 25));
    assert ROTR(x, 18) == ((x >> 18) | (x << 14));
    Sigma0Of(x, ((x >> 7) | (x << 25)), ((x >> 18) | (x << 14)), (x >> 3));
  }

  lemma Sigma1Of(x: bv32, p: bv32, q: bv32, r: bv32)
    requires ROTR(x, 17) == p && ROTR(x, 19) == q && SHR(x, 10) == r
    ensures Sigma1(x) == Xor(p, q, r)
  {
  }

  lemma Sigma1Is(x: bv32)
    ensures Sigma1(x) == ((x >> 17) | (x << 15)) ^ ((x >> 19) | (x << 13)) ^ (x >> 10)
  {
    assert ROTR(x, 17) == ((x >> 17) | (x << 15));
    assert ROTR(x, 19) == ((x >> 19) | (x << 13));
    Sigma1Of(x, ((x >> 17) | (x << 15)), ((x >> 19) | (x << 13)), (x >> 10));
  }

  // ------------------------------------------------------------------ following the schedule

  predicate Fours(words: seq<Word>, t: nat, w0: bv32, w1: bv32, w2: bv32, w3: bv32)
    requires t + 4 <= |words|
  {
    words[t] == Word(w0) && words[t + 1] == Word(w1) && words[t + 2] == Word(w2) && words[t + 3] == Word(w3)
  }

  /** Word `t` of the schedule from the four it depends on. */
  lemma Grow(kernel: Kernel, words: seq<Word>, t: nat, w2: bv32, w7: bv32, w15: bv32, w16: bv32, w: bv32)
    requires IsSha256(kernel, Sha256Compress) && Recurs(kernel, words) && 16 <= t < 64
    requires words[t - 2] == Word(w2) && words[t - 7] == Word(w7)
    requires words[t - 15] == Word(w15) && words[t - 16] == Word(w16)
    requires w == AddFour(((w2 >> 17) | (w2 << 15)) ^ ((w2 >> 19) | (w2 << 13)) ^ (w2 >> 10), w7,
                          ((w15 >> 7) | (w15 << 25)) ^ ((w15 >> 18) | (w15 << 14)) ^ (w15 >> 3), w16)
    ensures words[t] == Word(w)
  {
    Sigma1Is(w2);
    Sigma0Is(w15);
    assert AtWord(t) && Here(0);
  }

  // ------------------------------------------------------------------ following the rounds

  function Variables(a: bv32, b: bv32, c: bv32, d: bv32, e: bv32, f: bv32, g: bv32, h: bv32): Vars {
    Vars(Word(a), Word(b), Word(c), Word(d), Word(e), Word(f), Word(g), Word(h))
  }

  ghost predicate Keys(t: nat, k0: bv32, k1: bv32, k2: bv32, k3: bv32) {
    forall n: nat {:trigger Here(n)} ::
      Here(n) ==> K(t) == Word(k0) && K(t + 1) == Word(k1) && K(t + 2) == Word(k2) && K(t + 3) == Word(k3)
  }

  lemma AddedFive(a: bv32, b: bv32, c: bv32, d: bv32, e: bv32)
    ensures AddFive(a, b, c, d, e) == a + b + c + d + e
  {
  }

  lemma Added(x: bv32, y: bv32)
    ensures Add(x, y) == x + y
  {
  }

  lemma FirstSum(e: bv32, f: bv32, g: bv32, h: bv32, k: bv32, w: bv32)
    ensures AddFive(h, Sum1(e), Ch(e, f, g), k, w) ==
            h + (((e >> 6) | (e << 26)) ^ ((e >> 11) | (e << 21)) ^ ((e >> 25) | (e << 7))) +
            ((e & f) ^ (!e & g)) + k + w
  {
    Sum1Is(e);
    AddedFive(h, ((e >> 6) | (e << 26)) ^ ((e >> 11) | (e << 21)) ^ ((e >> 25) | (e << 7)),
              (e & f) ^ (!e & g), k, w);
  }

  lemma SecondSum(a: bv32, b: bv32, c: bv32)
    ensures Add(Sum0(a), Maj(a, b, c)) ==
            (((a >> 2) | (a << 30)) ^ ((a >> 13) | (a << 19)) ^ ((a >> 22) | (a << 10))) +
            ((a & b) ^ (a & c) ^ (b & c))
  {
    Sum0Is(a);
    Added(((a >> 2) | (a << 30)) ^ ((a >> 13) | (a << 19)) ^ ((a >> 22) | (a << 10)),
          (a & b) ^ (a & c) ^ (b & c));
  }

  lemma NewE(d: bv32, e: bv32, f: bv32, g: bv32, h: bv32, k: bv32, w: bv32)
    ensures Add(d, AddFive(h, Sum1(e), Ch(e, f, g), k, w)) ==
            d + (h + (((e >> 6) | (e << 26)) ^ ((e >> 11) | (e << 21)) ^ ((e >> 25) | (e << 7))) +
                 ((e & f) ^ (!e & g)) + k + w)
  {
    FirstSum(e, f, g, h, k, w);
    Added(d, h + (((e >> 6) | (e << 26)) ^ ((e >> 11) | (e << 21)) ^ ((e >> 25) | (e << 7))) +
             ((e & f) ^ (!e & g)) + k + w);
  }

  lemma NewA(a: bv32, b: bv32, c: bv32, e: bv32, f: bv32, g: bv32, h: bv32, k: bv32, w: bv32)
    ensures Add(AddFive(h, Sum1(e), Ch(e, f, g), k, w), Add(Sum0(a), Maj(a, b, c))) ==
            (h + (((e >> 6) | (e << 26)) ^ ((e >> 11) | (e << 21)) ^ ((e >> 25) | (e << 7))) +
             ((e & f) ^ (!e & g)) + k + w) +
            ((((a >> 2) | (a << 30)) ^ ((a >> 13) | (a << 19)) ^ ((a >> 22) | (a << 10))) +
             ((a & b) ^ (a & c) ^ (b & c)))
  {
    FirstSum(e, f, g, h, k, w);
    SecondSum(a, b, c);
    Added(h + (((e >> 6) | (e << 26)) ^ ((e >> 11) | (e << 21)) ^ ((e >> 25) | (e << 7))) +
          ((e & f) ^ (!e & g)) + k + w,
          (((a >> 2) | (a << 30)) ^ ((a >> 13) | (a << 19)) ^ ((a >> 22) | (a << 10))) +
          ((a & b) ^ (a & c) ^ (b & c)));
  }

  lemma RoundOf(kernel: Kernel, t: nat, k: bv32, w: bv32, a: bv32, b: bv32, c: bv32, d: bv32,
                e: bv32, f: bv32, g: bv32, h: bv32)
    requires IsSha256(kernel, Sha256Compress) && K(t) == Word(k)
    ensures kernel.round(Variables(a, b, c, d, e, f, g, h), t, Word(w)) ==
            Variables(Add(AddFive(h, Sum1(e), Ch(e, f, g), k, w), Add(Sum0(a), Maj(a, b, c))), a, b, c,
                      Add(d, AddFive(h, Sum1(e), Ch(e, f, g), k, w)), e, f, g)
  {
    assert Here(0);
  }

  lemma Turn(kernel: Kernel, v: Vars, words: seq<Word>, t: nat, k: bv32, w: bv32, a: bv32, b: bv32, c: bv32, d: bv32,
             e: bv32, f: bv32, g: bv32, h: bv32, a': bv32, e': bv32)
    requires IsSha256(kernel, Sha256Compress) && t < |words| && words[t] == Word(w) && K(t) == Word(k)
    requires var t1 := h + (((e >> 6) | (e << 26)) ^ ((e >> 11) | (e << 21)) ^ ((e >> 25) | (e << 7))) +
                   ((e & f) ^ (!e & g)) + k + w;
             e' == d + t1 &&
             a' == t1 + ((((a >> 2) | (a << 30)) ^ ((a >> 13) | (a << 19)) ^ ((a >> 22) | (a << 10))) +
                          ((a & b) ^ (a & c) ^ (b & c)))
    requires Rounds(kernel, v, words, t) == Variables(a, b, c, d, e, f, g, h)
    ensures Rounds(kernel, v, words, t + 1) == Variables(a', a, b, c, e', e, f, g)
  {
    RoundOf(kernel, t, k, w, a, b, c, d, e, f, g, h);
    NewE(d, e, f, g, h, k, w);
    NewA(a, b, c, e, f, g, h, k, w);
  }

  /** Four rounds replace all eight variables. */
  lemma FourTurns(kernel: Kernel, v: Vars, words: seq<Word>, t: nat, k0: bv32, k1: bv32, k2: bv32, k3: bv32,
                  w0: bv32, w1: bv32, w2: bv32, w3: bv32,
                  a: bv32, b: bv32, c: bv32, d: bv32, e: bv32, f: bv32, g: bv32, h: bv32,
                  a': bv32, b': bv32, c': bv32, d': bv32, e': bv32, f': bv32, g': bv32, h': bv32)
    requires IsSha256(kernel, Sha256Compress) && t + 4 <= |words| && Fours(words, t, w0, w1, w2, w3)
    requires Keys(t, k0, k1, k2, k3)
    requires Rounds(kernel, v, words, t) == Variables(a, b, c, d, e, f, g, h)
    requires var t1 := h + (((e >> 6) | (e << 26)) ^ ((e >> 11) | (e << 21)) ^ ((e >> 25) | (e << 7))) +
                   ((e & f) ^ (!e & g)) + k0 + w0;
             h' == d + t1 &&
             d' == t1 + ((((a >> 2) | (a << 30)) ^ ((a >> 13) | (a << 19)) ^ ((a >> 22) | (a << 10))) +
                          ((a & b) ^ (a & c) ^ (b & c)))
    requires var t1 := g + (((h' >> 6) | (h' << 26)) ^ ((h' >> 11) | (h' << 21)) ^ ((h' >> 25) | (h' << 7))) +
                   ((h' & e) ^ (!h' & f)) + k1 + w1;
             g' == c + t1 &&
             c' == t1 + ((((d' >> 2) | (d' << 30)) ^ ((d' >> 13) | (d' << 19)) ^ ((d' >> 22) | (d' << 10))) +
                          ((d' & a) ^ (d' & b) ^ (a & b)))
    requires var t1 := f + (((g' >> 6) | (g' << 26)) ^ ((g' >> 11) | (g' << 21)) ^ ((g' >> 25) | (g' << 7))) +
                   ((g' & h') ^ (!g' & e)) + k2 + w2;
             f' == b + t1 &&
             b' == t1 + ((((c' >> 2) | (c' << 30)) ^ ((c' >> 13) | (c' << 19)) ^ ((c' >> 22) | (c' << 10))) +
                          ((c' & d') ^ (c' & a) ^ (d' & a)))
    requires var t1 := e + (((f' >> 6) | (f' << 26)) ^ ((f' >> 11) | (f' << 21)) ^ ((f' >> 25) | (f' << 7))) +
                   ((f' & g') ^ (!f' & h')) + k3 + w3;
             e' == a + t1 &&
             a' == t1 + ((((b' >> 2) | (b' << 30)) ^ ((b' >> 13) | (b' << 19)) ^ ((b' >> 22) | (b' << 10))) +
                          ((b' & c') ^ (b' & d') ^ (c' & d')))
    ensures Rounds(kernel, v, words, t + 4) == Variables(a', b', c', d', e', f', g', h')
  {
    assert Here(0);
    Turn(kernel, v, words, t, k0, w0, a, b, c, d, e, f, g, h, d', h');
    Turn(kernel, v, words, t + 1, k1, w1, d', a, b, c, h', e, f, g, c', g');
    Turn(kernel, v, words, t + 2, k2, w2, c', d', a, b, g', h', e, f, b', f');
    Turn(kernel, v, words, t + 3, k3, w3, b', c', d', a, f', g', h', e, a', e');
  }

  /** Four words of the schedule, from those of the sixteen before them that matter. */
  lemma GrowFour(kernel: Kernel, words: seq<Word>, t: nat, p0: bv32, p1: bv32, p2: bv32, p3: bv32, p4: bv32,
                 p9: bv32, p10: bv32, p11: bv32, p12: bv32, p14: bv32, p15: bv32,
                 w0: bv32, w1: bv32, w2: bv32, w3: bv32)
    requires IsSha256(kernel, Sha256Compress) && Recurs(kernel, words) && 16 <= t <= 60
    requires Fours(words, t - 16, p0, p1, p2, p3) && words[t - 12] == Word(p4)
    requires Fours(words, t - 7, p9, p10, p11, p12) && words[t - 2] == Word(p14) && words[t - 1] == Word(p15)
    requires w0 == AddFour(((p14 >> 17) | (p14 << 15)) ^ ((p14 >> 19) | (p14 << 13)) ^ (p14 >> 10), p9,
                           ((p1 >> 7) | (p1 << 25)) ^ ((p1 >> 18) | (p1 << 14)) ^ (p1 >> 3), p0)
    requires w1 == AddFour(((p15 >> 17) | (p15 << 15)) ^ ((p15 >> 19) | (p15 << 13)) ^ (p15 >> 10), p10,
                           ((p2 >> 7) | (p2 << 25)) ^ ((p2 >> 18) | (p2 << 14)) ^ (p2 >> 3), p1)
    requires w2 == AddFour(((w0 >> 17) | (w0 << 15)) ^ ((w0 >> 19) | (w0 << 13)) ^ (w0 >> 10), p11,
                           ((p3 >> 7) | (p3 << 25)) ^ ((p3 >> 18) | (p3 << 14)) ^ (p3 >> 3), p2)
    requires w3 == AddFour(((w1 >> 17) | (w1 << 15)) ^ ((w1 >> 19) | (w1 << 13)) ^ (w1 >> 10), p12,
                           ((p4 >> 7) | (p4 << 25)) ^ ((p4 >> 18) | (p4 << 14)) ^ (p4 >> 3), p3)
    ensures Fours(words, t, w0, w1, w2, w3)
  {
    Grow(kernel, words, t, p14, p9, p1, p0, w0);
    Grow(kernel, words, t + 1, p15, p10, p2, p1, w1);
    Grow(kernel, words, t + 2, w0, p11, p3, p2, w2);
    Grow(kernel, words, t + 3, w1, p12, p4, p3, w3);
  }

  lemma KeysAre(t: nat, k0: bv32, k1: bv32, k2: bv32, k3: bv32)
    requires K(t) == Word(k0) && K(t + 1) == Word(k1) && K(t + 2) == Word(k2) && K(t + 3) == Word(k3)
    ensures Keys(t, k0, k1, k2, k3)
  {
  }

  // ------------------------------------------------------------------ padding and the words of a block

  lemma {:induction false} NoBytes(n: nat)
    ensures BigEndian(0, n) == Zeros(n)
  {
    if n > 0 {
      NoBytes(n - 1);
    }
  }

  lemma LengthBytes(high: nat, low: nat)
    requires high < 256 && low < 256
    ensures BigEndian(256 * high + low, 8) == Zeros(6) + [high as Byte, low as Byte]
  {
    assert BigEndian(256 * high + low, 8) == BigEndian(high, 7) + [low as Byte];
    assert BigEndian(high, 7) == BigEndian(0, 6) + [high as Byte];
    NoBytes(6);
  }

  ghost predicate Packed(b0: Byte, b1: Byte, b2: Byte, b3: Byte, w: bv32) {
    forall n: nat {:trigger Here(n)} :: Here(n) ==> Pack(b0, b1, b2, b3) == Word(w)
  }

  lemma Packs(b0: Byte, b1: Byte, b2: Byte, b3: Byte, w: bv32)
    requires Pack(b0, b1, b2, b3) == Word(w)
    ensures Packed(b0, b1, b2, b3, w)
  {
  }

  lemma WordAt(kernel: Kernel, block: Block, words: seq<Word>, t: nat, b0: Byte, b1: Byte, b2: Byte, b3: Byte,
               w: bv32)
    requires IsSha256(kernel, Sha256Compress) && words == ScheduleOf(kernel, block) && t < 16
    requires block[4 * t] == b0 && block[4 * t + 1] == b1 && block[4 * t + 2] == b2 && block[4 * t + 3] == b3
    requires Packed(b0, b1, b2, b3, w)
    ensures words[t] == Word(w)
  {
    ScheduleRecurs(kernel, block);
    assert Here(0);
  }

  lemma ZeroWords(kernel: Kernel, block: Block, words: seq<Word>, m: nat, n: nat)
    requires IsSha256(kernel, Sha256Compress) && words == ScheduleOf(kernel, block) && m <= n <= 16
    requires forall i | 4 * m <= i < 4 * n :: block[i] == 0
    ensures forall t | m <= t < n :: words[t] == Word(0)
  {
    Packs(0, 0, 0, 0, 0);
    forall t | m <= t < n ensures words[t] == Word(0) {
      WordAt(kernel, block, words, t, 0, 0, 0, 0, 0);
    }
  }

  // ------------------------------------------------------------------ the last step, and the chain

  function Values(a: bv32, b: bv32, c: bv32, d: bv32, e: bv32, f: bv32, g: bv32, h: bv32): HashValue {
    [Word(a), Word(b), Word(c), Word(d), Word(e), Word(f), Word(g), Word(h)]
  }

  lemma Sum(kernel: Kernel, x: bv32, y: bv32, z: bv32)
    requires IsSha256(kernel, Sha256Compress) && x + y == z
    ensures kernel.add(Word(x), Word(y)) == Word(z)
  {
    assert Here(0);
  }

  /** The last step for the words of a hash value and of the variables. */
  lemma Sums(kernel: Kernel, a: bv32, b: bv32, c: bv32, d: bv32, e: bv32, f: bv32, g: bv32, h: bv32,
             a': bv32, b': bv32, c': bv32, d': bv32, e': bv32, f': bv32, g': bv32, h': bv32)
    requires IsSha256(kernel, Sha256Compress)
    ensures AddVars(kernel, Values(a, b, c, d, e, f, g, h), Variables(a', b', c', d', e', f', g', h')) ==
            Values(a + a', b + b', c + c', d + d', e + e', f + f', g + g', h + h')
  {
    Sum(kernel, a, a', a + a');
    Sum(kernel, b, b', b + b');
    Sum(kernel, c, c', c + c');
    Sum(kernel, d, d', d + d');
    Sum(kernel, e, e', e + e');
    Sum(kernel, f, f', f + f');
    Sum(kernel, g, g', g + g');
    Sum(kernel, h, h', h + h');
  }

  lemma TwoBlocks(compress: Compression, first: Block, second: Block, between: HashValue, last: HashValue)
    requires compress(H0(), first) == between && compress(between, second) == last
    ensures |first + second| % 64 == 0 && HashBlocks(compress, first + second) == last
  {
    HashOneMore(compress, [], first);
    assert [] + first == first;
    HashOneMore(compress, first, second);
  }

  // ------------------------------------------------------------------ the text of a digest

  lemma FourDigits(n: nat, digits: nat, rest: nat, d3: nat, d2: nat, d1: nat, d0: nat)
    requires digits >= 4 && d3 < 16 && d2 < 16 && d1 < 16 && d0 < 16
    requires n == 16 * (16 * (16 * (16 * rest + d3) + d2) + d1) + d0
    ensures HexNumber(n, digits) ==
            HexNumber(rest, digits - 4) + [HexDigit(d3), HexDigit(d2), HexDigit(d1), HexDigit(d0)]
  {
    var n3 := 16 * rest + d3;
    var n2 := 16 * n3 + d2;
    var n1 := 16 * n2 + d1;
    assert n / 16 == n1 && n % 16 == d0 && n1 / 16 == n2 && n1 % 16 == d1;
    assert n2 / 16 == n3 && n2 % 16 == d2 && n3 / 16 == rest && n3 % 16 == d3;
    assert HexNumber(n, digits) == HexNumber(n1, digits - 1) + [HexDigit(d0)];
    assert HexNumber(n1, digits - 1) == HexNumber(n2, digits - 2) + [HexDigit(d1)];
    assert HexNumber(n2, digits - 2) == HexNumber(n3, digits - 3) + [HexDigit(d2)];
    assert HexNumber(n3, digits - 3) == HexNumber(rest, digits - 4) + [HexDigit(d3)];
  }

  ghost predicate Spelled(x: bv32, text: string) {
    forall n: nat {:trigger Here(n)} :: Here(n) ==> HexNumber(x as nat, 8) == text
  }

  lemma EightDigits(high: nat, n: nat, d7: nat, d6: nat, d5: nat, d4: nat, d3: nat, d2: nat, d1: nat, d0: nat)
    requires d7 < 16 && d6 < 16 && d5 < 16 && d4 < 16 && d3 < 16 && d2 < 16 && d1 < 16 && d0 < 16
    requires high == 16 * (16 * (16 * d7 + d6) + d5) + d4
    requires n == 16 * (16 * (16 * (16 * high + d3) + d2) + d1) + d0
    ensures HexNumber(n, 8) == [HexDigit(d7), HexDigit(d6), HexDigit(d5), HexDigit(d4)] +
                               [HexDigit(d3), HexDigit(d2), HexDigit(d1), HexDigit(d0)]
  {
    assert HexNumber(high, 4) == [HexDigit(d7), HexDigit(d6), HexDigit(d5), HexDigit(d4)] by {
      FourDigits(high, 4, 0, d7, d6, d5, d4);
    }
    FourDigits(n, 8, high, d3, d2, d1, d0);
  }

  lemma Spells(high: nat, n: nat, d7: nat, d6: nat, d5: nat, d4: nat, d3: nat, d2: nat, d1: nat, d0: nat,
               x: bv32, text: string)
    requires d7 < 16 && d6 < 16 && d5 < 16 && d4 < 16 && d3 < 16 && d2 < 16 && d1 < 16 && d0 < 16
    requires high == 16 * (16 * (16 * d7 + d6) + d5) + d4 && x as nat == n
    requires n == 16 * (16 * (16 * (16 * high + d3) + d2) + d1) + d0
    requires text == [HexDigit(d7), HexDigit(d6), HexDigit(d5), HexDigit(d4)] +
                     [HexDigit(d3), HexDigit(d2), HexDigit(d1), HexDigit(d0)]
    ensures Spelled(x, text)
  {
    EightDigits(high, n, d7, d6, d5, d4, d3, d2, d1, d0);
    SpelledAs(x, n, text);
  }

  lemma SpelledAs(x: bv32, n: nat, text: string)
    requires x as nat == n && HexNumber(n, 8) == text
    ensures Spelled(x, text)
  {
  }

  lemma HexSnoc(words: seq<Word>, x: bv32, text: string)
    requires Spelled(x, text)
    ensures Hex(words + [Word(x)]) == Hex(words) + text
  {
    assert Here(0);
    assert (words + [Word(x)])[..|words|] == words;
  }

  lemma HexOne(x: bv32, text: string)
    requires Spelled(x, text)
    ensures Hex([Word(x)]) == text
  {
    HexSnoc([], x, text);
    assert [] + [Word(x)] == [Word(x)];
  }

  lemma {:induction false} HexConcat(u: seq<Word>, v: seq<Word>)
    ensures Hex(u + v) == Hex(u) + Hex(v)
    decreases |v|
  {
    if v == [] {
      assert u + v == u;
    } else {
      var front, last := v[..|v| - 1], v[|v| - 1].bits;
      assert v == front + [Word(last)] && u + v == (u + front) + [Word(last)];
      HexConcat(u, front);
      var text := TextOf(last);
      HexLast(u, front, last, text);
    }
  }

  lemma TextOf(x: bv32) returns (text: string)
    ensures Spelled(x, text)
  {
    text := HexNumber(x as nat, 8);
  }

  lemma HexLast(u: seq<Word>, front: seq<Word>, last: bv32, text: string)
    requires Hex(u + front) == Hex(u) + Hex(front) && Spelled(last, text)
    ensures Hex((u + front) + [Word(last)]) == Hex(u) + Hex(front + [Word(last)])
  {
    HexSnoc(u + front, last, text);
    HexSnoc(front, last, text);
  }

  lemma HexTwo(a: bv32, b: bv32, ta: string, tb: string)
    requires Spelled(a, ta) && Spelled(b, tb)
    ensures Hex([Word(a), Word(b)]) == ta + tb
  {
    HexOne(a, ta);
    HexOne(b, tb);
    HexConcat([Word(a)], [Word(b)]);
    assert [Word(a), Word(b)] == [Word(a)] + [Word(b)];
  }

  lemma HexValues(a: bv32, b: bv32, c: bv32, d: bv32, e: bv32, f: bv32, g: bv32, h: bv32,
                  ta: string, tb: string, tc: string, td: string, te: string, tf: string, tg: string, th: string)
    requires Spelled(a, ta) && Spelled(b, tb) && Spelled(c, tc) && Spelled(d, td)
    requires Spelled(e, te) && Spelled(f, tf) && Spelled(g, tg) && Spelled(h, th)
    ensures Hex(Values(a, b, c, d, e, f, g, h)) == (ta + tb) + (tc + td) + (te + tf) + (tg + th)
  {
    var ab, cd, ef, gh := [Word(a), Word(b)], [Word(c), Word(d)], [Word(e), Word(f)], [Word(g), Word(h)];
    HexTwo(a, b, ta, tb);
    HexTwo(c, d, tc, td);
    HexTwo(e, f, te, tf);
    HexTwo(g, h, tg, th);
    HexConcat(ab, cd);
    HexConcat(ab + cd, ef);
    HexConcat(ab + cd + ef, gh);
    assert Values(a, b, c, d, e, f, g, h) == ab + cd + ef + gh;
  }
}
