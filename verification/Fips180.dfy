/** SHA-256 as FIPS 180-4 defines it, on byte sequences. */
module Fips180 {
  import opened SyncTypes

  /** A 32-bit word, as it is stored. */
  datatype Word = Word(bits: bv32)

  // ------------------------------------------------------------------ sections 2.2.2 and 3.2: operations

  /** Addition modulo 2^32. */
  function Add(x: bv32, y: bv32): bv32 { x + y }

  function AddFour(a: bv32, b: bv32, c: bv32, d: bv32): bv32 { a + b + c + d }
  function AddFive(a: bv32, b: bv32, c: bv32, d: bv32, e: bv32): bv32 { a + b + c + d + e }

  function Xor(x: bv32, y: bv32, z: bv32): bv32 { x ^ y ^ z }

  function SHR(x: bv32, n: bv32): bv32
    requires n < 32
  {
    x >> n
  }

  function ROTR(x: bv32, n: bv32): bv32
    requires 0 < n < 32
  {
    (x >> n) | (x << (32 - n))
  }

  // ------------------------------------------------------------------ section 4.1.2: functions

  function Ch(x: bv32, y: bv32, z: bv32): bv32 { (x & y) ^ (!x & z) }
  function Maj(x: bv32, y: bv32, z: bv32): bv32 { (x & y) ^ (x & z) ^ (y & z) }
  function Sum0(x: bv32): bv32 { Xor(ROTR(x, 2), ROTR(x, 13), ROTR(x, 22)) }
  function Sum1(x: bv32): bv32 { Xor(ROTR(x, 6), ROTR(x, 11), ROTR(x, 25)) }
  function Sigma0(x: bv32): bv32 { Xor(ROTR(x, 7), ROTR(x, 18), SHR(x, 3)) }
  function Sigma1(x: bv32): bv32 { Xor(ROTR(x, 17), ROTR(x, 19), SHR(x, 10)) }

  // ------------------------------------------------------------------ sections 4.2.2 and 5.3.3: constants

  /** Constant `t`, for t below 64. */
  function K(t: nat): Word {
    match t
    case 0 => Word(0x428a2f98) case 1 => Word(0x71374491) case 2 => Word(0xb5c0fbcf) case 3 => Word(0xe9b5dba5)
    case 4 => Word(0x3956c25b) case 5 => Word(0x59f111f1) case 6 => Word(0x923f82a4) case 7 => Word(0xab1c5ed5)
    case 8 => Word(0xd807aa98) case 9 => Word(0x12835b01) case 10 => Word(0x243185be) case 11 => Word(0x550c7dc3)
    case 12 => Word(0x72be5d74) case 13 => Word(0x80deb1fe) case 14 => Word(0x9bdc06a7) case 15 => Word(0xc19bf174)
    case 16 => Word(0xe49b69c1) case 17 => Word(0xefbe4786) case 18 => Word(0x0fc19dc6) case 19 => Word(0x240ca1cc)
    case 20 => Word(0x2de92c6f) case 21 => Word(0x4a7484aa) case 22 => Word(0x5cb0a9dc) case 23 => Word(0x76f988da)
    case 24 => Word(0x983e5152) case 25 => Word(0xa831c66d) case 26 => Word(0xb00327c8) case 27 => Word(0xbf597fc7)
    case 28 => Word(0xc6e00bf3) case 29 => Word(0xd5a79147) case 30 => Word(0x06ca6351) case 31 => Word(0x14292967)
    case 32 => Word(0x27b70a85) case 33 => Word(0x2e1b2138) case 34 => Word(0x4d2c6dfc) case 35 => Word(0x53380d13)
    case 36 => Word(0x650a7354) case 37 => Word(0x766a0abb) case 38 => Word(0x81c2c92e) case 39 => Word(0x92722c85)
    case 40 => Word(0xa2bfe8a1) case 41 => Word(0xa81a664b) case 42 => Word(0xc24b8b70) case 43 => Word(0xc76c51a3)
    case 44 => Word(0xd192e819) case 45 => Word(0xd6990624) case 46 => Word(0xf40e3585) case 47 => Word(0x106aa070)
    case 48 => Word(0x19a4c116) case 49 => Word(0x1e376c08) case 50 => Word(0x2748774c) case 51 => Word(0x34b0bcb5)
    case 52 => Word(0x391c0cb3) case 53 => Word(0x4ed8aa4a) case 54 => Word(0x5b9cca4f) case 55 => Word(0x682e6ff3)
    case 56 => Word(0x748f82ee) case 57 => Word(0x78a5636f) case 58 => Word(0x84c87814) case 59 => Word(0x8cc70208)
    case 60 => Word(0x90befffa) case 61 => Word(0xa4506ceb) case 62 => Word(0xbef9a3f7) case _ => Word(0xc67178f2)
  }

  function H0(): (h: seq<Word>)
    ensures |h| == 8
  {[
    Word(0x6a09e667), Word(0xbb67ae85), Word(0x3c6ef372), Word(0xa54ff53a),
    Word(0x510e527f), Word(0x9b05688c), Word(0x1f83d9ab), Word(0x5be0cd19)]}

  // ------------------------------------------------------------------ section 5.1.1: padding

  /** The least k >= 0 with l + 1 + k = 56 (mod 64), counted in bytes. */
  function ZeroBytes(length: nat): (k: nat)
    ensures k < 64 && (length + 1 + k) % 64 == 56
  {
    var r := length % 64;
    if r <= 55 then 55 - r else 119 - r
  }

  function Zeros(n: nat): (z: seq<Byte>)
    ensures |z| == n
  {
    seq(n, _ => 0)
  }

  /** The low `n` bytes of `x`, most significant first. */
  function BigEndian(x: nat, n: nat): (b: seq<Byte>)
    ensures |b| == n
  {
    if n == 0 then [] else BigEndian(x / 256, n - 1) + [(x % 256) as Byte]
  }

  /** The length field has 64 bits. */
  const LENGTH_BYTES: nat := 8

  predicate InDomain(message: seq<Byte>) {
    |message| < 0x2000_0000_0000_0000
  }

  function Pad(message: seq<Byte>): seq<Byte> {
    message + [0x80] + Zeros(ZeroBytes(|message|)) + BigEndian(8 * |message|, LENGTH_BYTES)
  }

  // ------------------------------------------------------------------ sections 5.2.1 and 6.2.2: hashing

  type Block = b: seq<Byte> | |b| == 64 witness Zeros(64)
  type HashValue = h: seq<Word> | |h| == 8 witness H0()
  datatype Vars = Vars(a: Word, b: Word, c: Word, d: Word, e: Word, f: Word, g: Word, h: Word)

  /** The word arithmetic of one block, apart from the order in which section
      6.2.2 applies it: reading a word of the block, extending the schedule, one
      round, and the addition of its last step. */
  datatype Kernel = Kernel(pack: (Byte, Byte, Byte, Byte) -> Word,
                           extend: (Word, Word, Word, Word) -> Word,
                           round: (Vars, nat, Word) -> Vars,
                           add: (Word, Word) -> Word)

  /** A word of a block, read big-endian. */
  function Pack(b0: Byte, b1: Byte, b2: Byte, b3: Byte): Word {
    Word((b0 as bv32 << 24) | (b1 as bv32 << 16) | (b2 as bv32 << 8) | b3 as bv32)
  }

  function ScheduleWord(w2: Word, w7: Word, w15: Word, w16: Word): Word {
    Word(AddFour(Sigma1(w2.bits), w7.bits, Sigma0(w15.bits), w16.bits))
  }

  /** Step 3 for one `t`. */
  function Round(v: Vars, t: nat, w: Word): Vars {
    var t1 := AddFive(v.h.bits, Sum1(v.e.bits), Ch(v.e.bits, v.f.bits, v.g.bits), K(t).bits, w.bits);
    var t2 := Add(Sum0(v.a.bits), Maj(v.a.bits, v.b.bits, v.c.bits));
    Vars(Word(Add(t1, t2)), v.a, v.b, v.c, Word(Add(v.d.bits, t1)), v.e, v.f, v.g)
  }

  /** Step 4 for one word. */
  function AddWord(x: Word, y: Word): Word {
    Word(Add(x.bits, y.bits))
  }

  function Sha256Kernel(): Kernel {
    Kernel(Pack, ScheduleWord, Round, AddWord)
  }

  /** Step 1: word `t` of the message schedule. */
  function Schedule(kernel: Kernel, block: Block, t: nat): Word {
    if t < 16 then kernel.pack(block[4 * t], block[4 * t + 1], block[4 * t + 2], block[4 * t + 3])
    else kernel.extend(Schedule(kernel, block, t - 2), Schedule(kernel, block, t - 7),
                       Schedule(kernel, block, t - 15), Schedule(kernel, block, t - 16))
  }

  function ScheduleOf(kernel: Kernel, block: Block): seq<Word> {
    seq(|block|, t requires 0 <= t < 64 => Schedule(kernel, block, t))
  }

  /** Step 2. */
  function VarsOf(hash: HashValue): Vars {
    Vars(hash[0], hash[1], hash[2], hash[3], hash[4], hash[5], hash[6], hash[7])
  }

  /** Step 3 for all t below `t`. */
  function Rounds(kernel: Kernel, v: Vars, words: seq<Word>, t: nat): Vars
    requires t <= |words|
  {
    if t == 0 then v else kernel.round(Rounds(kernel, v, words, t - 1), t - 1, words[t - 1])
  }

  /** Step 4. */
  function AddVars(kernel: Kernel, hash: HashValue, v: Vars): HashValue {
    [kernel.add(hash[0], v.a), kernel.add(hash[1], v.b), kernel.add(hash[2], v.c), kernel.add(hash[3], v.d),
     kernel.add(hash[4], v.e), kernel.add(hash[5], v.f), kernel.add(hash[6], v.g), kernel.add(hash[7], v.h)]
  }

  /** Steps 1 to 4: the next intermediate hash value. */
  function Compress(kernel: Kernel, hash: HashValue, block: Block): HashValue {
    AddVars(kernel, hash, Rounds(kernel, VarsOf(hash), ScheduleOf(kernel, block), |block|))
  }

  function Sha256Compress(hash: HashValue, block: Block): HashValue {
    Compress(Sha256Kernel(), hash, block)
  }

  type Compression = (HashValue, Block) -> HashValue

  /** The hash value after all the blocks of `blocks`, taken in order. */
  function HashBlocks(compress: Compression, blocks: seq<Byte>): HashValue
    requires |blocks| % 64 == 0
    decreases |blocks|
  {
    if blocks == [] then H0()
    else
      var n := |blocks| - 64;
      compress(HashBlocks(compress, blocks[..n]), blocks[n..])
  }

  function Sha256(message: seq<Byte>): HashValue
    requires InDomain(message)
  {
    PadLength(message);
    HashBlocks(Sha256Compress, Pad(message))
  }

  lemma PadLength(message: seq<Byte>)
    ensures |Pad(message)| % 64 == 0
  {
  }

  // ------------------------------------------------------------------ text form of a digest

  function HexDigit(n: nat): char
    requires n < 16
  {
    "0123456789abcdef"[n]
  }

  /** The low `digits` hexadecimal digits of `n`. */
  function HexNumber(n: nat, digits: nat): (s: string)
    ensures |s| == digits
  {
    if digits == 0 then "" else HexNumber(n / 16, digits - 1) + [HexDigit(n % 16)]
  }

  function Hex(words: seq<Word>): (s: string)
    ensures |s| == 8 * |words|
  {
    if words == [] then ""
    else Hex(words[..|words| - 1]) + HexNumber(words[|words| - 1].bits as nat, 8)
  }

  function HexDigest(message: seq<Byte>): (s: string)
    requires InDomain(message)
    ensures |s| == 64
  {
    Hex(Sha256(message))
  }

  /** What the procedure gives for any message: beyond the domain of the standard
      only the low 64 bits of the length are hashed. */
  function DigestText(message: seq<Byte>): (s: string)
    ensures InDomain(message) ==> s == HexDigest(message)
  {
    PadLength(message);
    Hex(HashBlocks(Sha256Compress, Pad(message)))
  }
}
