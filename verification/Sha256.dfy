/** The streaming hash of net/sha256.cpp, proved against `Fips180`. */
module StreamingSha256 {
  import opened SyncTypes
  import opened Fips180

  /** The schedule in the order in which line 69 of net/sha256.cpp adds its terms. */
  lemma ScheduleOrder(w2: Word, w7: Word, w15: Word, w16: Word)
    ensures Word(AddFour(w16.bits, Sigma0(w15.bits), w7.bits, Sigma1(w2.bits))) == ScheduleWord(w2, w7, w15, w16)
  {
    AddReverse(w16.bits, Sigma0(w15.bits), w7.bits, Sigma1(w2.bits));
  }

  lemma AddReverse(a: bv32, b: bv32, c: bv32, d: bv32)
    ensures AddFour(a, b, c, d) == AddFour(d, c, b, a)
  {
  }

  // ------------------------------------------------------------------ the 64-bit length field

  /** `x >> bits` on an unsigned integer. */
  function ShiftRight(x: nat, bits: nat): nat {
    if bits == 0 then x else ShiftRight(x / 2, bits - 1)
  }

  lemma ShiftByte(x: nat, bits: nat)
    ensures ShiftRight(x, bits + 8) == ShiftRight(x / 256, bits)
  {
    var x1 := x / 2; var x2 := x1 / 2; var x3 := x2 / 2; var x4 := x3 / 2;
    var x5 := x4 / 2; var x6 := x5 / 2; var x7 := x6 / 2;
    assert ShiftRight(x, bits + 8) == ShiftRight(x1, bits + 7) == ShiftRight(x2, bits + 6);
    assert ShiftRight(x2, bits + 6) == ShiftRight(x3, bits + 5) == ShiftRight(x4, bits + 4);
    assert ShiftRight(x4, bits + 4) == ShiftRight(x5, bits + 3) == ShiftRight(x6, bits + 2);
    assert ShiftRight(x6, bits + 2) == ShiftRight(x7, bits + 1) == ShiftRight(x7 / 2, bits);
    assert x7 / 2 == x / 256;
  }

  /** Byte `i` of the big-endian form is the value shifted right and truncated. */
  lemma {:induction false} BigEndianByShifts(x: nat, n: nat, i: nat)
    requires i < n
    ensures BigEndian(x, n)[i] == (ShiftRight(x, 8 * (n - 1 - i)) % 256) as Byte
  {
    if i < n - 1 {
      BigEndianByShifts(x / 256, n - 1, i);
      ShiftByte(x, 8 * (n - 2 - i));
    }
  }

  // ------------------------------------------------------------------ padding

  lemma {:induction false} BigEndianInjective(x: nat, y: nat, n: nat)
    requires BigEndian(x, n) == BigEndian(y, n)
    requires x < Power256(n) && y < Power256(n)
    ensures x == y
  {
    if n > 0 {
      var a, b := BigEndian(x / 256, n - 1), BigEndian(y / 256, n - 1);
      assert BigEndian(x, n)[..n - 1] == a && BigEndian(y, n)[..n - 1] == b;
      assert BigEndian(x, n)[n - 1] == (x % 256) as Byte;
      assert BigEndian(y, n)[n - 1] == (y % 256) as Byte;
      BigEndianInjective(x / 256, y / 256, n - 1);
    }
  }

  function Power256(n: nat): nat {
    if n == 0 then 1 else 256 * Power256(n - 1)
  }

  lemma PadInjective(m1: seq<Byte>, m2: seq<Byte>)
    requires InDomain(m1) && InDomain(m2)
    requires Pad(m1) == Pad(m2)
    ensures m1 == m2
  {
    var p := Pad(m1);
    assert p[|p| - 8..] == BigEndian(8 * |m1|, LENGTH_BYTES);
    assert Pad(m2)[|p| - 8..] == BigEndian(8 * |m2|, LENGTH_BYTES);
    EightBytes();
    BigEndianInjective(8 * |m1|, 8 * |m2|, LENGTH_BYTES);
    assert m1 == p[..|m1|] == Pad(m2)[..|m2|] == m2;
  }

  /** The padded message is the least number of whole blocks with room for the
      marker and the length: one more block than the whole blocks of the message
      when at most 55 bytes remain, two more otherwise. */
  lemma PadBlockCount(message: seq<Byte>)
    ensures |Pad(message)| == 64 * (|message| / 64 + if |message| % 64 <= 55 then 1 else 2)
    ensures |message| + 1 + LENGTH_BYTES <= |Pad(message)|
    ensures forall blocks: nat | |message| + 1 + LENGTH_BYTES <= 64 * blocks :: |Pad(message)| <= 64 * blocks
  {
    var q, r := |message| / 64, |message| % 64;
    assert |message| == 64 * q + r;
    forall blocks: nat | |message| + 1 + LENGTH_BYTES <= 64 * blocks ensures |Pad(message)| <= 64 * blocks {
      assert 64 * (blocks - q) >= r + 9;
    }
  }

  lemma PadIs(m: seq<Byte>, zeros: nat, blocks: nat, totalBits: nat, padded: seq<Byte>)
    requires zeros < 64 && |m| + 1 + zeros == 64 * blocks + 56 && totalBits == 8 * |m| % U64_LIMIT
    requires padded == m + [0x80] + Zeros(zeros) + BigEndian(totalBits, LENGTH_BYTES)
    ensures padded == Pad(m)
  {
    ZeroBytesIs(|m|, zeros, blocks);
    LengthField(8 * |m|);
  }

  /** The field keeps only the low bytes of the length. */
  lemma {:induction false} BigEndianLow(x: nat, k: nat, n: nat)
    ensures BigEndian(x + Power256(n) * k, n) == BigEndian(x, n)
  {
    if n > 0 {
      var more := Power256(n - 1) * k;
      assert Power256(n) * k == 256 * more;
      assert (x + 256 * more) % 256 == x % 256 && (x + 256 * more) / 256 == x / 256 + more;
      BigEndianLow(x / 256, k, n - 1);
    }
  }

  lemma EightBytes()
    ensures Power256(8) == U64_LIMIT
  {
    assert Power256(2) == 256 * 256;
    assert Power256(4) == 256 * 256 * Power256(2);
    assert Power256(6) == 256 * 256 * Power256(4);
  }

  lemma LengthField(bits: nat)
    ensures BigEndian(bits % U64_LIMIT, LENGTH_BYTES) == BigEndian(bits, LENGTH_BYTES)
  {
    EightBytes();
    BigEndianLow(bits % U64_LIMIT, bits / U64_LIMIT, LENGTH_BYTES);
  }

  lemma ZeroBytesIs(length: nat, zeros: nat, blocks: nat)
    requires zeros < 64 && length + 1 + zeros == 64 * blocks + 56
    ensures zeros == ZeroBytes(length)
  {
    var q, r := length / 64, length % 64;
    assert 64 * (blocks - q) == r + zeros - 55;
    assert blocks == q || blocks == q + 1;
  }

  lemma ZerosConcat(m: nat, n: nat)
    ensures Zeros(m) + Zeros(n) == Zeros(m + n)
  {
  }

  /** The 64-bit counter and the buffered bytes give the length of the message. */
  lemma TotalBits(hashed: nat, buffered: nat)
    ensures (8 * hashed % U64_LIMIT + buffered * 8) % U64_LIMIT == 8 * (hashed + buffered) % U64_LIMIT
  {
  }

  lemma CountBlock(hashed: nat)
    ensures (8 * hashed % U64_LIMIT + 512) % U64_LIMIT == 8 * (hashed + 64) % U64_LIMIT
  {
  }

  lemma HashOneMore(compress: Compression, done: seq<Byte>, block: Block)
    requires |done| % 64 == 0
    ensures |done + block| % 64 == 0
    ensures HashBlocks(compress, done + block) == compress(HashBlocks(compress, done), block)
  {
    var all := done + block;
    assert all[..|all| - 64] == done && all[|all| - 64..] == block;
  }

  // ------------------------------------------------------------------ the class

  /** Marks the places where the proof needs to know the word arithmetic. */
  ghost predicate Here(n: nat) {
    true
  }

  ghost predicate IsSha256(kernel: Kernel, compress: Compression) {
    forall n: nat {:trigger Here(n)} ::
      Here(n) ==> kernel == Sha256Kernel() && compress == Sha256Compress
  }

  type Chain = seq<Byte> -> HashValue

  /** Marks the hashed part at which the chaining is needed. */
  ghost predicate AtBlocks(blocks: seq<Byte>) {
    true
  }

  ghost predicate IsChain(chain: Chain, compress: Compression) {
    forall blocks: seq<Byte> {:trigger AtBlocks(blocks)} | |blocks| % 64 == 0 ::
      AtBlocks(blocks) ==> chain(blocks) == HashBlocks(compress, blocks)
  }

  ghost function Sha256Chain(): (chain: Chain)
    ensures IsChain(chain, Sha256Compress) && chain([]) == H0()
  {
    blocks => if |blocks| % 64 == 0 then HashBlocks(Sha256Compress, blocks) else H0()
  }

  /** Marks the word at which the recurrence is needed. */
  ghost predicate AtWord(t: nat) {
    true
  }

  /** The recurrence of step 1 of section 6.2.2. */
  ghost predicate Recurs(kernel: Kernel, schedule: seq<Word>) {
    && |schedule| == 64
    && forall t: nat {:trigger AtWord(t)} | 16 <= t < 64 ::
         AtWord(t) ==>
           schedule[t] == kernel.extend(schedule[t - 2], schedule[t - 7], schedule[t - 15], schedule[t - 16])
  }

  lemma ScheduleRecurs(kernel: Kernel, block: Block)
    ensures Recurs(kernel, ScheduleOf(kernel, block))
    ensures forall t | 0 <= t < 16 :: ScheduleOf(kernel, block)[t]
              == kernel.pack(block[4 * t], block[4 * t + 1], block[4 * t + 2], block[4 * t + 3])
  {
    var schedule := ScheduleOf(kernel, block);
    forall t: nat | 16 <= t < 64
      ensures schedule[t] == kernel.extend(schedule[t - 2], schedule[t - 7], schedule[t - 15], schedule[t - 16])
    {
      assert schedule[t] == Schedule(kernel, block, t);
    }
    forall t | 0 <= t < 16
      ensures schedule[t] == kernel.pack(block[4 * t], block[4 * t + 1], block[4 * t + 2], block[4 * t + 3])
    {
      assert schedule[t] == Schedule(kernel, block, t);
    }
  }

  class Sha256 {
    const block: array<Byte>
    const state: array<Word>
    var blockLength: nat
    var bitLength: U64
    ghost var hashed: seq<Byte>
    ghost const kernel: Kernel
    ghost const compress: Compression
    ghost const chain: Chain

    ghost predicate Sized()
    {
      block.Length == 64 && state.Length == 8 && IsSha256(kernel, compress) && IsChain(chain, compress)
    }

    /** The whole blocks of the message so far are hashed. */
    ghost predicate Synced()
      reads this, state
    {
      && Sized()
      && |hashed| % 64 == 0
      && state[..] == chain(hashed)
    }

    /** The rest of the message is buffered, and is less than a block. */
    ghost predicate Valid()
      reads this, state
    {
      && Synced()
      && blockLength < 64
      && bitLength == 8 * |hashed| % U64_LIMIT
    }

    /** Everything given to `update` so far. */
    ghost function Message(): seq<Byte>
      requires Sized() && blockLength <= 64
      reads this, block
    {
      hashed + block[..blockLength]
    }

    constructor ()
      ensures Valid() && fresh(block) && fresh(state)
      ensures Message() == []
    {
      block := new Byte[64](_ => 0);
      state := new Word[8](i requires 0 <= i < 8 => H0()[i]);
      blockLength, bitLength, hashed := 0, 0, [];
      kernel, compress, chain := Sha256Kernel(), Sha256Compress, Sha256Chain();
      new;
      assert state[..] == H0();
    }

    method Update(input: array<Byte>, length: nat)
      requires Valid() && length <= input.Length && input != block
      modifies this, block, state
      ensures Valid()
      ensures Message() == old(Message()) + input[..length]
    {
      ghost var before := Message();
      for index := 0 to length
        invariant Valid()
        invariant Message() == before + input[..index]
        invariant unchanged(input)
      {
        Absorb(input[index]);
        assert before + input[..index + 1] == before + input[..index] + [input[index]];
      }
    }

    /** The body of the loop of `update`. */
    method Absorb(value: Byte)
      requires Valid()
      modifies this, block, state
      ensures Valid()
      ensures Message() == old(Message()) + [value]
    {
      block[blockLength] := value;
      blockLength := blockLength + 1;
      assert Message() == old(Message()) + [value];
      if blockLength == block.Length {
        CountBlock(|hashed|);
        HashBlock();
        bitLength := (bitLength + 512) % U64_LIMIT;
      }
    }

    /** A `transform` of a full buffer, after which the buffer is empty. */
    method HashBlock()
      requires Synced() && blockLength == 64
      modifies this`blockLength, this`hashed, state
      ensures Synced() && blockLength == 0
      ensures hashed == old(Message())
    {
      Transform();
      assert AtBlocks(hashed) && AtBlocks(hashed + block[..]);
      HashOneMore(compress, hashed, block[..]);
      assert block[..64] == block[..];
      hashed := hashed + block[..];
      blockLength := 0;
    }

    /** Zeros up to `limit`: the two filling loops of `finish`. */
    method ZeroFill(limit: nat)
      requires Sized() && blockLength <= limit <= 64
      modifies this`blockLength, block
      ensures blockLength == limit
      ensures Message() == old(Message()) + Zeros(limit - old(blockLength))
    {
      while blockLength < limit
        invariant old(blockLength) <= blockLength <= limit
        invariant Message() == old(Message()) + Zeros(blockLength - old(blockLength))
      {
        ghost var before, zeros := Message(), blockLength - old(blockLength);
        block[blockLength] := 0;
        blockLength := blockLength + 1;
        assert Message() == before + [0];
        assert Zeros(zeros + 1) == Zeros(zeros) + [0];
      }
    }

    /** The loop of line 49 of net/sha256.cpp: the length, most significant byte first. */
    method AppendLength(totalBits: U64)
      requires Sized() && blockLength == 56
      modifies this`blockLength, block
      ensures blockLength == 64
      ensures Message() == old(Message()) + BigEndian(totalBits, LENGTH_BYTES)
    {
      ghost var before, field := Message(), BigEndian(totalBits, LENGTH_BYTES);
      var shift := 56;
      while shift >= 0
        invariant -8 <= shift <= 56 && shift == 56 - 8 * (blockLength - 56)
        invariant Message() == before + field[..blockLength - 56]
      {
        ghost var i, sofar := blockLength - 56, Message();
        BigEndianByShifts(totalBits, LENGTH_BYTES, i);
        block[blockLength] := (ShiftRight(totalBits, shift) % 256) as Byte;
        blockLength := blockLength + 1;
        assert Message() == sofar + [field[i]];
        assert field[..i + 1] == field[..i] + [field[i]];
        shift := shift - 8;
      }
    }

    method Finish() returns (digest: string)
      requires Valid()
      modifies this, block, state
      ensures digest == DigestText(old(Message()))
      ensures InDomain(old(Message())) ==> digest == HexDigest(old(Message()))
    {
      HashPadding();
      digest := HexState();
      assert AtBlocks(hashed) && Here(0);
    }

    /** The output loop of `finish`. */
    method HexState() returns (digest: string)
      requires state.Length == 8
      ensures digest == Hex(state[..])
    {
      digest := "";
      for i := 0 to 8
        invariant digest == Hex(state[..i])
      {
        digest := digest + HexNumber(state[i].bits as nat, 8);
        assert state[..i + 1][..i] == state[..i];
      }
      assert state[..8] == state[..];
    }

    /** `finish` up to its last `transform`: it hashes one or two more blocks, and
        what has then been hashed is the padded message. */
    method HashPadding()
      requires Valid()
      modifies this, block, state
      ensures Synced()
      ensures |hashed| == |old(hashed)| + if old(blockLength) <= 55 then 64 else 128
      ensures hashed == Pad(old(Message()))
    {
      ghost var m := Message();
      var totalBits := (bitLength + blockLength * 8) % U64_LIMIT;
      TotalBits(|hashed|, blockLength);
      AppendMarker();
      ghost var zeros := FillToLength();
      ghost var blocks := |hashed| / 64;
      AppendLength(totalBits);
      HashBlock();
      PadIs(m, zeros, blocks, totalBits, hashed);
    }

    method AppendMarker()
      requires Valid()
      modifies this`blockLength, block
      ensures Synced() && blockLength == old(blockLength) + 1
      ensures Message() == old(Message()) + [0x80]
    {
      block[blockLength] := 0x80;
      blockLength := blockLength + 1;
    }

    /** Zeros up to the length field, through a block boundary if the marker
        leaves no room for it. */
    method FillToLength() returns (ghost zeros: nat)
      requires Synced() && blockLength <= 64
      modifies this`blockLength, this`hashed, block, state
      ensures Synced() && blockLength == 56
      ensures zeros == if old(blockLength) <= 56 then 56 - old(blockLength) else 120 - old(blockLength)
      ensures |hashed| == |old(hashed)| + if old(blockLength) <= 56 then 0 else 64
      ensures Message() == old(Message()) + Zeros(zeros)
    {
      zeros := 0;
      if blockLength > 56 {
        zeros := 64 - blockLength;
        ZeroFill(64);
        HashBlock();
        assert Message() == hashed;
      }
      assert Message() == old(Message()) + Zeros(zeros);
      ghost var gap := 56 - blockLength;
      ZeroFill(56);
      ZerosConcat(zeros, gap);
      zeros := zeros + gap;
    }

    method Transform()
      requires Sized()
      modifies state
      ensures state[..] == compress(old(state[..]), block[..])
    {
      ghost var before := state[..];
      var words := ExpandBlock();
      var v := MixRounds(words);
      AddToState(v);
      assert state[..] == Compress(kernel, before, block[..]);
      assert Here(0);
    }

    method AddToState(v: Vars)
      requires Sized()
      modifies state
      ensures state[..] == AddVars(kernel, old(state[..]), v)
    {
      AddTo(0, v.a); AddTo(1, v.b); AddTo(2, v.c); AddTo(3, v.d);
      AddTo(4, v.e); AddTo(5, v.f); AddTo(6, v.g); AddTo(7, v.h);
    }

    method AddTo(i: nat, x: Word)
      requires Sized() && i < 8
      modifies state
      ensures state[..] == old(state[..])[i := kernel.add(old(state[i]), x)]
    {
      state[i] := Word(Add(state[i].bits, x.bits));
      assert Here(0);
    }

    /** The last loop of `transform`. */
    method MixRounds(words: array<Word>) returns (v: Vars)
      requires Sized() && words.Length == 64
      ensures v == Rounds(kernel, VarsOf(state[..]), words[..], words.Length)
    {
      v := Vars(state[0], state[1], state[2], state[3], state[4], state[5], state[6], state[7]);
      for index := 0 to words.Length
        invariant v == Rounds(kernel, VarsOf(state[..]), words[..], index)
      {
        v := MixRound(v, index, words[index]);
      }
    }

    /** The body of that loop. */
    method MixRound(v: Vars, index: nat, word: Word) returns (next: Vars)
      requires Sized()
      ensures next == kernel.round(v, index, word)
    {
      var a, b, c, d, e, f, g, h :=
        v.a.bits, v.b.bits, v.c.bits, v.d.bits, v.e.bits, v.f.bits, v.g.bits, v.h.bits;
      var sum1, choice := Select(e, f, g);
      var first := AddFive(h, sum1, choice, K(index).bits, word.bits);
      var sum0, majority := Vote(a, b, c);
      var second := Add(sum0, majority);
      h := g; g := f; f := e; e := Add(d, first); d := c; c := b; b := a; a := Add(first, second);
      next := Vars(Word(a), Word(b), Word(c), Word(d), Word(e), Word(f), Word(g), Word(h));
      assert Here(0);
    }

    method Select(e: bv32, f: bv32, g: bv32) returns (sum1: bv32, choice: bv32)
      ensures sum1 == Sum1(e) && choice == Ch(e, f, g)
    {
      sum1 := Xor(ROTR(e, 6), ROTR(e, 11), ROTR(e, 25));
      choice := (e & f) ^ (!e & g);
    }

    method Vote(a: bv32, b: bv32, c: bv32) returns (sum0: bv32, majority: bv32)
      ensures sum0 == Sum0(a) && majority == Maj(a, b, c)
    {
      sum0 := Xor(ROTR(a, 2), ROTR(a, 13), ROTR(a, 22));
      majority := (a & b) ^ (a & c) ^ (b & c);
    }

    /** The first two loops of `transform`. */
    method ExpandBlock() returns (words: array<Word>)
      requires Sized()
      ensures fresh(words) && words.Length == 64
      ensures words[..] == ScheduleOf(kernel, block[..])
    {
      ghost var schedule := ScheduleOf(kernel, block[..]);
      ScheduleRecurs(kernel, block[..]);
      words := new Word[64](_ => Word(0));
      LoadWords(words, schedule);
      ExtendWords(words, schedule);
    }

    method LoadWords(words: array<Word>, ghost schedule: seq<Word>)
      requires Sized() && words.Length == |schedule| == 64
      requires forall t | 0 <= t < 16 :: schedule[t]
                 == kernel.pack(block[4 * t], block[4 * t + 1], block[4 * t + 2], block[4 * t + 3])
      modifies words
      ensures forall t | 0 <= t < 16 :: words[t] == schedule[t]
    {
      for index := 0 to 16
        invariant forall t | 0 <= t < index :: words[t] == schedule[t]
      {
        words[index] := LoadWord(block[index * 4], block[index * 4 + 1], block[index * 4 + 2], block[index * 4 + 3]);
      }
    }

    method ExtendWords(words: array<Word>, ghost schedule: seq<Word>)
      requires Sized() && words.Length == 64 && Recurs(kernel, schedule)
      requires forall t | 0 <= t < 16 :: words[t] == schedule[t]
      modifies words
      ensures words[..] == schedule
    {
      for index := 16 to 64
        invariant forall t | 0 <= t < index :: words[t] == schedule[t]
      {
        assert AtWord(index);
        words[index] := ExtendWord(words[index - 2], words[index - 7], words[index - 15], words[index - 16]);
      }
    }

    method LoadWord(b0: Byte, b1: Byte, b2: Byte, b3: Byte) returns (word: Word)
      requires Sized()
      ensures word == kernel.pack(b0, b1, b2, b3)
    {
      word := Word((b0 as bv32 << 24) | (b1 as bv32 << 16) | (b2 as bv32 << 8) | b3 as bv32);
      assert Here(0);
    }

    method ExtendWord(w2: Word, w7: Word, w15: Word, w16: Word) returns (word: Word)
      requires Sized()
      ensures word == kernel.extend(w2, w7, w15, w16)
    {
      var sigma0 := Xor(ROTR(w15.bits, 7), ROTR(w15.bits, 18), SHR(w15.bits, 3));
      var sigma1 := Xor(ROTR(w2.bits, 17), ROTR(w2.bits, 19), SHR(w2.bits, 10));
      word := Word(AddFour(w16.bits, sigma0, w7.bits, sigma1));
      ScheduleOrder(w2, w7, w15, w16);
      assert Here(0);
    }
  }

  // ------------------------------------------------------------------ any split into calls of update

  function Flatten(chunks: seq<seq<Byte>>): seq<Byte> {
    if chunks == [] then [] else Flatten(chunks[..|chunks| - 1]) + chunks[|chunks| - 1]
  }

  /** One call of `update` per chunk, then `finish`: the digest of the message
      that the chunks make up, however it was cut. */
  method HashChunks(chunks: seq<seq<Byte>>) returns (digest: string)
    ensures digest == DigestText(Flatten(chunks))
    ensures InDomain(Flatten(chunks)) ==> digest == HexDigest(Flatten(chunks))
  {
    var hash := new Sha256();
    for i := 0 to |chunks|
      invariant hash.Valid() && fresh(hash) && fresh(hash.block) && fresh(hash.state)
      invariant hash.Message() == Flatten(chunks[..i])
    {
      var input := new Byte[|chunks[i]|](j requires 0 <= j < |chunks[i]| => chunks[i][j]);
      assert input[..input.Length] == chunks[i];
      hash.Update(input, input.Length);
      assert chunks[..i + 1][..i] == chunks[..i];
    }
    assert chunks[..|chunks|] == chunks;
    digest := hash.Finish();
  }

  /** What opening and reading a file can yield: nothing, or the bytes delivered
      before the end of the file or before an error that sets the bad bit. */
  datatype FileStream = Unopenable | Readable(content: seq<Byte>, bad: bool)

  const BUFFER_SIZE: nat := 65536

  /** `sha256_file`. */
  method Sha256File(file: FileStream) returns (digest: Option<string>)
    ensures digest.Some? <==> file.Readable? && !file.bad
    ensures digest.Some? ==> digest.value == DigestText(file.content)
    ensures digest.Some? && InDomain(file.content) ==> digest.value == HexDigest(file.content)
  {
    if file.Unopenable? {
      return None;
    }
    var text := HashStream(file.content);
    return if file.bad then None else Some(text);
  }

  method HashStream(content: seq<Byte>) returns (text: string)
    ensures text == DigestText(content)
  {
    var hash := new Sha256();
    UpdateFromStream(hash, content);
    assert hash.Message() == content;
    text := hash.Finish();
  }

  /** The read loop. A short read sets the fail bit, and a read of a failed stream
      delivers nothing, which ends the loop. */
  method UpdateFromStream(hash: Sha256, content: seq<Byte>)
    requires hash.Valid()
    modifies hash, hash.block, hash.state
    ensures hash.Valid() && hash.Message() == old(hash.Message()) + content
  {
    ghost var before := hash.Message();
    var buffer := new Byte[BUFFER_SIZE](_ => 0);
    var position := 0;
    var count, failed := Read(buffer, content, position, false);
    while count > 0
      invariant hash.Valid() && buffer.Length == BUFFER_SIZE && 0 <= count <= BUFFER_SIZE && 0 <= position
      invariant position + count <= |content| && (failed || count == 0 ==> position + count == |content|)
      invariant buffer[..count] == content[position..position + count]
      invariant hash.Message() == before + content[..position]
      decreases |content| - position
    {
      hash.Update(buffer, count);
      TakeMore(before, content, position, count);
      position := position + count;
      count, failed := Read(buffer, content, position, failed);
    }
    assert content[..position] == content;
  }

  lemma TakeMore(before: seq<Byte>, content: seq<Byte>, position: nat, count: nat)
    requires position + count <= |content|
    ensures before + content[..position] + content[position..position + count] == before + content[..position + count]
  {
  }

  /** `file.read` into the buffer: the byte count, and whether the stream has failed. */
  method Read(buffer: array<Byte>, content: seq<Byte>, position: nat, failedBefore: bool)
    returns (count: nat, failed: bool)
    requires buffer.Length == BUFFER_SIZE && position <= |content|
    modifies buffer
    ensures count == (if failedBefore then 0 else ReadCount(|content| - position))
    ensures failed <==> count < BUFFER_SIZE
    ensures buffer[..count] == content[position..position + count]
  {
    count := if failedBefore then 0 else ReadCount(|content| - position);
    for j := 0 to count
      invariant buffer[..j] == content[position..position + j]
    {
      buffer[j] := content[position + j];
    }
    failed := count < BUFFER_SIZE;
  }

  function ReadCount(remaining: nat): nat {
    if remaining < BUFFER_SIZE then remaining else BUFFER_SIZE
  }
}
