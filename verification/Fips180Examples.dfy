/** The examples that NIST publishes with FIPS 180-4: a message of one block and one
    of two. The words of the schedule and the eight variables are followed through
    every round. */
module Fips180Examples {
  import opened SyncTypes
  import opened Fips180
  import opened StreamingSha256
  import opened HashSteps

  // ------------------------------------------------------------------ the round constants, by fours

  lemma Keys0()
    ensures Keys(0, 0x428a2f98, 0x71374491, 0xb5c0fbcf, 0xe9b5dba5)
    ensures Keys(4, 0x3956c25b, 0x59f111f1, 0x923f82a4, 0xab1c5ed5)
    ensures Keys(8, 0xd807aa98, 0x12835b01, 0x243185be, 0x550c7dc3)
    ensures Keys(12, 0x72be5d74, 0x80deb1fe, 0x9bdc06a7, 0xc19bf174)
  {
    KeysAre(0, 0x428a2f98, 0x71374491, 0xb5c0fbcf, 0xe9b5dba5);
    KeysAre(4, 0x3956c25b, 0x59f111f1, 0x923f82a4, 0xab1c5ed5);
    KeysAre(8, 0xd807aa98, 0x12835b01, 0x243185be, 0x550c7dc3);
    KeysAre(12, 0x72be5d74, 0x80deb1fe, 0x9bdc06a7, 0xc19bf174);
  }

  lemma Keys16()
    ensures Keys(16, 0xe49b69c1, 0xefbe4786, 0x0fc19dc6, 0x240ca1cc)
    ensures Keys(20, 0x2de92c6f, 0x4a7484aa, 0x5cb0a9dc, 0x76f988da)
    ensures Keys(24, 0x983e5152, 0xa831c66d, 0xb00327c8, 0xbf597fc7)
    ensures Keys(28, 0xc6e00bf3, 0xd5a79147, 0x06ca6351, 0x14292967)
  {
    KeysAre(16, 0xe49b69c1, 0xefbe4786, 0x0fc19dc6, 0x240ca1cc);
    KeysAre(20, 0x2de92c6f, 0x4a7484aa, 0x5cb0a9dc, 0x76f988da);
    KeysAre(24, 0x983e5152, 0xa831c66d, 0xb00327c8, 0xbf597fc7);
    KeysAre(28, 0xc6e00bf3, 0xd5a79147, 0x06ca6351, 0x14292967);
  }

  lemma Keys32()
    ensures Keys(32, 0x27b70a85, 0x2e1b2138, 0x4d2c6dfc, 0x53380d13)
    ensures Keys(36, 0x650a7354, 0x766a0abb, 0x81c2c92e, 0x92722c85)
    ensures Keys(40, 0xa2bfe8a1, 0xa81a664b, 0xc24b8b70, 0xc76c51a3)
    ensures Keys(44, 0xd192e819, 0xd6990624, 0xf40e3585, 0x106aa070)
  {
    KeysAre(32, 0x27b70a85, 0x2e1b2138, 0x4d2c6dfc, 0x53380d13);
    KeysAre(36, 0x650a7354, 0x766a0abb, 0x81c2c92e, 0x92722c85);
    KeysAre(40, 0xa2bfe8a1, 0xa81a664b, 0xc24b8b70, 0xc76c51a3);
    KeysAre(44, 0xd192e819, 0xd6990624, 0xf40e3585, 0x106aa070);
  }

  lemma Keys48()
    ensures Keys(48, 0x19a4c116, 0x1e376c08, 0x2748774c, 0x34b0bcb5)
    ensures Keys(52, 0x391c0cb3, 0x4ed8aa4a, 0x5b9cca4f, 0x682e6ff3)
    ensures Keys(56, 0x748f82ee, 0x78a5636f, 0x84c87814, 0x8cc70208)
    ensures Keys(60, 0x90befffa, 0xa4506ceb, 0xbef9a3f7, 0xc67178f2)
  {
    KeysAre(48, 0x19a4c116, 0x1e376c08, 0x2748774c, 0x34b0bcb5);
    KeysAre(52, 0x391c0cb3, 0x4ed8aa4a, 0x5b9cca4f, 0x682e6ff3);
    KeysAre(56, 0x748f82ee, 0x78a5636f, 0x84c87814, 0x8cc70208);
    KeysAre(60, 0x90befffa, 0xa4506ceb, 0xbef9a3f7, 0xc67178f2);
  }

  // ------------------------------------------------------------------ the block of "abc"

  predicate AbcWords0(words: seq<Word>)
    requires |words| == 64
  {
    && Fours(words, 0, 0x61626380, 0x00000000, 0x00000000, 0x00000000)
    && Fours(words, 4, 0x00000000, 0x00000000, 0x00000000, 0x00000000)
    && Fours(words, 8, 0x00000000, 0x00000000, 0x00000000, 0x00000000)
    && Fours(words, 12, 0x00000000, 0x00000000, 0x00000000, 0x00000018)
  }

  predicate AbcWords16(words: seq<Word>)
    requires |words| == 64
  {
    && Fours(words, 16, 0x61626380, 0x000f0000, 0x7da86405, 0x600003c6)
    && Fours(words, 20, 0x3e9d7b78, 0x0183fc00, 0x12dcbfdb, 0xe2e2c38e)
    && Fours(words, 24, 0xc8215c1a, 0xb73679a2, 0xe5bc3909, 0x32663c5b)
    && Fours(words, 28, 0x9d209d67, 0xec8726cb, 0x702138a4, 0xd3b7973b)
  }

  predicate AbcWords32(words: seq<Word>)
    requires |words| == 64
  {
    && Fours(words, 32, 0x93f5997f, 0x3b68ba73, 0xaff4ffc1, 0xf10a5c62)
    && Fours(words, 36, 0x0a8b3996, 0x72af830a, 0x9409e33e, 0x24641522)
    && Fours(words, 40, 0x9f47bf94, 0xf0a64f5a, 0x3e246a79, 0x27333ba3)
    && Fours(words, 44, 0x0c4763f2, 0x840abf27, 0x7a290d5d, 0x065c43da)
  }

  predicate AbcWords48(words: seq<Word>)
    requires |words| == 64
  {
    && Fours(words, 48, 0xfb3e89cb, 0xcc7617db, 0xb9e66c34, 0xa9993667)
    && Fours(words, 52, 0x84badedd, 0xc21462bc, 0x1487472c, 0xb20f7a99)
    && Fours(words, 56, 0xef57b9cd, 0xebe6b238, 0x9fe3095e, 0x78bc8d4b)
    && Fours(words, 60, 0xa43fcf15, 0x668b2ff8, 0xeeaba2cc, 0x12b1edeb)
  }

  lemma AbcSchedule(kernel: Kernel, words: seq<Word>)
    requires IsSha256(kernel, Sha256Compress) && Recurs(kernel, words) && AbcWords0(words)
    ensures AbcWords16(words) && AbcWords32(words) && AbcWords48(words)
  {
    GrowFour(kernel, words, 16, 0x61626380, 0x00000000, 0x00000000, 0x00000000, 0x00000000,
             0x00000000, 0x00000000, 0x00000000, 0x00000000, 0x00000000, 0x00000018,
             0x61626380, 0x000f0000, 0x7da86405, 0x600003c6);
    GrowFour(kernel, words, 20, 0x00000000, 0x00000000, 0x00000000, 0x00000000, 0x00000000,
             0x00000000, 0x00000000, 0x00000018, 0x61626380, 0x7da86405, 0x600003c6,
             0x3e9d7b78, 0x0183fc00, 0x12dcbfdb, 0xe2e2c38e);
    GrowFour(kernel, words, 24, 0x00000000, 0x00000000, 0x00000000, 0x00000000, 0x00000000,
             0x000f0000, 0x7da86405, 0x600003c6, 0x3e9d7b78, 0x12dcbfdb, 0xe2e2c38e,
             0xc8215c1a, 0xb73679a2, 0xe5bc3909, 0x32663c5b);
    GrowFour(kernel, words, 28, 0x00000000, 0x00000000, 0x00000000, 0x00000018, 0x61626380,
             0x0183fc00, 0x12dcbfdb, 0xe2e2c38e, 0xc8215c1a, 0xe5bc3909, 0x32663c5b,
             0x9d209d67, 0xec8726cb, 0x702138a4, 0xd3b7973b);
    GrowFour(kernel, words, 32, 0x61626380, 0x000f0000, 0x7da86405, 0x600003c6, 0x3e9d7b78,
             0xb73679a2, 0xe5bc3909, 0x32663c5b, 0x9d209d67, 0x702138a4, 0xd3b7973b,
             0x93f5997f, 0x3b68ba73, 0xaff4ffc1, 0xf10a5c62);
    GrowFour(kernel, words, 36, 0x3e9d7b78, 0x0183fc00, 0x12dcbfdb, 0xe2e2c38e, 0xc8215c1a,
             0xec8726cb, 0x702138a4, 0xd3b7973b, 0x93f5997f, 0xaff4ffc1, 0xf10a5c62,
             0x0a8b3996, 0x72af830a, 0x9409e33e, 0x24641522);
    GrowFour(kernel, words, 40, 0xc8215c1a, 0xb73679a2, 0xe5bc3909, 0x32663c5b, 0x9d209d67,
             0x3b68ba73, 0xaff4ffc1, 0xf10a5c62, 0x0a8b3996, 0x9409e33e, 0x24641522,
             0x9f47bf94, 0xf0a64f5a, 0x3e246a79, 0x27333ba3);
    GrowFour(kernel, words, 44, 0x9d209d67, 0xec8726cb, 0x702138a4, 0xd3b7973b, 0x93f5997f,
             0x72af830a, 0x9409e33e, 0x24641522, 0x9f47bf94, 0x3e246a79, 0x27333ba3,
             0x0c4763f2, 0x840abf27, 0x7a290d5d, 0x065c43da);
    GrowFour(kernel, words, 48, 0x93f5997f, 0x3b68ba73, 0xaff4ffc1, 0xf10a5c62, 0x0a8b3996,
             0xf0a64f5a, 0x3e246a79, 0x27333ba3, 0x0c4763f2, 0x7a290d5d, 0x065c43da,
             0xfb3e89cb, 0xcc7617db, 0xb9e66c34, 0xa9993667);
    GrowFour(kernel, words, 52, 0x0a8b3996, 0x72af830a, 0x9409e33e, 0x24641522, 0x9f47bf94,
             0x840abf27, 0x7a290d5d, 0x065c43da, 0xfb3e89cb, 0xb9e66c34, 0xa9993667,
             0x84badedd, 0xc21462bc, 0x1487472c, 0xb20f7a99);
    GrowFour(kernel, words, 56, 0x9f47bf94, 0xf0a64f5a, 0x3e246a79, 0x27333ba3, 0x0c4763f2,
             0xcc7617db, 0xb9e66c34, 0xa9993667, 0x84badedd, 0x1487472c, 0xb20f7a99,
             0xef57b9cd, 0xebe6b238, 0x9fe3095e, 0x78bc8d4b);
    GrowFour(kernel, words, 60, 0x0c4763f2, 0x840abf27, 0x7a290d5d, 0x065c43da, 0xfb3e89cb,
             0xc21462bc, 0x1487472c, 0xb20f7a99, 0xef57b9cd, 0x9fe3095e, 0x78bc8d4b,
             0xa43fcf15, 0x668b2ff8, 0xeeaba2cc, 0x12b1edeb);
  }

  lemma AbcRounds0(kernel: Kernel, v: Vars, words: seq<Word>)
    requires IsSha256(kernel, Sha256Compress) && |words| == 64 && AbcWords0(words)
    requires Rounds(kernel, v, words, 0) ==
             Variables(0x6a09e667, 0xbb67ae85, 0x3c6ef372, 0xa54ff53a, 0x510e527f, 0x9b05688c, 0x1f83d9ab, 0x5be0cd19)
    ensures Rounds(kernel, v, words, 16) ==
            Variables(0xb0fa238e, 0xc0645fde, 0xd932eb16, 0x87912990, 0x07590dcd, 0x0b92f20c, 0x745a48de, 0x1e578218)
  {
    Keys0();
    FourTurns(kernel, v, words, 0, 0x428a2f98, 0x71374491, 0xb5c0fbcf, 0xe9b5dba5,
              0x61626380, 0x00000000, 0x00000000, 0x00000000,
              0x6a09e667, 0xbb67ae85, 0x3c6ef372, 0xa54ff53a, 0x510e527f, 0x9b05688c, 0x1f83d9ab, 0x5be0cd19,
              0xd550f666, 0xc8c347a7, 0x5a6ad9ad, 0x5d6aebcd, 0x24e00850, 0xf92939eb, 0x78ce7989, 0xfa2a4622);
    FourTurns(kernel, v, words, 4, 0x3956c25b, 0x59f111f1, 0x923f82a4, 0xab1c5ed5,
              0x00000000, 0x00000000, 0x00000000, 0x00000000,
              0xd550f666, 0xc8c347a7, 0x5a6ad9ad, 0x5d6aebcd, 0x24e00850, 0xf92939eb, 0x78ce7989, 0xfa2a4622,
              0x85a07b5f, 0xe5030380, 0x2b4209f5, 0x04409a6a, 0x0c657a79, 0x9b27a401, 0x714260ad, 0x43ada245);
    FourTurns(kernel, v, words, 8, 0xd807aa98, 0x12835b01, 0x243185be, 0x550c7dc3,
              0x00000000, 0x00000000, 0x00000000, 0x00000000,
              0x85a07b5f, 0xe5030380, 0x2b4209f5, 0x04409a6a, 0x0c657a79, 0x9b27a401, 0x714260ad, 0x43ada245,
              0xf71fc5a9, 0x4798a3f4, 0x8c87346b, 0x8e04ecb9, 0x816fd6e9, 0x436b23e8, 0x1cc92596, 0x32ca2d8c);
    FourTurns(kernel, v, words, 12, 0x72be5d74, 0x80deb1fe, 0x9bdc06a7, 0xc19bf174,
              0x00000000, 0x00000000, 0x00000000, 0x00000018,
              0xf71fc5a9, 0x4798a3f4, 0x8c87346b, 0x8e04ecb9, 0x816fd6e9, 0x436b23e8, 0x1cc92596, 0x32ca2d8c,
              0xb0fa238e, 0xc0645fde, 0xd932eb16, 0x87912990, 0x07590dcd, 0x0b92f20c, 0x745a48de, 0x1e578218);
  }

  lemma AbcRounds16(kernel: Kernel, v: Vars, words: seq<Word>)
    requires IsSha256(kernel, Sha256Compress) && |words| == 64 && AbcWords16(words)
    requires Rounds(kernel, v, words, 16) ==
             Variables(0xb0fa238e, 0xc0645fde, 0xd932eb16, 0x87912990, 0x07590dcd, 0x0b92f20c, 0x745a48de, 0x1e578218)
    ensures Rounds(kernel, v, words, 32) ==
            Variables(0x73b33bf5, 0xea992a22, 0xa0060b30, 0x363482c9, 0xba591112, 0x0109ab3a, 0xade79437, 0x6112a3b7)
  {
    Keys16();
    FourTurns(kernel, v, words, 16, 0xe49b69c1, 0xefbe4786, 0x0fc19dc6, 0x240ca1cc,
              0x61626380, 0x000f0000, 0x7da86405, 0x600003c6,
              0xb0fa238e, 0xc0645fde, 0xd932eb16, 0x87912990, 0x07590dcd, 0x0b92f20c, 0x745a48de, 0x1e578218,
              0xe1f20c33, 0xfe777bbf, 0xc2fbd9d1, 0x21da9a9b, 0xb0638179, 0xcc899961, 0x846ee454, 0x8034229c);
    FourTurns(kernel, v, words, 20, 0x2de92c6f, 0x4a7484aa, 0x5cb0a9dc, 0x76f988da,
              0x3e9d7b78, 0x0183fc00, 0x12dcbfdb, 0xe2e2c38e,
              0xe1f20c33, 0xfe777bbf, 0xc2fbd9d1, 0x21da9a9b, 0xb0638179, 0xcc899961, 0x846ee454, 0x8034229c,
              0xc5d53d8d, 0xa7a3623f, 0xc2606d6d, 0x9dc68b63, 0xaa47c347, 0x49f5114a, 0xe1257970, 0x8ada8930);
    FourTurns(kernel, v, words, 24, 0x983e5152, 0xa831c66d, 0xb00327c8, 0xbf597fc7,
              0xc8215c1a, 0xb73679a2, 0xe5bc3909, 0x32663c5b,
              0xc5d53d8d, 0xa7a3623f, 0xc2606d6d, 0x9dc68b63, 0xaa47c347, 0x49f5114a, 0xe1257970, 0x8ada8930,
              0x77d37528, 0xb62ec4bc, 0xcde8037d, 0x1c2c2838, 0xedffbff8, 0xc74c6516, 0x14383d8e, 0x2823ef91);
    FourTurns(kernel, v, words, 28, 0xc6e00bf3, 0xd5a79147, 0x06ca6351, 0x14292967,
              0x9d209d67, 0xec8726cb, 0x702138a4, 0xd3b7973b,
              0x77d37528, 0xb62ec4bc, 0xcde8037d, 0x1c2c2838, 0xedffbff8, 0xc74c6516, 0x14383d8e, 0x2823ef91,
              0x73b33bf5, 0xea992a22, 0xa0060b30, 0x363482c9, 0xba591112, 0x0109ab3a, 0xade79437, 0x6112a3b7);
  }

  lemma AbcRounds32(kernel: Kernel, v: Vars, words: seq<Word>)
    requires IsSha256(kernel, Sha256Compress) && |words| == 64 && AbcWords32(words)
    requires Rounds(kernel, v, words, 32) ==
             Variables(0x73b33bf5, 0xea992a22, 0xa0060b30, 0x363482c9, 0xba591112, 0x0109ab3a, 0xade79437, 0x6112a3b7)
    ensures Rounds(kernel, v, words, 48) ==
            Variables(0x4172328d, 0xa14c14b0, 0x72ab4b91, 0x26628815, 0xfecf0bc6, 0xd57b94a9, 0xb7755da1, 0xa80f11f0)
  {
    Keys32();
    FourTurns(kernel, v, words, 32, 0x27b70a85, 0x2e1b2138, 0x4d2c6dfc, 0x53380d13,
              0x93f5997f, 0x3b68ba73, 0xaff4ffc1, 0xf10a5c62,
              0x73b33bf5, 0xea992a22, 0xa0060b30, 0x363482c9, 0xba591112, 0x0109ab3a, 0xade79437, 0x6112a3b7,
              0x65a0cfe4, 0xa9a7738c, 0xfe604df5, 0x98e12507, 0xf4b002d6, 0x085f3833, 0x59249dd3, 0x9cd9f5f6);
    FourTurns(kernel, v, words, 36, 0x650a7354, 0x766a0abb, 0x81c2c92e, 0x92722c85,
              0x0a8b3996, 0x72af830a, 0x9409e33e, 0x24641522,
              0x65a0cfe4, 0xa9a7738c, 0xfe604df5, 0x98e12507, 0xf4b002d6, 0x085f3833, 0x59249dd3, 0x9cd9f5f6,
              0x79ea687a, 0x6dc57a8a, 0x34df1604, 0x41a65cb1, 0x1efbc0a0, 0xf0781bc8, 0xa507a53d, 0x0772a26b);
    FourTurns(kernel, v, words, 40, 0xa2bfe8a1, 0xa81a664b, 0xc24b8b70, 0xc76c51a3,
              0x9f47bf94, 0xf0a64f5a, 0x3e246a79, 0x27333ba3,
              0x79ea687a, 0x6dc57a8a, 0x34df1604, 0x41a65cb1, 0x1efbc0a0, 0xf0781bc8, 0xa507a53d, 0x0772a26b,
              0x9d4baf93, 0x17aa0dfe, 0xdf46652f, 0xd6670766, 0xfda24c2e, 0xdecd4715, 0x838b2711, 0x26352d63);
    FourTurns(kernel, v, words, 44, 0xd192e819, 0xd6990624, 0xf40e3585, 0x106aa070,
              0x0c4763f2, 0x840abf27, 0x7a290d5d, 0x065c43da,
              0x9d4baf93, 0x17aa0dfe, 0xdf46652f, 0xd6670766, 0xfda24c2e, 0xdecd4715, 0x838b2711, 0x26352d63,
              0x4172328d, 0xa14c14b0, 0x72ab4b91, 0x26628815, 0xfecf0bc6, 0xd57b94a9, 0xb7755da1, 0xa80f11f0);
  }

  lemma AbcRounds48(kernel: Kernel, v: Vars, words: seq<Word>)
    requires IsSha256(kernel, Sha256Compress) && |words| == 64 && AbcWords48(words)
    requires Rounds(kernel, v, words, 48) ==
             Variables(0x4172328d, 0xa14c14b0, 0x72ab4b91, 0x26628815, 0xfecf0bc6, 0xd57b94a9, 0xb7755da1, 0xa80f11f0)
    ensures Rounds(kernel, v, words, 64) ==
            Variables(0x506e3058, 0xd39a2165, 0x04d24d6c, 0xb85e2ce9, 0x5ef50f24, 0xfb121210, 0x948d25b6, 0x961f4894)
  {
    Keys48();
    FourTurns(kernel, v, words, 48, 0x19a4c116, 0x1e376c08, 0x2748774c, 0x34b0bcb5,
              0xfb3e89cb, 0xcc7617db, 0xb9e66c34, 0xa9993667,
              0x4172328d, 0xa14c14b0, 0x72ab4b91, 0x26628815, 0xfecf0bc6, 0xd57b94a9, 0xb7755da1, 0xa80f11f0,
              0x886e7a22, 0x7a0508a1, 0xf11bfaa8, 0x05757ceb, 0x49231c1e, 0x52f1ccf7, 0x6e5c390c, 0xbd714038);
    FourTurns(kernel, v, words, 52, 0x391c0cb3, 0x4ed8aa4a, 0x5b9cca4f, 0x682e6ff3,
              0x84badedd, 0xc21462bc, 0x1487472c, 0xb20f7a99,
              0x886e7a22, 0x7a0508a1, 0xf11bfaa8, 0x05757ceb, 0x49231c1e, 0x52f1ccf7, 0x6e5c390c, 0xbd714038,
              0x38cc9913, 0x3ec45cdb, 0xf5702fdb, 0x101fd28f, 0x54cb266b, 0xe50e1b4f, 0x9f4787c3, 0x529e7d00);
    FourTurns(kernel, v, words, 56, 0x748f82ee, 0x78a5636f, 0x84c87814, 0x8cc70208,
              0xef57b9cd, 0xebe6b238, 0x9fe3095e, 0x78bc8d4b,
              0x38cc9913, 0x3ec45cdb, 0xf5702fdb, 0x101fd28f, 0x54cb266b, 0xe50e1b4f, 0x9f4787c3, 0x529e7d00,
              0xb6ae8fff, 0xffb70472, 0xc062d46f, 0xfcd1887b, 0xb21bad3d, 0x6d83bfc6, 0x7e44008e, 0x9b5e906c);
    FourTurns(kernel, v, words, 60, 0x90befffa, 0xa4506ceb, 0xbef9a3f7, 0xc67178f2,
              0xa43fcf15, 0x668b2ff8, 0xeeaba2cc, 0x12b1edeb,
              0xb6ae8fff, 0xffb70472, 0xc062d46f, 0xfcd1887b, 0xb21bad3d, 0x6d83bfc6, 0x7e44008e, 0x9b5e906c,
              0x506e3058, 0xd39a2165, 0x04d24d6c, 0xb85e2ce9, 0x5ef50f24, 0xfb121210, 0x948d25b6, 0x961f4894);
  }

  lemma AbcBlock(kernel: Kernel, v: Vars, words: seq<Word>)
    requires IsSha256(kernel, Sha256Compress) && Recurs(kernel, words) && AbcWords0(words)
    requires v == Variables(0x6a09e667, 0xbb67ae85, 0x3c6ef372, 0xa54ff53a, 0x510e527f, 0x9b05688c, 0x1f83d9ab,
                            0x5be0cd19)
    ensures Rounds(kernel, v, words, 64) ==
            Variables(0x506e3058, 0xd39a2165, 0x04d24d6c, 0xb85e2ce9, 0x5ef50f24, 0xfb121210, 0x948d25b6, 0x961f4894)
  {
    AbcSchedule(kernel, words);
    AbcRounds0(kernel, v, words);
    AbcRounds16(kernel, v, words);
    AbcRounds32(kernel, v, words);
    AbcRounds48(kernel, v, words);
  }

  // ------------------------------------------------------------------ the first block of the longer message

  predicate FirstWords0(words: seq<Word>)
    requires |words| == 64
  {
    && Fours(words, 0, 0x61626364, 0x62636465, 0x63646566, 0x64656667)
    && Fours(words, 4, 0x65666768, 0x66676869, 0x6768696a, 0x68696a6b)
    && Fours(words, 8, 0x696a6b6c, 0x6a6b6c6d, 0x6b6c6d6e, 0x6c6d6e6f)
    && Fours(words, 12, 0x6d6e6f70, 0x6e6f7071, 0x80000000, 0x00000000)
  }

  predicate FirstWords16(words: seq<Word>)
    requires |words| == 64
  {
    && Fours(words, 16, 0xeb8012ad, 0xa7c3ae92, 0x76e93ba2, 0xba42e743)
    && Fours(words, 20, 0x92a92204, 0xd847e75e, 0x9e160036, 0xb280a7cb)
    && Fours(words, 24, 0xddeb1516, 0xf36586f4, 0x969cd048, 0xe959d99d)
    && Fours(words, 28, 0x6accc0ec, 0xf54cb098, 0x2af1b2da, 0xee59c4c9)
  }

  predicate FirstWords32(words: seq<Word>)
    requires |words| == 64
  {
    && Fours(words, 32, 0xa835e16a, 0x1dff4429, 0xd6e15959, 0xc397cd6e)
    && Fours(words, 36, 0x6f1801ca, 0x21574205, 0x35ff7a84, 0x9743ee78)
    && Fours(words, 40, 0xe44183e7, 0x0d09f00d, 0x9c89af54, 0x042d5bef)
    && Fours(words, 44, 0x71f134d0, 0x0f94f463, 0x7e49dc63, 0x6f65c997)
  }

  predicate FirstWords48(words: seq<Word>)
    requires |words| == 64
  {
    && Fours(words, 48, 0x0b706583, 0x179312ca, 0x503054e9, 0xba125c39)
    && Fours(words, 52, 0x7e9392c9, 0xd5cbaa1e, 0x78e0585d, 0xf6e7611c)
    && Fours(words, 56, 0x8ac830ce, 0x8b47a303, 0xfd6e627f, 0x8c6e2c6a)
    && Fours(words, 60, 0x4001adf1, 0x1a3dd097, 0xa9df6f62, 0x6aa60a39)
  }

  lemma FirstSchedule(kernel: Kernel, words: seq<Word>)
    requires IsSha256(kernel, Sha256Compress) && Recurs(kernel, words) && FirstWords0(words)
    ensures FirstWords16(words) && FirstWords32(words) && FirstWords48(words)
  {
    GrowFour(kernel, words, 16, 0x61626364, 0x62636465, 0x63646566, 0x64656667, 0x65666768,
             0x6a6b6c6d, 0x6b6c6d6e, 0x6c6d6e6f, 0x6d6e6f70, 0x80000000, 0x00000000,
             0xeb8012ad, 0xa7c3ae92, 0x76e93ba2, 0xba42e743);
    GrowFour(kernel, words, 20, 0x65666768, 0x66676869, 0x6768696a, 0x68696a6b, 0x696a6b6c,
             0x6e6f7071, 0x80000000, 0x00000000, 0xeb8012ad, 0x76e93ba2, 0xba42e743,
             0x92a92204, 0xd847e75e, 0x9e160036, 0xb280a7cb);
    GrowFour(kernel, words, 24, 0x696a6b6c, 0x6a6b6c6d, 0x6b6c6d6e, 0x6c6d6e6f, 0x6d6e6f70,
             0xa7c3ae92, 0x76e93ba2, 0xba42e743, 0x92a92204, 0x9e160036, 0xb280a7cb,
             0xddeb1516, 0xf36586f4, 0x969cd048, 0xe959d99d);
    GrowFour(kernel, words, 28, 0x6d6e6f70, 0x6e6f7071, 0x80000000, 0x00000000, 0xeb8012ad,
             0xd847e75e, 0x9e160036, 0xb280a7cb, 0xddeb1516, 0x969cd048, 0xe959d99d,
             0x6accc0ec, 0xf54cb098, 0x2af1b2da, 0xee59c4c9);
    GrowFour(kernel, words, 32, 0xeb8012ad, 0xa7c3ae92, 0x76e93ba2, 0xba42e743, 0x92a92204,
             0xf36586f4, 0x969cd048, 0xe959d99d, 0x6accc0ec, 0x2af1b2da, 0xee59c4c9,
             0xa835e16a, 0x1dff4429, 0xd6e15959, 0xc397cd6e);
    GrowFour(kernel, words, 36, 0x92a92204, 0xd847e75e, 0x9e160036, 0xb280a7cb, 0xddeb1516,
             0xf54cb098, 0x2af1b2da, 0xee59c4c9, 0xa835e16a, 0xd6e15959, 0xc397cd6e,
             0x6f1801ca, 0x21574205, 0x35ff7a84, 0x9743ee78);
    GrowFour(kernel, words, 40, 0xddeb1516, 0xf36586f4, 0x969cd048, 0xe959d99d, 0x6accc0ec,
             0x1dff4429, 0xd6e15959, 0xc397cd6e, 0x6f1801ca, 0x35ff7a84, 0x9743ee78,
             0xe44183e7, 0x0d09f00d, 0x9c89af54, 0x042d5bef);
    GrowFour(kernel, words, 44, 0x6accc0ec, 0xf54cb098, 0x2af1b2da, 0xee59c4c9, 0xa835e16a,
             0x21574205, 0x35ff7a84, 0x9743ee78, 0xe44183e7, 0x9c89af54, 0x042d5bef,
             0x71f134d0, 0x0f94f463, 0x7e49dc63, 0x6f65c997);
    GrowFour(kernel, words, 48, 0xa835e16a, 0x1dff4429, 0xd6e15959, 0xc397cd6e, 0x6f1801ca,
             0x0d09f00d, 0x9c89af54, 0x042d5bef, 0x71f134d0, 0x7e49dc63, 0x6f65c997,
             0x0b706583, 0x179312ca, 0x503054e9, 0xba125c39);
    GrowFour(kernel, words, 52, 0x6f1801ca, 0x21574205, 0x35ff7a84, 0x9743ee78, 0xe44183e7,
             0x0f94f463, 0x7e49dc63, 0x6f65c997, 0x0b706583, 0x503054e9, 0xba125c39,
             0x7e9392c9, 0xd5cbaa1e, 0x78e0585d, 0xf6e7611c);
    GrowFour(kernel, words, 56, 0xe44183e7, 0x0d09f00d, 0x9c89af54, 0x042d5bef, 0x71f134d0,
             0x179312ca, 0x503054e9, 0xba125c39, 0x7e9392c9, 0x78e0585d, 0xf6e7611c,
             0x8ac830ce, 0x8b47a303, 0xfd6e627f, 0x8c6e2c6a);
    GrowFour(kernel, words, 60, 0x71f134d0, 0x0f94f463, 0x7e49dc63, 0x6f65c997, 0x0b706583,
             0xd5cbaa1e, 0x78e0585d, 0xf6e7611c, 0x8ac830ce, 0xfd6e627f, 0x8c6e2c6a,
             0x4001adf1, 0x1a3dd097, 0xa9df6f62, 0x6aa60a39);
  }

  lemma FirstRounds0(kernel: Kernel, v: Vars, words: seq<Word>)
    requires IsSha256(kernel, Sha256Compress) && |words| == 64 && FirstWords0(words)
    requires Rounds(kernel, v, words, 0) ==
             Variables(0x6a09e667, 0xbb67ae85, 0x3c6ef372, 0xa54ff53a, 0x510e527f, 0x9b05688c, 0x1f83d9ab, 0x5be0cd19)
    ensures Rounds(kernel, v, words, 16) ==
            Variables(0xc3486194, 0xdd16cbb3, 0xd68e6457, 0x101a4861, 0x1496a54f, 0x9162aded, 0x9243f8af, 0x839a0fc9)
  {
    Keys0();
    FourTurns(kernel, v, words, 0, 0x428a2f98, 0x71374491, 0xb5c0fbcf, 0xe9b5dba5,
              0x61626364, 0x62636465, 0x63646566, 0x64656667,
              0x6a09e667, 0xbb67ae85, 0x3c6ef372, 0xa54ff53a, 0x510e527f, 0x9b05688c, 0x1f83d9ab, 0x5be0cd19,
              0x4a8d64d5, 0x97651825, 0x2f2d5fcf, 0x5d6aebb1, 0x6494841b, 0x62d5c49e, 0x4eb1cfce, 0xfa2a4606);
    FourTurns(kernel, v, words, 4, 0x3956c25b, 0x59f111f1, 0x923f82a4, 0xab1c5ed5,
              0x65666768, 0x66676869, 0x6768696a, 0x68696a6b,
              0x4a8d64d5, 0x97651825, 0x2f2d5fcf, 0x5d6aebb1, 0x6494841b, 0x62d5c49e, 0x4eb1cfce, 0xfa2a4606,
              0xd237e6db, 0x485835b7, 0x55c8ef48, 0xf921c212, 0xa401d211, 0x39a5b2ca, 0x7ff91c94, 0x05c4f88a);
    FourTurns(kernel, v, words, 8, 0xd807aa98, 0x12835b01, 0x243185be, 0x550c7dc3,
              0x696a6b6c, 0x6a6b6c6d, 0x6b6c6d6e, 0x6c6d6e6f,
              0xd237e6db, 0x485835b7, 0x55c8ef48, 0xf921c212, 0xa401d211, 0x39a5b2ca, 0x7ff91c94, 0x05c4f88a,
              0x1762215c, 0xb8e2b4cb, 0x3a474b2b, 0x359f2bce, 0xee1c97a8, 0x443ed29e, 0x9037b3b8, 0xc09ffec4);
    FourTurns(kernel, v, words, 12, 0x72be5d74, 0x80deb1fe, 0x9bdc06a7, 0xc19bf174,
              0x6d6e6f70, 0x6e6f7071, 0x80000000, 0x00000000,
              0x1762215c, 0xb8e2b4cb, 0x3a474b2b, 0x359f2bce, 0xee1c97a8, 0x443ed29e, 0x9037b3b8, 0xc09ffec4,
              0xc3486194, 0xdd16cbb3, 0xd68e6457, 0x101a4861, 0x1496a54f, 0x9162aded, 0x9243f8af, 0x839a0fc9);
  }

  lemma FirstRounds16(kernel: Kernel, v: Vars, words: seq<Word>)
    requires IsSha256(kernel, Sha256Compress) && |words| == 64 && FirstWords16(words)
    requires Rounds(kernel, v, words, 16) ==
             Variables(0xc3486194, 0xdd16cbb3, 0xd68e6457, 0x101a4861, 0x1496a54f, 0x9162aded, 0x9243f8af, 0x839a0fc9)
    ensures Rounds(kernel, v, words, 32) ==
            Variables(0x5581ab07, 0xeb43f3ed, 0xdf7151a0, 0x74bcf468, 0xdf980085, 0x0635d880, 0x7629c961, 0x72abaecd)
  {
    Keys16();
    FourTurns(kernel, v, words, 16, 0xe49b69c1, 0xefbe4786, 0x0fc19dc6, 0x240ca1cc,
              0xeb8012ad, 0xa7c3ae92, 0x76e93ba2, 0xba42e743,
              0xc3486194, 0xdd16cbb3, 0xd68e6457, 0x101a4861, 0x1496a54f, 0x9162aded, 0x9243f8af, 0x839a0fc9,
              0x2139187b, 0xf402f058, 0x046a193e, 0xb9dcacb1, 0x7c304206, 0x6f433549, 0x885370b6, 0xd4f64250);
    FourTurns(kernel, v, words, 20, 0x2de92c6f, 0x4a7484aa, 0x5cb0a9dc, 0x76f988da,
              0x92a92204, 0xd847e75e, 0x9e160036, 0xb280a7cb,
              0x2139187b, 0xf402f058, 0x046a193e, 0xb9dcacb1, 0x7c304206, 0x6f433549, 0x885370b6, 0xd4f64250,
              0x59fce6b9, 0xae2e2d4f, 0x1b2b66b8, 0xd70ac17d, 0xa2c7d51d, 0xf074fc95, 0xd560b028, 0x7cc6b262);
    FourTurns(kernel, v, words, 24, 0x983e5152, 0xa831c66d, 0xb00327c8, 0xbf597fc7,
              0xddeb1516, 0xf36586f4, 0x969cd048, 0xe959d99d,
              0x59fce6b9, 0xae2e2d4f, 0x1b2b66b8, 0xd70ac17d, 0xa2c7d51d, 0xf074fc95, 0xd560b028, 0x7cc6b262,
              0x73f858af, 0x128661da, 0x573221da, 0x4a885065, 0xe77c797f, 0x1162d575, 0x36e74eb4, 0x763597fb);
    FourTurns(kernel, v, words, 28, 0xc6e00bf3, 0xd5a79147, 0x06ca6351, 0x14292967,
              0x6accc0ec, 0xf54cb098, 0x2af1b2da, 0xee59c4c9,
              0x73f858af, 0x128661da, 0x573221da, 0x4a885065, 0xe77c797f, 0x1162d575, 0x36e74eb4, 0x763597fb,
              0x5581ab07, 0xeb43f3ed, 0xdf7151a0, 0x74bcf468, 0xdf980085, 0x0635d880, 0x7629c961, 0x72abaecd);
  }

  lemma FirstRounds32(kernel: Kernel, v: Vars, words: seq<Word>)
    requires IsSha256(kernel, Sha256Compress) && |words| == 64 && FirstWords32(words)
    requires Rounds(kernel, v, words, 32) ==
             Variables(0x5581ab07, 0xeb43f3ed, 0xdf7151a0, 0x74bcf468, 0xdf980085, 0x0635d880, 0x7629c961, 0x72abaecd)
    ensures Rounds(kernel, v, words, 48) ==
            Variables(0x13d82741, 0x165be9cd, 0x18f0d19d, 0xde71e2f2, 0xa7802a4d, 0xa483f080, 0x6b88472c, 0xff61c636)
  {
    Keys32();
    FourTurns(kernel, v, words, 32, 0x27b70a85, 0x2e1b2138, 0x4d2c6dfc, 0x53380d13,
              0xa835e16a, 0x1dff4429, 0xd6e15959, 0xc397cd6e,
              0x5581ab07, 0xeb43f3ed, 0xdf7151a0, 0x74bcf468, 0xdf980085, 0x0635d880, 0x7629c961, 0x72abaecd,
              0x0786dce8, 0x1df8e885, 0x9ce5a62f, 0x9fc905c8, 0xde2a21d1, 0x2a9e048e, 0x6ef3b6bd, 0xa94d2af1);
    FourTurns(kernel, v, words, 36, 0x650a7354, 0x766a0abb, 0x81c2c92e, 0x92722c85,
              0x6f1801ca, 0x21574205, 0x35ff7a84, 0x9743ee78,
              0x0786dce8, 0x1df8e885, 0x9ce5a62f, 0x9fc905c8, 0xde2a21d1, 0x2a9e048e, 0x6ef3b6bd, 0xa94d2af1,
              0x7e4d30b8, 0x91ac9d5d, 0xa985b4be, 0x2c55d3a6, 0x9f5b9b6d, 0x68d8d590, 0xf72bf353, 0xb067c1af);
    FourTurns(kernel, v, words, 40, 0xa2bfe8a1, 0xa81a664b, 0xc24b8b70, 0xc76c51a3,
              0xe44183e7, 0x0d09f00d, 0x9c89af54, 0x042d5bef,
              0x7e4d30b8, 0x91ac9d5d, 0xa985b4be, 0x2c55d3a6, 0x9f5b9b6d, 0x68d8d590, 0xf72bf353, 0xb067c1af,
              0x167361de, 0xb62c7013, 0x508a16ab, 0x7e056794, 0x41dd3844, 0x80a92a00, 0x45459d97, 0x423b26c0);
    FourTurns(kernel, v, words, 44, 0xd192e819, 0xd6990624, 0xf40e3585, 0x106aa070,
              0x71f134d0, 0x0f94f463, 0x7e49dc63, 0x6f65c997,
              0x167361de, 0xb62c7013, 0x508a16ab, 0x7e056794, 0x41dd3844, 0x80a92a00, 0x45459d97, 0x423b26c0,
              0x13d82741, 0x165be9cd, 0x18f0d19d, 0xde71e2f2, 0xa7802a4d, 0xa483f080, 0x6b88472c, 0xff61c636);
  }

  lemma FirstRounds48(kernel: Kernel, v: Vars, words: seq<Word>)
    requires IsSha256(kernel, Sha256Compress) && |words| == 64 && FirstWords48(words)
    requires Rounds(kernel, v, words, 48) ==
             Variables(0x13d82741, 0x165be9cd, 0x18f0d19d, 0xde71e2f2, 0xa7802a4d, 0xa483f080, 0x6b88472c, 0xff61c636)
    ensures Rounds(kernel, v, words, 64) ==
            Variables(0x1bdc6f6f, 0x86126910, 0xf6f443f8, 0xbcfce922, 0x25d2430a, 0x2fc08f85, 0xacc75916, 0x962d8621)
  {
    Keys48();
    FourTurns(kernel, v, words, 48, 0x19a4c116, 0x1e376c08, 0x2748774c, 0x34b0bcb5,
              0x0b706583, 0x179312ca, 0x503054e9, 0xba125c39,
              0x13d82741, 0x165be9cd, 0x18f0d19d, 0xde71e2f2, 0xa7802a4d, 0xa483f080, 0x6b88472c, 0xff61c636,
              0x81c1cde0, 0x758ca97a, 0x543c99a1, 0x017b9d99, 0x5c47eb7b, 0x100cf2ea, 0x16f134b6, 0xaeb10b60);
    FourTurns(kernel, v, words, 52, 0x391c0cb3, 0x4ed8aa4a, 0x5b9cca4f, 0x682e6ff3,
              0x7e9392c9, 0xd5cbaa1e, 0x78e0585d, 0xf6e7611c,
              0x81c1cde0, 0x758ca97a, 0x543c99a1, 0x017b9d99, 0x5c47eb7b, 0x100cf2ea, 0x16f134b6, 0xaeb10b60,
              0x9e57c4a0, 0xf907b313, 0x1d6de87a, 0xb8d55619, 0xeec13548, 0x61a41711, 0x3443bed4, 0x1c806a61);
    FourTurns(kernel, v, words, 56, 0x748f82ee, 0x78a5636f, 0x84c87814, 0x8cc70208,
              0x8ac830ce, 0x8b47a303, 0xfd6e627f, 0x8c6e2c6a,
              0x9e57c4a0, 0xf907b313, 0x1d6de87a, 0xb8d55619, 0xeec13548, 0x61a41711, 0x3443bed4, 0x1c806a61,
              0xe18f259a, 0x921fccb6, 0x7c015a2c, 0x71629856, 0x51e15869, 0x43d8a034, 0xcb9d3dd0, 0x2f6c8c4e);
    FourTurns(kernel, v, words, 60, 0x90befffa, 0xa4506ceb, 0xbef9a3f7, 0xc67178f2,
              0x4001adf1, 0x1a3dd097, 0xa9df6f62, 0x6aa60a39,
              0xe18f259a, 0x921fccb6, 0x7c015a2c, 0x71629856, 0x51e15869, 0x43d8a034, 0xcb9d3dd0, 0x2f6c8c4e,
              0x1bdc6f6f, 0x86126910, 0xf6f443f8, 0xbcfce922, 0x25d2430a, 0x2fc08f85, 0xacc75916, 0x962d8621);
  }

  lemma FirstBlock(kernel: Kernel, v: Vars, words: seq<Word>)
    requires IsSha256(kernel, Sha256Compress) && Recurs(kernel, words) && FirstWords0(words)
    requires v == Variables(0x6a09e667, 0xbb67ae85, 0x3c6ef372, 0xa54ff53a, 0x510e527f, 0x9b05688c, 0x1f83d9ab,
                            0x5be0cd19)
    ensures Rounds(kernel, v, words, 64) ==
            Variables(0x1bdc6f6f, 0x86126910, 0xf6f443f8, 0xbcfce922, 0x25d2430a, 0x2fc08f85, 0xacc75916, 0x962d8621)
  {
    FirstSchedule(kernel, words);
    FirstRounds0(kernel, v, words);
    FirstRounds16(kernel, v, words);
    FirstRounds32(kernel, v, words);
    FirstRounds48(kernel, v, words);
  }

  // ------------------------------------------------------------------ its second block

  predicate SecondWords0(words: seq<Word>)
    requires |words| == 64
  {
    && Fours(words, 0, 0x00000000, 0x00000000, 0x00000000, 0x00000000)
    && Fours(words, 4, 0x00000000, 0x00000000, 0x00000000, 0x00000000)
    && Fours(words, 8, 0x00000000, 0x00000000, 0x00000000, 0x00000000)
    && Fours(words, 12, 0x00000000, 0x00000000, 0x00000000, 0x000001c0)
  }

  predicate SecondWords16(words: seq<Word>)
    requires |words| == 64
  {
    && Fours(words, 16, 0x00000000, 0x00d80000, 0x00000000, 0x00003677)
    && Fours(words, 20, 0x00000000, 0x1df5600d, 0x000001c0, 0x1c00501c)
    && Fours(words, 24, 0x01b00000, 0x220a8d94, 0x0000a365, 0x177017e7)
    && Fours(words, 28, 0x63d38035, 0x090ab713, 0x4c7539ca, 0x0f19a8c9)
  }

  predicate SecondWords32(words: seq<Word>)
    requires |words| == 64
  {
    && Fours(words, 32, 0x5df4b0c4, 0xe257036a, 0xc97bb6f1, 0xc5b46f4d)
    && Fours(words, 36, 0xf8253c4e, 0xa558d189, 0x78696285, 0xed07117f)
    && Fours(words, 40, 0x107358f6, 0x390ae496, 0x565010a2, 0xc51d7d44)
    && Fours(words, 44, 0x9e74c972, 0x6614b561, 0x30fc129d, 0x9ac684a8)
  }

  predicate SecondWords48(words: seq<Word>)
    requires |words| == 64
  {
    && Fours(words, 48, 0x2b658dbd, 0xe290f793, 0x9eebb24c, 0x9713b5de)
    && Fours(words, 52, 0x41061ab7, 0xe022e23b, 0x0772079e, 0x7de22d9c)
    && Fours(words, 56, 0xc8b83778, 0x75a79849, 0xd93dbddb, 0x0a036c9d)
    && Fours(words, 60, 0xcb4f6ac6, 0x823f97e2, 0xea2f2a7a, 0xb9018b52)
  }

  lemma SecondSchedule(kernel: Kernel, words: seq<Word>)
    requires IsSha256(kernel, Sha256Compress) && Recurs(kernel, words) && SecondWords0(words)
    ensures SecondWords16(words) && SecondWords32(words) && SecondWords48(words)
  {
    GrowFour(kernel, words, 16, 0x00000000, 0x00000000, 0x00000000, 0x00000000, 0x00000000,
             0x00000000, 0x00000000, 0x00000000, 0x00000000, 0x00000000, 0x000001c0,
             0x00000000, 0x00d80000, 0x00000000, 0x00003677);
    GrowFour(kernel, words, 20, 0x00000000, 0x00000000, 0x00000000, 0x00000000, 0x00000000,
             0x00000000, 0x00000000, 0x000001c0, 0x00000000, 0x00000000, 0x00003677,
             0x00000000, 0x1df5600d, 0x000001c0, 0x1c00501c);
    GrowFour(kernel, words, 24, 0x00000000, 0x00000000, 0x00000000, 0x00000000, 0x00000000,
             0x00d80000, 0x00000000, 0x00003677, 0x00000000, 0x000001c0, 0x1c00501c,
             0x01b00000, 0x220a8d94, 0x0000a365, 0x177017e7);
    GrowFour(kernel, words, 28, 0x00000000, 0x00000000, 0x00000000, 0x000001c0, 0x00000000,
             0x1df5600d, 0x000001c0, 0x1c00501c, 0x01b00000, 0x0000a365, 0x177017e7,
             0x63d38035, 0x090ab713, 0x4c7539ca, 0x0f19a8c9);
    GrowFour(kernel, words, 32, 0x00000000, 0x00d80000, 0x00000000, 0x00003677, 0x00000000,
             0x220a8d94, 0x0000a365, 0x177017e7, 0x63d38035, 0x4c7539ca, 0x0f19a8c9,
             0x5df4b0c4, 0xe257036a, 0xc97bb6f1, 0xc5b46f4d);
    GrowFour(kernel, words, 36, 0x00000000, 0x1df5600d, 0x000001c0, 0x1c00501c, 0x01b00000,
             0x090ab713, 0x4c7539ca, 0x0f19a8c9, 0x5df4b0c4, 0xc97bb6f1, 0xc5b46f4d,
             0xf8253c4e, 0xa558d189, 0x78696285, 0xed07117f);
    GrowFour(kernel, words, 40, 0x01b00000, 0x220a8d94, 0x0000a365, 0x177017e7, 0x63d38035,
             0xe257036a, 0xc97bb6f1, 0xc5b46f4d, 0xf8253c4e, 0x78696285, 0xed07117f,
             0x107358f6, 0x390ae496, 0x565010a2, 0xc51d7d44);
    GrowFour(kernel, words, 44, 0x63d38035, 0x090ab713, 0x4c7539ca, 0x0f19a8c9, 0x5df4b0c4,
             0xa558d189, 0x78696285, 0xed07117f, 0x107358f6, 0x565010a2, 0xc51d7d44,
             0x9e74c972, 0x6614b561, 0x30fc129d, 0x9ac684a8);
    GrowFour(kernel, words, 48, 0x5df4b0c4, 0xe257036a, 0xc97bb6f1, 0xc5b46f4d, 0xf8253c4e,
             0x390ae496, 0x565010a2, 0xc51d7d44, 0x9e74c972, 0x30fc129d, 0x9ac684a8,
             0x2b658dbd, 0xe290f793, 0x9eebb24c, 0x9713b5de);
    GrowFour(kernel, words, 52, 0xf8253c4e, 0xa558d189, 0x78696285, 0xed07117f, 0x107358f6,
             0x6614b561, 0x30fc129d, 0x9ac684a8, 0x2b658dbd, 0x9eebb24c, 0x9713b5de,
             0x41061ab7, 0xe022e23b, 0x0772079e, 0x7de22d9c);
    GrowFour(kernel, words, 56, 0x107358f6, 0x390ae496, 0x565010a2, 0xc51d7d44, 0x9e74c972,
             0xe290f793, 0x9eebb24c, 0x9713b5de, 0x41061ab7, 0x0772079e, 0x7de22d9c,
             0xc8b83778, 0x75a79849, 0xd93dbddb, 0x0a036c9d);
    GrowFour(kernel, words, 60, 0x9e74c972, 0x6614b561, 0x30fc129d, 0x9ac684a8, 0x2b658dbd,
             0xe022e23b, 0x0772079e, 0x7de22d9c, 0xc8b83778, 0xd93dbddb, 0x0a036c9d,
             0xcb4f6ac6, 0x823f97e2, 0xea2f2a7a, 0xb9018b52);
  }

  lemma SecondRounds0(kernel: Kernel, v: Vars, words: seq<Word>)
    requires IsSha256(kernel, Sha256Compress) && |words| == 64 && SecondWords0(words)
    requires Rounds(kernel, v, words, 0) ==
             Variables(0x85e655d6, 0x417a1795, 0x3363376a, 0x624cde5c, 0x76e09589, 0xcac5f811, 0xcc4b32c1, 0xf20e533a)
    ensures Rounds(kernel, v, words, 16) ==
            Variables(0x16a8cc79, 0x0cea5cbc, 0xd74080fa, 0x35ee996d, 0x0fcb1f6f, 0x60356548, 0x68aa893f, 0x5c24e2a2)
  {
    Keys0();
    FourTurns(kernel, v, words, 0, 0x428a2f98, 0x71374491, 0xb5c0fbcf, 0xe9b5dba5,
              0x00000000, 0x00000000, 0x00000000, 0x00000000,
              0x85e655d6, 0x417a1795, 0x3363376a, 0x624cde5c, 0x76e09589, 0xcac5f811, 0xcc4b32c1, 0xf20e533a,
              0xf268faa9, 0xfd1eebdc, 0x7c3c0f86, 0x7c20c838, 0xe20362ef, 0xaf71b9ea, 0x8c51be64, 0x4670ae6e);
    FourTurns(kernel, v, words, 4, 0x3956c25b, 0x59f111f1, 0x923f82a4, 0xab1c5ed5,
              0x00000000, 0x00000000, 0x00000000, 0x00000000,
              0xf268faa9, 0xfd1eebdc, 0x7c3c0f86, 0x7c20c838, 0xe20362ef, 0xaf71b9ea, 0x8c51be64, 0x4670ae6e,
              0xbf9a93a0, 0x89bba3f1, 0x3eeb6c06, 0x185a5d79, 0x059abdd1, 0x0a34df03, 0xfe20cda6, 0x8dff3001);
    FourTurns(kernel, v, words, 8, 0xd807aa98, 0x12835b01, 0x243185be, 0x550c7dc3,
              0x00000000, 0x00000000, 0x00000000, 0x00000000,
              0xbf9a93a0, 0x89bba3f1, 0x3eeb6c06, 0x185a5d79, 0x059abdd1, 0x0a34df03, 0xfe20cda6, 0x8dff3001,
              0x5eb4ec40, 0x5b35025b, 0x2d964e86, 0x2c096744, 0xe11b4548, 0x10e77723, 0xaa27ed82, 0xabfa465b);
    FourTurns(kernel, v, words, 12, 0x72be5d74, 0x80deb1fe, 0x9bdc06a7, 0xc19bf174,
              0x00000000, 0x00000000, 0x00000000, 0x000001c0,
              0x5eb4ec40, 0x5b35025b, 0x2d964e86, 0x2c096744, 0xe11b4548, 0x10e77723, 0xaa27ed82, 0xabfa465b,
              0x16a8cc79, 0x0cea5cbc, 0xd74080fa, 0x35ee996d, 0x0fcb1f6f, 0x60356548, 0x68aa893f, 0x5c24e2a2);
  }

  lemma SecondRounds16(kernel: Kernel, v: Vars, words: seq<Word>)
    requires IsSha256(kernel, Sha256Compress) && |words| == 64 && SecondWords16(words)
    requires Rounds(kernel, v, words, 16) ==
             Variables(0x16a8cc79, 0x0cea5cbc, 0xd74080fa, 0x35ee996d, 0x0fcb1f6f, 0x60356548, 0x68aa893f, 0x5c24e2a2)
    ensures Rounds(kernel, v, words, 32) ==
            Variables(0xb0eab1c5, 0x02ef3a5f, 0x1cfa5eb0, 0xd958b529, 0xf6d93952, 0x5da10665, 0x6c49db9f, 0xc2fa99b1)
  {
    Keys16();
    FourTurns(kernel, v, words, 16, 0xe49b69c1, 0xefbe4786, 0x0fc19dc6, 0x240ca1cc,
              0x00000000, 0x00d80000, 0x00000000, 0x00003677,
              0x16a8cc79, 0x0cea5cbc, 0xd74080fa, 0x35ee996d, 0x0fcb1f6f, 0x60356548, 0x68aa893f, 0x5c24e2a2,
              0x76f1a2bc, 0xdcff40fd, 0x23dcb6c2, 0xf16f634e, 0x0dc84bb1, 0x69bf7b95, 0xca9182d3, 0x8b21cdc1);
    FourTurns(kernel, v, words, 20, 0x2de92c6f, 0x4a7484aa, 0x5cb0a9dc, 0x76f988da,
              0x00000000, 0x1df5600d, 0x000001c0, 0x1c00501c,
              0x76f1a2bc, 0xdcff40fd, 0x23dcb6c2, 0xf16f634e, 0x0dc84bb1, 0x69bf7b95, 0xca9182d3, 0x8b21cdc1,
              0xa4195b91, 0xf13ae55b, 0xd44dc81a, 0x20aad899, 0xeddbd6ed, 0x966aa287, 0x5bace62d, 0xcc4769f2);
    FourTurns(kernel, v, words, 24, 0x983e5152, 0xa831c66d, 0xb00327c8, 0xbf597fc7,
              0x01b00000, 0x220a8d94, 0x0000a365, 0x177017e7,
              0xa4195b91, 0xf13ae55b, 0xd44dc81a, 0x20aad899, 0xeddbd6ed, 0x966aa287, 0x5bace62d, 0xcc4769f2,
              0x0d936bab, 0x9450fbbc, 0xaa6cb982, 0x4984fa79, 0x6e495d4b, 0x09166dda, 0x0b5eeea4, 0xa530d939);
    FourTurns(kernel, v, words, 28, 0xc6e00bf3, 0xd5a79147, 0x06ca6351, 0x14292967,
              0x63d38035, 0x090ab713, 0x4c7539ca, 0x0f19a8c9,
              0x0d936bab, 0x9450fbbc, 0xaa6cb982, 0x4984fa79, 0x6e495d4b, 0x09166dda, 0x0b5eeea4, 0xa530d939,
              0xb0eab1c5, 0x02ef3a5f, 0x1cfa5eb0, 0xd958b529, 0xf6d93952, 0x5da10665, 0x6c49db9f, 0xc2fa99b1);
  }

  lemma SecondRounds32(kernel: Kernel, v: Vars, words: seq<Word>)
    requires IsSha256(kernel, Sha256Compress) && |words| == 64 && SecondWords32(words)
    requires Rounds(kernel, v, words, 32) ==
             Variables(0xb0eab1c5, 0x02ef3a5f, 0x1cfa5eb0, 0xd958b529, 0xf6d93952, 0x5da10665, 0x6c49db9f, 0xc2fa99b1)
    ensures Rounds(kernel, v, words, 48) ==
            Variables(0xd7354d5b, 0x0b3303a7, 0x104a7db4, 0x0f154e11, 0xaad55b6b, 0xbbe1c39a, 0x5348e8f6, 0x6f9517cb)
  {
    Keys32();
    FourTurns(kernel, v, words, 32, 0x27b70a85, 0x2e1b2138, 0x4d2c6dfc, 0x53380d13,
              0x5df4b0c4, 0xe257036a, 0xc97bb6f1, 0xc5b46f4d,
              0xb0eab1c5, 0x02ef3a5f, 0x1cfa5eb0, 0xd958b529, 0xf6d93952, 0x5da10665, 0x6c49db9f, 0xc2fa99b1,
              0xecde4e0d, 0x9907f1b6, 0x4bd1df96, 0x0bfba73c, 0x5dc119e6, 0x66c3043d, 0x905e44ac, 0x8b99e3a9);
    FourTurns(kernel, v, words, 36, 0x650a7354, 0x766a0abb, 0x81c2c92e, 0x92722c85,
              0xf8253c4e, 0xa558d189, 0x78696285, 0xed07117f,
              0xecde4e0d, 0x9907f1b6, 0x4bd1df96, 0x0bfba73c, 0x5dc119e6, 0x66c3043d, 0x905e44ac, 0x8b99e3a9,
              0x221b8a5a, 0xadca7a96, 0xd949682b, 0x2f11c939, 0x0b82c5eb, 0xc6cce4ff, 0x32d99008, 0xfed4ce1d);
    FourTurns(kernel, v, words, 40, 0xa2bfe8a1, 0xa81a664b, 0xc24b8b70, 0xc76c51a3,
              0x107358f6, 0x390ae496, 0x565010a2, 0xc51d7d44,
              0x221b8a5a, 0xadca7a96, 0xd949682b, 0x2f11c939, 0x0b82c5eb, 0xc6cce4ff, 0x32d99008, 0xfed4ce1d,
              0xf2ad6322, 0x8300fca2, 0x2c794876, 0x12d97845, 0xcc48c7f3, 0xe0e3457c, 0xff6759ba, 0xe4213ca2);
    FourTurns(kernel, v, words, 44, 0xd192e819, 0xd6990624, 0xf40e3585, 0x106aa070,
              0x9e74c972, 0x6614b561, 0x30fc129d, 0x9ac684a8,
              0xf2ad6322, 0x8300fca2, 0x2c794876, 0x12d97845, 0xcc48c7f3, 0xe0e3457c, 0xff6759ba, 0xe4213ca2,
              0xd7354d5b, 0x0b3303a7, 0x104a7db4, 0x0f154e11, 0xaad55b6b, 0xbbe1c39a, 0x5348e8f6, 0x6f9517cb);
  }

  lemma SecondRounds48(kernel: Kernel, v: Vars, words: seq<Word>)
    requires IsSha256(kernel, Sha256Compress) && |words| == 64 && SecondWords48(words)
    requires Rounds(kernel, v, words, 48) ==
             Variables(0xd7354d5b, 0x0b3303a7, 0x104a7db4, 0x0f154e11, 0xaad55b6b, 0xbbe1c39a, 0x5348e8f6, 0x6f9517cb)
    ensures Rounds(kernel, v, words, 64) ==
            Variables(0x9ea7148b, 0x908c2123, 0xb25cef29, 0xa9f181dd, 0x2c5c4ed0, 0x9a392956, 0x2aa1bb13, 0x27ccb387)
  {
    Keys48();
    FourTurns(kernel, v, words, 48, 0x19a4c116, 0x1e376c08, 0x2748774c, 0x34b0bcb5,
              0x2b658dbd, 0xe290f793, 0x9eebb24c, 0x9713b5de,
              0xd7354d5b, 0x0b3303a7, 0x104a7db4, 0x0f154e11, 0xaad55b6b, 0xbbe1c39a, 0x5348e8f6, 0x6f9517cb,
              0x1a6bcf6a, 0xd8aabcf9, 0x2748e5ec, 0xb736d7a6, 0xff5e99d0, 0x27844711, 0xd4b58576, 0x68f25260);
    FourTurns(kernel, v, words, 52, 0x391c0cb3, 0x4ed8aa4a, 0x5b9cca4f, 0x682e6ff3,
              0x41061ab7, 0xe022e23b, 0x0772079e, 0x7de22d9c,
              0x1a6bcf6a, 0xd8aabcf9, 0x2748e5ec, 0xb736d7a6, 0xff5e99d0, 0x27844711, 0xd4b58576, 0x68f25260,
              0x92952710, 0xd9f0c115, 0xec02560a, 0x4eca6fa0, 0x226806d6, 0x624150c4, 0x7151df8e, 0x989ed071);
    FourTurns(kernel, v, words, 56, 0x748f82ee, 0x78a5636f, 0x84c87814, 0x8cc70208,
              0xc8b83778, 0x75a79849, 0xd93dbddb, 0x0a036c9d,
              0x92952710, 0xd9f0c115, 0xec02560a, 0x4eca6fa0, 0x226806d6, 0x624150c4, 0x7151df8e, 0x989ed071,
              0x1c4cddd9, 0x286fe5f0, 0x4348eb1f, 0x20d4d0e4, 0xf487a853, 0x54076664, 0xc21eddf9, 0x4e515a4d);
    FourTurns(kernel, v, words, 60, 0x90befffa, 0xa4506ceb, 0xbef9a3f7, 0xc67178f2,
              0xcb4f6ac6, 0x823f97e2, 0xea2f2a7a, 0xb9018b52,
              0x1c4cddd9, 0x286fe5f0, 0x4348eb1f, 0x20d4d0e4, 0xf487a853, 0x54076664, 0xc21eddf9, 0x4e515a4d,
              0x9ea7148b, 0x908c2123, 0xb25cef29, 0xa9f181dd, 0x2c5c4ed0, 0x9a392956, 0x2aa1bb13, 0x27ccb387);
  }

  lemma SecondBlock(kernel: Kernel, v: Vars, words: seq<Word>)
    requires IsSha256(kernel, Sha256Compress) && Recurs(kernel, words) && SecondWords0(words)
    requires v == Variables(0x85e655d6, 0x417a1795, 0x3363376a, 0x624cde5c, 0x76e09589, 0xcac5f811, 0xcc4b32c1,
                            0xf20e533a)
    ensures Rounds(kernel, v, words, 64) ==
            Variables(0x9ea7148b, 0x908c2123, 0xb25cef29, 0xa9f181dd, 0x2c5c4ed0, 0x9a392956, 0x2aa1bb13, 0x27ccb387)
  {
    SecondSchedule(kernel, words);
    SecondRounds0(kernel, v, words);
    SecondRounds16(kernel, v, words);
    SecondRounds32(kernel, v, words);
    SecondRounds48(kernel, v, words);
  }
  // ------------------------------------------------------------------ the padded messages

  function Abc(): seq<Byte> {
    [0x61, 0x62, 0x63]
  }

  /** The bytes of "abcdbcdecdefdefgefghfghighijhijkijkljklmklmnlmnomnopnopq". */
  function Longer(): seq<Byte> {
    seq(56, i requires 0 <= i < 56 => (0x61 + i / 4 + i % 4) as Byte)
  }

  lemma AbcPadded()
    ensures Pad(Abc()) == Abc() + [0x80] + Zeros(58) + [0, 24]
  {
    LengthBytes(0, 24);
    assert Zeros(52) + Zeros(6) == Zeros(58);
  }

  lemma LongerPadded()
    ensures Pad(Longer()) == (Longer() + [0x80] + Zeros(7)) + (Zeros(62) + [1, 0xc0])
  {
    LengthBytes(1, 0xc0);
    assert Zeros(63) + Zeros(6) == Zeros(7) + Zeros(62);
  }

  // ------------------------------------------------------------------ their words

  lemma AbcStart(kernel: Kernel, block: Block, words: seq<Word>)
    requires IsSha256(kernel, Sha256Compress) && words == ScheduleOf(kernel, block)
    requires block == Abc() + [0x80] + Zeros(58) + [0, 24]
    ensures AbcWords0(words)
  {
    Packs(0x61, 0x62, 0x63, 0x80, 0x61626380);
    Packs(0, 0, 0, 24, 24);
    WordAt(kernel, block, words, 0, 0x61, 0x62, 0x63, 0x80, 0x61626380);
    ZeroWords(kernel, block, words, 1, 15);
    WordAt(kernel, block, words, 15, 0, 0, 0, 24, 24);
  }

  lemma LongerBytes(t: nat)
    requires t < 14
    ensures Longer()[4 * t] as int == 0x61 + t && Longer()[4 * t + 1] as int == 0x62 + t
    ensures Longer()[4 * t + 2] as int == 0x63 + t && Longer()[4 * t + 3] as int == 0x64 + t
  {
    assert (4 * t + 1) / 4 == (4 * t + 2) / 4 == (4 * t + 3) / 4 == t;
  }

  lemma FirstWord(kernel: Kernel, block: Block, words: seq<Word>, t: nat, w: bv32)
    requires IsSha256(kernel, Sha256Compress) && words == ScheduleOf(kernel, block) && t < 14
    requires forall i | 0 <= i < 56 :: block[i] == Longer()[i]
    requires Packed((0x61 + t) as Byte, (0x62 + t) as Byte, (0x63 + t) as Byte, (0x64 + t) as Byte, w)
    ensures words[t] == Word(w)
  {
    LongerBytes(t);
    WordAt(kernel, block, words, t, (0x61 + t) as Byte, (0x62 + t) as Byte, (0x63 + t) as Byte, (0x64 + t) as Byte,
           w);
  }

  lemma FirstWords0To4(kernel: Kernel, block: Block, words: seq<Word>)
    requires IsSha256(kernel, Sha256Compress) && words == ScheduleOf(kernel, block)
    requires forall i | 0 <= i < 56 :: block[i] == Longer()[i]
    ensures words[0] == Word(0x61626364)
    ensures words[1] == Word(0x62636465)
    ensures words[2] == Word(0x63646566)
    ensures words[3] == Word(0x64656667)
  {
    Packs(0x61, 0x62, 0x63, 0x64, 0x61626364);
    FirstWord(kernel, block, words, 0, 0x61626364);
    Packs(0x62, 0x63, 0x64, 0x65, 0x62636465);
    FirstWord(kernel, block, words, 1, 0x62636465);
    Packs(0x63, 0x64, 0x65, 0x66, 0x63646566);
    FirstWord(kernel, block, words, 2, 0x63646566);
    Packs(0x64, 0x65, 0x66, 0x67, 0x64656667);
    FirstWord(kernel, block, words, 3, 0x64656667);
  }

  lemma FirstWords4To8(kernel: Kernel, block: Block, words: seq<Word>)
    requires IsSha256(kernel, Sha256Compress) && words == ScheduleOf(kernel, block)
    requires forall i | 0 <= i < 56 :: block[i] == Longer()[i]
    ensures words[4] == Word(0x65666768)
    ensures words[5] == Word(0x66676869)
    ensures words[6] == Word(0x6768696a)
    ensures words[7] == Word(0x68696a6b)
  {
    Packs(0x65, 0x66, 0x67, 0x68, 0x65666768);
    FirstWord(kernel, block, words, 4, 0x65666768);
    Packs(0x66, 0x67, 0x68, 0x69, 0x66676869);
    FirstWord(kernel, block, words, 5, 0x66676869);
    Packs(0x67, 0x68, 0x69, 0x6a, 0x6768696a);
    FirstWord(kernel, block, words, 6, 0x6768696a);
    Packs(0x68, 0x69, 0x6a, 0x6b, 0x68696a6b);
    FirstWord(kernel, block, words, 7, 0x68696a6b);
  }

  lemma FirstWords8To12(kernel: Kernel, block: Block, words: seq<Word>)
    requires IsSha256(kernel, Sha256Compress) && words == ScheduleOf(kernel, block)
    requires forall i | 0 <= i < 56 :: block[i] == Longer()[i]
    ensures words[8] == Word(0x696a6b6c)
    ensures words[9] == Word(0x6a6b6c6d)
    ensures words[10] == Word(0x6b6c6d6e)
    ensures words[11] == Word(0x6c6d6e6f)
  {
    Packs(0x69, 0x6a, 0x6b, 0x6c, 0x696a6b6c);
    FirstWord(kernel, block, words, 8, 0x696a6b6c);
    Packs(0x6a, 0x6b, 0x6c, 0x6d, 0x6a6b6c6d);
    FirstWord(kernel, block, words, 9, 0x6a6b6c6d);
    Packs(0x6b, 0x6c, 0x6d, 0x6e, 0x6b6c6d6e);
    FirstWord(kernel, block, words, 10, 0x6b6c6d6e);
    Packs(0x6c, 0x6d, 0x6e, 0x6f, 0x6c6d6e6f);
    FirstWord(kernel, block, words, 11, 0x6c6d6e6f);
  }

  lemma FirstWords12To14(kernel: Kernel, block: Block, words: seq<Word>)
    requires IsSha256(kernel, Sha256Compress) && words == ScheduleOf(kernel, block)
    requires forall i | 0 <= i < 56 :: block[i] == Longer()[i]
    ensures words[12] == Word(0x6d6e6f70)
    ensures words[13] == Word(0x6e6f7071)
  {
    Packs(0x6d, 0x6e, 0x6f, 0x70, 0x6d6e6f70);
    FirstWord(kernel, block, words, 12, 0x6d6e6f70);
    Packs(0x6e, 0x6f, 0x70, 0x71, 0x6e6f7071);
    FirstWord(kernel, block, words, 13, 0x6e6f7071);
  }

  lemma FirstStart(kernel: Kernel, block: Block, words: seq<Word>)
    requires IsSha256(kernel, Sha256Compress) && words == ScheduleOf(kernel, block)
    requires block == Longer() + [0x80] + Zeros(7)
    ensures FirstWords0(words)
  {
    FirstWords0To4(kernel, block, words);
    FirstWords4To8(kernel, block, words);
    FirstWords8To12(kernel, block, words);
    FirstWords12To14(kernel, block, words);
    Packs(0x80, 0, 0, 0, 0x80000000);
    WordAt(kernel, block, words, 14, 0x80, 0, 0, 0, 0x80000000);
    ZeroWords(kernel, block, words, 15, 16);
  }

  lemma SecondStart(kernel: Kernel, block: Block, words: seq<Word>)
    requires IsSha256(kernel, Sha256Compress) && words == ScheduleOf(kernel, block)
    requires block == Zeros(62) + [1, 0xc0]
    ensures SecondWords0(words)
  {
    ZeroWords(kernel, block, words, 0, 15);
    Packs(0, 0, 1, 0xc0, 0x1c0);
    WordAt(kernel, block, words, 15, 0, 0, 1, 0xc0, 0x1c0);
  }

  // ------------------------------------------------------------------ their hash values

  lemma AbcCompressed(kernel: Kernel, block: Block)
    requires IsSha256(kernel, Sha256Compress) && block == Abc() + [0x80] + Zeros(58) + [0, 24]
    ensures Compress(kernel,
                     Values(0x6a09e667, 0xbb67ae85, 0x3c6ef372, 0xa54ff53a, 0x510e527f, 0x9b05688c, 0x1f83d9ab,
                            0x5be0cd19),
                     block) ==
            Values(0xba7816bf, 0x8f01cfea, 0x414140de, 0x5dae2223, 0xb00361a3, 0x96177a9c, 0xb410ff61, 0xf20015ad)
  {
    var hash := Values(0x6a09e667, 0xbb67ae85, 0x3c6ef372, 0xa54ff53a, 0x510e527f, 0x9b05688c, 0x1f83d9ab,
                       0x5be0cd19);
    var words := ScheduleOf(kernel, block);
    ScheduleRecurs(kernel, block);
    AbcStart(kernel, block, words);
    AbcBlock(kernel, VarsOf(hash), words);
    Sums(kernel, 0x6a09e667, 0xbb67ae85, 0x3c6ef372, 0xa54ff53a, 0x510e527f, 0x9b05688c, 0x1f83d9ab, 0x5be0cd19,
         0x506e3058, 0xd39a2165, 0x04d24d6c, 0xb85e2ce9, 0x5ef50f24, 0xfb121210, 0x948d25b6, 0x961f4894);
  }

  lemma FirstCompressed(kernel: Kernel, block: Block)
    requires IsSha256(kernel, Sha256Compress) && block == Longer() + [0x80] + Zeros(7)
    ensures Compress(kernel,
                     Values(0x6a09e667, 0xbb67ae85, 0x3c6ef372, 0xa54ff53a, 0x510e527f, 0x9b05688c, 0x1f83d9ab,
                            0x5be0cd19),
                     block) ==
            Values(0x85e655d6, 0x417a1795, 0x3363376a, 0x624cde5c, 0x76e09589, 0xcac5f811, 0xcc4b32c1, 0xf20e533a)
  {
    var hash := Values(0x6a09e667, 0xbb67ae85, 0x3c6ef372, 0xa54ff53a, 0x510e527f, 0x9b05688c, 0x1f83d9ab,
                       0x5be0cd19);
    var words := ScheduleOf(kernel, block);
    ScheduleRecurs(kernel, block);
    FirstStart(kernel, block, words);
    FirstBlock(kernel, VarsOf(hash), words);
    Sums(kernel, 0x6a09e667, 0xbb67ae85, 0x3c6ef372, 0xa54ff53a, 0x510e527f, 0x9b05688c, 0x1f83d9ab, 0x5be0cd19,
         0x1bdc6f6f, 0x86126910, 0xf6f443f8, 0xbcfce922, 0x25d2430a, 0x2fc08f85, 0xacc75916, 0x962d8621);
  }

  lemma SecondCompressed(kernel: Kernel, block: Block)
    requires IsSha256(kernel, Sha256Compress) && block == Zeros(62) + [1, 0xc0]
    ensures Compress(kernel,
                     Values(0x85e655d6, 0x417a1795, 0x3363376a, 0x624cde5c, 0x76e09589, 0xcac5f811, 0xcc4b32c1,
                            0xf20e533a),
                     block) ==
            Values(0x248d6a61, 0xd20638b8, 0xe5c02693, 0x0c3e6039, 0xa33ce459, 0x64ff2167, 0xf6ecedd4, 0x19db06c1)
  {
    var hash := Values(0x85e655d6, 0x417a1795, 0x3363376a, 0x624cde5c, 0x76e09589, 0xcac5f811, 0xcc4b32c1,
                       0xf20e533a);
    var words := ScheduleOf(kernel, block);
    ScheduleRecurs(kernel, block);
    SecondStart(kernel, block, words);
    SecondBlock(kernel, VarsOf(hash), words);
    Sums(kernel, 0x85e655d6, 0x417a1795, 0x3363376a, 0x624cde5c, 0x76e09589, 0xcac5f811, 0xcc4b32c1, 0xf20e533a,
         0x9ea7148b, 0x908c2123, 0xb25cef29, 0xa9f181dd, 0x2c5c4ed0, 0x9a392956, 0x2aa1bb13, 0x27ccb387);
  }

  lemma InitialValues()
    ensures H0() == Values(0x6a09e667, 0xbb67ae85, 0x3c6ef372, 0xa54ff53a, 0x510e527f, 0x9b05688c, 0x1f83d9ab,
                           0x5be0cd19)
  {
  }

  lemma AbcHash()
    ensures Fips180.Sha256(Abc()) ==
            Values(0xba7816bf, 0x8f01cfea, 0x414140de, 0x5dae2223, 0xb00361a3, 0x96177a9c, 0xb410ff61, 0xf20015ad)
  {
    var block := Abc() + [0x80] + Zeros(58) + [0, 24];
    AbcPadded();
    InitialValues();
    AbcCompressed(Sha256Kernel(), block);
    HashOneMore(Sha256Compress, [], block);
    assert [] + block == block;
  }

  lemma LongerHash()
    ensures Fips180.Sha256(Longer()) ==
            Values(0x248d6a61, 0xd20638b8, 0xe5c02693, 0x0c3e6039, 0xa33ce459, 0x64ff2167, 0xf6ecedd4, 0x19db06c1)
  {
    var first, second := Longer() + [0x80] + Zeros(7), Zeros(62) + [1, 0xc0];
    LongerPadded();
    InitialValues();
    FirstCompressed(Sha256Kernel(), first);
    SecondCompressed(Sha256Kernel(), second);
    TwoBlocks(Sha256Compress, first, second,
              Values(0x85e655d6, 0x417a1795, 0x3363376a, 0x624cde5c, 0x76e09589, 0xcac5f811, 0xcc4b32c1, 0xf20e533a),
              Values(0x248d6a61, 0xd20638b8, 0xe5c02693, 0x0c3e6039, 0xa33ce459, 0x64ff2167, 0xf6ecedd4, 0x19db06c1));
  }

  // ------------------------------------------------------------------ their digests

  lemma AbcDigits0()
    ensures Spelled(0xba7816bf, "ba7816bf")
    ensures Spelled(0x8f01cfea, "8f01cfea")
  {
    Spells(0xba78, 0xba7816bf, 11, 10, 7, 8, 1, 6, 11, 15, 0xba7816bf, "ba7816bf");
    Spells(0x8f01, 0x8f01cfea, 8, 15, 0, 1, 12, 15, 14, 10, 0x8f01cfea, "8f01cfea");
  }

  lemma AbcDigits2()
    ensures Spelled(0x414140de, "414140de")
    ensures Spelled(0x5dae2223, "5dae2223")
  {
    Spells(0x4141, 0x414140de, 4, 1, 4, 1, 4, 0, 13, 14, 0x414140de, "414140de");
    Spells(0x5dae, 0x5dae2223, 5, 13, 10, 14, 2, 2, 2, 3, 0x5dae2223, "5dae2223");
  }

  lemma AbcDigits4()
    ensures Spelled(0xb00361a3, "b00361a3")
    ensures Spelled(0x96177a9c, "96177a9c")
  {
    Spells(0xb003, 0xb00361a3, 11, 0, 0, 3, 6, 1, 10, 3, 0xb00361a3, "b00361a3");
    Spells(0x9617, 0x96177a9c, 9, 6, 1, 7, 7, 10, 9, 12, 0x96177a9c, "96177a9c");
  }

  lemma AbcDigits6()
    ensures Spelled(0xb410ff61, "b410ff61")
    ensures Spelled(0xf20015ad, "f20015ad")
  {
    Spells(0xb410, 0xb410ff61, 11, 4, 1, 0, 15, 15, 6, 1, 0xb410ff61, "b410ff61");
    Spells(0xf200, 0xf20015ad, 15, 2, 0, 0, 1, 5, 10, 13, 0xf20015ad, "f20015ad");
  }

  /** The one-block example. */
  lemma AbcDigest()
    ensures HexDigest(Abc()) == ("ba7816bf" + "8f01cfea") + ("414140de" + "5dae2223") +
                             ("b00361a3" + "96177a9c") + ("b410ff61" + "f20015ad")
  {
    AbcHash();
    AbcDigits0();
    AbcDigits2();
    AbcDigits4();
    AbcDigits6();
    HexValues(0xba7816bf, 0x8f01cfea, 0x414140de, 0x5dae2223, 0xb00361a3, 0x96177a9c, 0xb410ff61, 0xf20015ad,
              "ba7816bf", "8f01cfea", "414140de", "5dae2223", "b00361a3", "96177a9c", "b410ff61", "f20015ad");
  }

  lemma LongerDigits0()
    ensures Spelled(0x248d6a61, "248d6a61")
    ensures Spelled(0xd20638b8, "d20638b8")
  {
    Spells(0x248d, 0x248d6a61, 2, 4, 8, 13, 6, 10, 6, 1, 0x248d6a61, "248d6a61");
    Spells(0xd206, 0xd20638b8, 13, 2, 0, 6, 3, 8, 11, 8, 0xd20638b8, "d20638b8");
  }

  lemma LongerDigits2()
    ensures Spelled(0xe5c02693, "e5c02693")
    ensures Spelled(0x0c3e6039, "0c3e6039")
  {
    Spells(0xe5c0, 0xe5c02693, 14, 5, 12, 0, 2, 6, 9, 3, 0xe5c02693, "e5c02693");
    Spells(0x0c3e, 0x0c3e6039, 0, 12, 3, 14, 6, 0, 3, 9, 0x0c3e6039, "0c3e6039");
  }

  lemma LongerDigits4()
    ensures Spelled(0xa33ce459, "a33ce459")
    ensures Spelled(0x64ff2167, "64ff2167")
  {
    Spells(0xa33c, 0xa33ce459, 10, 3, 3, 12, 14, 4, 5, 9, 0xa33ce459, "a33ce459");
    Spells(0x64ff, 0x64ff2167, 6, 4, 15, 15, 2, 1, 6, 7, 0x64ff2167, "64ff2167");
  }

  lemma LongerDigits6()
    ensures Spelled(0xf6ecedd4, "f6ecedd4")
    ensures Spelled(0x19db06c1, "19db06c1")
  {
    Spells(0xf6ec, 0xf6ecedd4, 15, 6, 14, 12, 14, 13, 13, 4, 0xf6ecedd4, "f6ecedd4");
    Spells(0x19db, 0x19db06c1, 1, 9, 13, 11, 0, 6, 12, 1, 0x19db06c1, "19db06c1");
  }

  /** The two-block example: the second block is chained to the first. */
  lemma LongerDigest()
    ensures HexDigest(Longer()) == ("248d6a61" + "d20638b8") + ("e5c02693" + "0c3e6039") +
                             ("a33ce459" + "64ff2167") + ("f6ecedd4" + "19db06c1")
  {
    LongerHash();
    LongerDigits0();
    LongerDigits2();
    LongerDigits4();
    LongerDigits6();
    HexValues(0x248d6a61, 0xd20638b8, 0xe5c02693, 0x0c3e6039, 0xa33ce459, 0x64ff2167, 0xf6ecedd4, 0x19db06c1,
              "248d6a61", "d20638b8", "e5c02693", "0c3e6039", "a33ce459", "64ff2167", "f6ecedd4", "19db06c1");
  }
}
