/** The first and third messages of the test suite in section A.5 of RFC 1321, one operation at a time. */
module Md5Vectors {
  import opened Octets
  import opened Md5
  import opened Md5Bits

  lemma Table0()
    ensures Index(0) == 0 && T32(0) == 0xd76aa478 && Index(1) == 1 && T32(1) == 0xe8c7b756
    ensures Index(2) == 2 && T32(2) == 0x242070db && Index(3) == 3 && T32(3) == 0xc1bdceee
    ensures Index(4) == 4 && T32(4) == 0xf57c0faf && Index(5) == 5 && T32(5) == 0x4787c62a
    ensures Index(6) == 6 && T32(6) == 0xa8304613 && Index(7) == 7 && T32(7) == 0xfd469501
  {
  }

  lemma Table8()
    ensures Index(8) == 8 && T32(8) == 0x698098d8 && Index(9) == 9 && T32(9) == 0x8b44f7af
    ensures Index(10) == 10 && T32(10) == 0xffff5bb1 && Index(11) == 11 && T32(11) == 0x895cd7be
    ensures Index(12) == 12 && T32(12) == 0x6b901122 && Index(13) == 13 && T32(13) == 0xfd987193
    ensures Index(14) == 14 && T32(14) == 0xa679438e && Index(15) == 15 && T32(15) == 0x49b40821
  {
  }

  lemma Table16()
    ensures Index(16) == 1 && T32(16) == 0xf61e2562 && Index(17) == 6 && T32(17) == 0xc040b340
    ensures Index(18) == 11 && T32(18) == 0x265e5a51 && Index(19) == 0 && T32(19) == 0xe9b6c7aa
    ensures Index(20) == 5 && T32(20) == 0xd62f105d && Index(21) == 10 && T32(21) == 0x02441453
    ensures Index(22) == 15 && T32(22) == 0xd8a1e681 && Index(23) == 4 && T32(23) == 0xe7d3fbc8
  {
  }

  lemma Table24()
    ensures Index(24) == 9 && T32(24) == 0x21e1cde6 && Index(25) == 14 && T32(25) == 0xc33707d6
    ensures Index(26) == 3 && T32(26) == 0xf4d50d87 && Index(27) == 8 && T32(27) == 0x455a14ed
    ensures Index(28) == 13 && T32(28) == 0xa9e3e905 && Index(29) == 2 && T32(29) == 0xfcefa3f8
    ensures Index(30) == 7 && T32(30) == 0x676f02d9 && Index(31) == 12 && T32(31) == 0x8d2a4c8a
  {
  }

  lemma Table32()
    ensures Index(32) == 5 && T32(32) == 0xfffa3942 && Index(33) == 8 && T32(33) == 0x8771f681
    ensures Index(34) == 11 && T32(34) == 0x6d9d6122 && Index(35) == 14 && T32(35) == 0xfde5380c
    ensures Index(36) == 1 && T32(36) == 0xa4beea44 && Index(37) == 4 && T32(37) == 0x4bdecfa9
    ensures Index(38) == 7 && T32(38) == 0xf6bb4b60 && Index(39) == 10 && T32(39) == 0xbebfbc70
  {
  }

  lemma Table40()
    ensures Index(40) == 13 && T32(40) == 0x289b7ec6 && Index(41) == 0 && T32(41) == 0xeaa127fa
    ensures Index(42) == 3 && T32(42) == 0xd4ef3085 && Index(43) == 6 && T32(43) == 0x04881d05
    ensures Index(44) == 9 && T32(44) == 0xd9d4d039 && Index(45) == 12 && T32(45) == 0xe6db99e5
    ensures Index(46) == 15 && T32(46) == 0x1fa27cf8 && Index(47) == 2 && T32(47) == 0xc4ac5665
  {
  }

  lemma Table48()
    ensures Index(48) == 0 && T32(48) == 0xf4292244 && Index(49) == 7 && T32(49) == 0x432aff97
    ensures Index(50) == 14 && T32(50) == 0xab9423a7 && Index(51) == 5 && T32(51) == 0xfc93a039
    ensures Index(52) == 12 && T32(52) == 0x655b59c3 && Index(53) == 3 && T32(53) == 0x8f0ccc92
    ensures Index(54) == 10 && T32(54) == 0xffeff47d && Index(55) == 1 && T32(55) == 0x85845dd1
  {
  }

  lemma Table56()
    ensures Index(56) == 8 && T32(56) == 0x6fa87e4f && Index(57) == 15 && T32(57) == 0xfe2ce6e0
    ensures Index(58) == 6 && T32(58) == 0xa3014314 && Index(59) == 13 && T32(59) == 0x4e0811a1
    ensures Index(60) == 4 && T32(60) == 0xf7537e82 && Index(61) == 11 && T32(61) == 0xbd3af235
    ensures Index(62) == 2 && T32(62) == 0x2ad7d2bb && Index(63) == 9 && T32(63) == 0xeb86d391
  {
  }

  lemma FirstRegisters(block: seq<bv32>)
    requires |block| == 16
    ensures After(block, 0, 0x67452301, 0xefcdab89, 0x98badcfe, 0x10325476)
  {
  }

  /** Operations that make what they are said to make follow on each other. */
  lemma Steps(block: seq<bv32>)
    requires |block| == 16
    ensures forall i: nat, a, b, c, d, m, t, f, s, v
      {:trigger After(block, i, a, b, c, d), Makes(i, a, b, c, d, m, t, f, s, v)} ::
      After(block, i, a, b, c, d) && Makes(i, a, b, c, d, m, t, f, s, v) && block[Index(i)] == m && T32(i) == t ==>
      After(block, i + 1, d, v, b, c)
  {
    hide After, Makes, Index, T32;
    forall i: nat, a, b, c, d, m, t, f, s, v |
      After(block, i, a, b, c, d) && Makes(i, a, b, c, d, m, t, f, s, v) && block[Index(i)] == m && T32(i) == t
      ensures After(block, i + 1, d, v, b, c)
    {
      Next(block, i, a, b, c, d, m, t, f, s, v);
    }
  }

  /** The final additions. */
  lemma LastRegisters(block: seq<bv32>, a: bv32, b: bv32, c: bv32, d: bv32)
    requires |block| == 16 && After(block, 64, a, b, c, d)
    ensures Transform(START, Values(block)) ==
            Registers(Add(START.a, Value(a)), Add(START.b, Value(b)), Add(START.c, Value(c)), Add(START.d, Value(d)))
  {
    hide Operations, Add, Value, Values;
  }

  /** A message that fits one block with its padding. */
  lemma OneBlock(m: seq<byte>)
    requires |m| < 56
    ensures |Pad(m)| == 64 && Hash(Pad(m)) == Transform(START, Words(Pad(m)))
  {
    hide Words, Transform, LengthBytes, Zeros;
    var p := Pad(m);
    assert p[..|p| - 64] == [] && p[|p| - 64..] == p;
    assert Hash([]) == START;
  }

  /** Its bytes. */
  lemma PaddedBytes(m: seq<byte>)
    requires |m| < 56
    ensures
      var p := Pad(m);
      && |p| == 64 && (forall k :: 0 <= k < |m| ==> p[k] == m[k]) && p[|m|] == 0x80
      && (forall k :: |m| < k < 56 ==> p[k] == 0)
      && forall k :: 56 <= k < 64 ==> p[k] == LengthBytes(|m|)[k - 56]
  {
    hide LengthBytes;
  }

  lemma ShortLength(n: nat)
    requires n < 56
    ensures LengthBytes(n) == [8 * n % 256, 8 * n / 256, 0, 0, 0, 0, 0, 0]
  {
    hide Bytes, LengthBytes, Word;
    CountedWords(8 * n, 0, n);
    ShortWord(8 * n);
    BytesOf(8 * n, 8 * n % 256, 8 * n / 256, 0, 0);
    ZeroWord();
    BytesOf(0, 0, 0, 0, 0);
  }

  lemma ShortWord(w: word)
    requires w < 0x1_0000
    ensures w == Word(w % 256, w / 256, 0, 0)
  {
  }

  lemma ZeroWord()
    ensures Word(0, 0, 0, 0) == 0 == Value(0)
  {
  }

  // ----- the empty message -----

  predicate EmptyBlock(block: seq<bv32>) {
    && |block| == 16
    && block[0] == 0x80 && block[1] == 0 && block[2] == 0 && block[3] == 0
    && block[4] == 0 && block[5] == 0 && block[6] == 0 && block[7] == 0
    && block[8] == 0 && block[9] == 0 && block[10] == 0 && block[11] == 0
    && block[12] == 0 && block[13] == 0 && block[14] == 0 && block[15] == 0
  }

  lemma Empty0()
    ensures Makes(0, 0x67452301, 0xefcdab89, 0x98badcfe, 0x10325476,
                 0x80, 0xd76aa478, 0x98badcfe, 0xd76aa4f7, 0xa5202774)
    ensures Makes(1, 0x10325476, 0xa5202774, 0xefcdab89, 0x98badcfe,
                 0, 0xe8c7b756, 0xbd9afb8a, 0xb6950756, 0xf59592dd)
    ensures Makes(2, 0x98badcfe, 0xf59592dd, 0xa5202774, 0xefcdab89,
                 0, 0x242070db, 0xaf482b54, 0x6c23792d, 0xe7f06b23)
    ensures Makes(3, 0xefcdab89, 0xe7f06b23, 0xf59592dd, 0xa5202774,
                 0, 0xc1bdceee, 0xe5900655, 0x971b80cc, 0x1b163203)
    ensures Makes(4, 0xa5202774, 0x1b163203, 0xe7f06b23, 0xf59592dd,
                 0, 0xf57c0faf, 0xe791a2df, 0x822dda02, 0x32033344)
    ensures Makes(5, 0xf59592dd, 0x32033344, 0x1b163203, 0xe7f06b23,
                 0, 0x4787c62a, 0xd7f27a23, 0x150fd32a, 0x2f35d494)
    ensures Makes(6, 0xe7f06b23, 0x2f35d494, 0x32033344, 0x1b163203,
                 0, 0xa8304613, 0x32033207, 0xc223e33d, 0xf5b158db)
    ensures Makes(7, 0x1b163203, 0xf5b158db, 0x2f35d494, 0x32033344,
                 0, 0xfd469501, 0x27337394, 0x3f903a98, 0x9bc13ce9)
  {
  }

  lemma Empty8()
    ensures Makes(8, 0x32033344, 0x9bc13ce9, 0xf5b158db, 0x2f35d494,
                 0, 0x698098d8, 0xb5b5d8dd, 0x5139a4f9, 0x3893b991)
    ensures Makes(9, 0x2f35d494, 0x3893b991, 0x9bc13ce9, 0xf5b158db,
                 0, 0x8b44f7af, 0xdda178cb, 0x981c450e, 0xfce4a312)
    ensures Makes(10, 0xf5b158db, 0xfce4a312, 0x3893b991, 0x9bc13ce9,
                 0, 0xffff5bb1, 0x3b81bdf9, 0x31327285, 0xe1ef0576)
    ensures Makes(11, 0x9bc13ce9, 0xe1ef0576, 0xfce4a312, 0x3893b991,
                 0, 0x895cd7be, 0xf8f4b993, 0x1e12ce3a, 0x70768a29)
    ensures Makes(12, 0x3893b991, 0x70768a29, 0xe1ef0576, 0xfce4a312,
                 0, 0x6b901122, 0xece62132, 0x9109ebe5, 0xf56c7cf1)
    ensures Makes(13, 0xfce4a312, 0xf56c7cf1, 0x70768a29, 0xe1ef0576,
                 0, 0xfd987193, 0x70e70927, 0x6b641dcc, 0x374943a7)
    ensures Makes(14, 0xe1ef0576, 0x374943a7, 0xf56c7cf1, 0x70768a29,
                 0, 0xa679438e, 0x757ec8a9, 0xfde711ad, 0x5aa53f75)
    ensures Makes(15, 0x70768a29, 0x5aa53f75, 0x374943a7, 0xf56c7cf1,
                 0, 0x49b40821, 0xb74943a5, 0x7173d5ef, 0xd6819c6a)
  {
  }

  lemma Empty16()
    ensures Makes(16, 0xf56c7cf1, 0xd6819c6a, 0x5aa53f75, 0x374943a7,
                 0, 0xf61e2562, 0x5ea53c72, 0x4a2fdec5, 0x1c7d7513)
    ensures Makes(17, 0x374943a7, 0x1c7d7513, 0xd6819c6a, 0x5aa53f75,
                 0, 0xc040b340, 0x9c25b51b, 0x93afac02, 0x7bd57a3a)
    ensures Makes(18, 0x5aa53f75, 0x7bd57a3a, 0x1c7d7513, 0xd6819c6a,
                 0, 0x265e5a51, 0x5afd793b, 0xdc011301, 0xc095f13a)
    ensures Makes(19, 0xd6819c6a, 0xc095f13a, 0x7bd57a3a, 0x1c7d7513,
                 0x80, 0xe9b6c7aa, 0x63957b3a, 0x23cddfce, 0xbd782e17)
    ensures Makes(20, 0x1c7d7513, 0xbd782e17, 0xc095f13a, 0x7bd57a3a,
                 0, 0xd62f105d, 0xb950ab12, 0xabfd3082, 0x3d1e3e6c)
    ensures Makes(21, 0x7bd57a3a, 0x3d1e3e6c, 0xbd782e17, 0xc095f13a,
                 0, 0x02441453, 0x3d7c3e2d, 0xbb95ccba, 0x68b7b3e3)
    ensures Makes(22, 0xc095f13a, 0x68b7b3e3, 0x3d1e3e6c, 0xbd782e17,
                 0, 0xd8a1e681, 0x2836326b, 0xc16e0a26, 0xeb41643e)
    ensures Makes(23, 0xbd782e17, 0xeb41643e, 0x68b7b3e3, 0x3d1e3e6c,
                 0, 0xe7d3fbc8, 0x69a1a5af, 0x0eedcf8e, 0xe422531a)
  {
  }

  lemma Empty24()
    ensures Makes(24, 0x3d1e3e6c, 0xe422531a, 0xeb41643e, 0x68b7b3e3,
                 0, 0x21e1cde6, 0xe362571e, 0x42626370, 0x306ec122)
    ensures Makes(25, 0x68b7b3e3, 0x306ec122, 0xe422531a, 0xeb41643e,
                 0, 0xc33707d6, 0x24625322, 0x50510edb, 0xd28c77c2)
    ensures Makes(26, 0xeb41643e, 0xd28c77c2, 0x306ec122, 0xe422531a,
                 0, 0xf4d50d87, 0xd04cd322, 0xb06344e7, 0xa3c663da)
    ensures Makes(27, 0xe422531a, 0xa3c663da, 0xd28c77c2, 0x306ec122,
                 0, 0x455a14ed, 0xe2c677c2, 0x0c42dfc9, 0xa0572807)
    ensures Makes(28, 0x306ec122, 0xa0572807, 0xa3c663da, 0xd28c77c2,
                 0, 0xa9e3e905, 0xa146201a, 0x7b98ca41, 0x13707036)
    ensures Makes(29, 0xd28c77c2, 0x13707036, 0xa0572807, 0xa3c663da,
                 0, 0xfcefa3f8, 0x03516817, 0xd2cd83d1, 0xae7813db)
    ensures Makes(30, 0xa3c663da, 0xae7813db, 0x13707036, 0xa0572807,
                 0, 0x676f02d9, 0xb3705033, 0xbea5b6e6, 0x1c31c384)
    ensures Makes(31, 0xa0572807, 0x1c31c384, 0xae7813db, 0x13707036,
                 0, 0x8d2a4c8a, 0xbc3843cd, 0xe9b9b85e, 0xa2205f1f)
  {
  }

  lemma Empty32()
    ensures Makes(32, 0x13707036, 0xa2205f1f, 0x1c31c384, 0xae7813db,
                 0, 0xfffa3942, 0x10698f40, 0x23d438b8, 0xdf63eaa1)
    ensures Makes(33, 0xae7813db, 0xdf63eaa1, 0xa2205f1f, 0x1c31c384,
                 0, 0x8771f681, 0x6172763a, 0x975c8096, 0xc3689f5b)
    ensures Makes(34, 0x1c31c384, 0xc3689f5b, 0xdf63eaa1, 0xa2205f1f,
                 0, 0x6d9d6122, 0xbe2b2ae5, 0x47fa4f8b, 0x12f3e755)
    ensures Makes(35, 0xa2205f1f, 0x12f3e755, 0xc3689f5b, 0xdf63eaa1,
                 0, 0xfde5380c, 0x0ef892af, 0xaefe29da, 0x004b6669)
    ensures Makes(36, 0xdf63eaa1, 0x004b6669, 0x12f3e755, 0xc3689f5b,
                 0, 0xa4beea44, 0xd1d01e67, 0x55f2f34c, 0x5f7a9b2e)
    ensures Makes(37, 0xc3689f5b, 0x5f7a9b2e, 0x004b6669, 0x12f3e755,
                 0, 0x4bdecfa9, 0x4dc21a12, 0x5d098916, 0xabc34e16)
    ensures Makes(38, 0x12f3e755, 0xabc34e16, 0x5f7a9b2e, 0x004b6669,
                 0, 0xf6bb4b60, 0xf4f2b351, 0xfea1e606, 0x91ca4cb7)
    ensures Makes(39, 0x004b6669, 0x91ca4cb7, 0xabc34e16, 0x5f7a9b2e,
                 0, 0xbebfbc70, 0x6573998f, 0x247ebc68, 0xc5dc8c15)
  {
  }

  lemma Empty40()
    ensures Makes(40, 0x5f7a9b2e, 0xc5dc8c15, 0x91ca4cb7, 0xabc34e16,
                 0, 0x289b7ec6, 0xffd58eb4, 0x87eba8a8, 0x4497169d)
    ensures Makes(41, 0xabc34e16, 0x4497169d, 0xc5dc8c15, 0x91ca4cb7,
                 0x80, 0xeaa127fa, 0x1081d63f, 0xa6e64ccf, 0x76fd93d4)
    ensures Makes(42, 0x91ca4cb7, 0x76fd93d4, 0x4497169d, 0xc5dc8c15,
                 0, 0xd4ef3085, 0xf7b6095c, 0x5e6f8698, 0xfd95f243)
    ensures Makes(43, 0xc5dc8c15, 0xfd95f243, 0x76fd93d4, 0x4497169d,
                 0, 0x04881d05, 0xcfff770a, 0x9a642024, 0x0fe32453)
    ensures Makes(44, 0x4497169d, 0x0fe32453, 0xfd95f243, 0x76fd93d4,
                 0, 0xd9d4d039, 0x848b45c4, 0xa2f72c9a, 0x3f55edfd)
    ensures Makes(45, 0x76fd93d4, 0x3f55edfd, 0x0fe32453, 0xfd95f243,
                 0, 0xe6db99e5, 0xcd233bed, 0x2afc69a6, 0x22a31f54)
    ensures Makes(46, 0xfd95f243, 0x22a31f54, 0x3f55edfd, 0x0fe32453,
                 0, 0x1fa27cf8, 0x1215d6fa, 0x2f4e4635, 0x68d84ea2)
    ensures Makes(47, 0x0fe32453, 0x68d84ea2, 0x22a31f54, 0x3f55edfd,
                 0, 0xc4ac5665, 0x752ebc0b, 0x49be36c3, 0xca7d2dbd)
  {
  }

  lemma Empty48()
    ensures Makes(48, 0x3f55edfd, 0xca7d2dbd, 0x68d84ea2, 0x22a31f54,
                 0x80, 0xf4292244, 0xb7a5a31d, 0xeb24b3de, 0x93aa2577)
    ensures Makes(49, 0x22a31f54, 0x93aa2577, 0xca7d2dbd, 0x68d84ea2,
                 0, 0x432aff97, 0x5dd298c2, 0xc3a0b7ad, 0x1688dc85)
    ensures Makes(50, 0x68d84ea2, 0x1688dc85, 0x93aa2577, 0xca7d2dbd,
                 0, 0xab9423a7, 0xa420fbb0, 0xb88d6df9, 0xcd85b8cb)
    ensures Makes(51, 0xca7d2dbd, 0xcd85b8cb, 0x1688dc85, 0x93aa2577,
                 0, 0xfc93a039, 0xfb5d264e, 0xc26df444, 0x561e0689)
    ensures Makes(52, 0x93aa2577, 0x561e0689, 0xcd85b8cb, 0x1688dc85,
                 0, 0x655b59c3, 0x32fa9f30, 0x2c001e6a, 0x5625a114)
    ensures Makes(53, 0x1688dc85, 0x5625a114, 0x561e0689, 0xcd85b8cb,
                 0, 0x8f0ccc92, 0x2061e1bd, 0xc5f78ad4, 0x3450f42b)
    ensures Makes(54, 0xcd85b8cb, 0x3450f42b, 0x5625a114, 0x561e0689,
                 0, 0xffeff47d, 0xebd45c6b, 0xb94a09b3, 0x392ad0d0)
    ensures Makes(55, 0x561e0689, 0x392ad0d0, 0x3450f42b, 0x5625a114,
                 0, 0x85845dd1, 0x8daa2ad0, 0x694c8f2a, 0x1e77fa61)
  {
  }

  lemma Empty56()
    ensures Makes(56, 0x5625a114, 0x1e77fa61, 0x392ad0d0, 0x3450f42b,
                 0, 0x6fa87e4f, 0xe6d52b25, 0xaca34a88, 0x474a9c8c)
    ensures Makes(57, 0x3450f42b, 0x474a9c8c, 0x1e77fa61, 0x392ad0d0,
                 0, 0xfe2ce6e0, 0xd9a845ce, 0x0c2620d9, 0xdfce00bc)
    ensures Makes(58, 0x392ad0d0, 0xdfce00bc, 0x474a9c8c, 0x1e77fa61,
                 0, 0xa3014314, 0xb8849932, 0x94b0ad16, 0x36594b14)
    ensures Makes(59, 0x1e77fa61, 0x36594b14, 0xdfce00bc, 0x474a9c8c,
                 0, 0x4e0811a1, 0x61336bcb, 0xcdb377cd, 0x30130182)
    ensures Makes(60, 0x474a9c8c, 0x30130182, 0x36594b14, 0xdfce00bc,
                 0, 0xf7537e82, 0x066ab4d7, 0x4508cfe5, 0x7246fad3)
    ensures Makes(61, 0xdfce00bc, 0x7246fad3, 0x30130182, 0x36594b14,
                 0, 0xbd3af235, 0xcbf5ff79, 0x68fef26a, 0x6e10a476)
    ensures Makes(62, 0x36594b14, 0x6e10a476, 0x7246fad3, 0x30130182,
                 0, 0x2ad7d2bb, 0x9dba04ac, 0xfeeb227b, 0xff4ea3eb)
    ensures Makes(63, 0x30130182, 0xff4ea3eb, 0x6e10a476, 0x7246fad3,
                 0, 0xeb86d391, 0x91ef0399, 0xad88d8ac, 0x14e45506)
  {
  }

  lemma EmptyRound1(block: seq<bv32>)
    requires EmptyBlock(block)
    requires After(block, 0, 0x67452301, 0xefcdab89, 0x98badcfe, 0x10325476)
    ensures After(block, 16, 0xf56c7cf1, 0xd6819c6a, 0x5aa53f75, 0x374943a7)
  {
    hide After, Makes, Index, T32;
    Steps(block);
    Table0();
    Table8();
    Empty0();
    Empty8();
  }

  lemma EmptyRound2(block: seq<bv32>)
    requires EmptyBlock(block)
    requires After(block, 16, 0xf56c7cf1, 0xd6819c6a, 0x5aa53f75, 0x374943a7)
    ensures After(block, 32, 0x13707036, 0xa2205f1f, 0x1c31c384, 0xae7813db)
  {
    hide After, Makes, Index, T32;
    Steps(block);
    Table16();
    Table24();
    Empty16();
    Empty24();
  }

  lemma EmptyRound3(block: seq<bv32>)
    requires EmptyBlock(block)
    requires After(block, 32, 0x13707036, 0xa2205f1f, 0x1c31c384, 0xae7813db)
    ensures After(block, 48, 0x3f55edfd, 0xca7d2dbd, 0x68d84ea2, 0x22a31f54)
  {
    hide After, Makes, Index, T32;
    Steps(block);
    Table32();
    Table40();
    Empty32();
    Empty40();
  }

  lemma EmptyRound4(block: seq<bv32>)
    requires EmptyBlock(block)
    requires After(block, 48, 0x3f55edfd, 0xca7d2dbd, 0x68d84ea2, 0x22a31f54)
    ensures After(block, 64, 0x7246fad3, 0x14e45506, 0xff4ea3eb, 0x6e10a476)
  {
    hide After, Makes, Index, T32;
    Steps(block);
    Table48();
    Table56();
    Empty48();
    Empty56();
  }

  lemma EmptyOperations(block: seq<bv32>)
    requires EmptyBlock(block)
    ensures After(block, 64, 0x7246fad3, 0x14e45506, 0xff4ea3eb, 0x6e10a476)
  {
    hide After;
    FirstRegisters(block);
    EmptyRound1(block);
    EmptyRound2(block);
    EmptyRound3(block);
    EmptyRound4(block);
  }

  lemma EmptyTransform(block: seq<bv32>)
    requires EmptyBlock(block)
    ensures Transform(START, Values(block)) == Registers(0xd98c1dd4, 0x04b2008f, 0x980980e9, 0x7e42f8ec)
  {
    hide After, Transform;
    EmptyOperations(block);
    LastRegisters(block, 0x7246fad3, 0x14e45506, 0xff4ea3eb, 0x6e10a476);
  }

  lemma EmptyLiterals()
    ensures Word(0x80, 0, 0, 0) == 0x00000080 == Value(0x00000080)
  {
  }

  lemma EmptyWords(block: seq<bv32>)
    requires EmptyBlock(block)
    ensures Words(Pad([])) == Values(block)
  {
    hide Pad, LengthBytes, Word, Value;
    PaddedBytes([]);
    ShortLength(0);
    ZeroWord();
    EmptyLiterals();
    var w, v := Words(Pad([])), Values(block);
    forall k | 0 <= k < 16
      ensures w[k] == v[k]
    {
    }
  }

  lemma EmptyBytes()
    ensures Bytes(0xd98c1dd4) == [0xd4, 0x1d, 0x8c, 0xd9]
    ensures Bytes(0x04b2008f) == [0x8f, 0x00, 0xb2, 0x04]
    ensures Bytes(0x980980e9) == [0xe9, 0x80, 0x09, 0x98]
    ensures Bytes(0x7e42f8ec) == [0xec, 0xf8, 0x42, 0x7e]
  {
    hide Bytes;
    BytesOf(0xd98c1dd4, 0xd4, 0x1d, 0x8c, 0xd9);
    BytesOf(0x04b2008f, 0x8f, 0x00, 0xb2, 0x04);
    BytesOf(0x980980e9, 0xe9, 0x80, 0x09, 0x98);
    BytesOf(0x7e42f8ec, 0xec, 0xf8, 0x42, 0x7e);
  }

  /** MD5 ("") = d41d8cd98f00b204e9800998ecf8427e */
  lemma EmptyDigest()
    ensures Digest([]) ==
            [0xd4, 0x1d, 0x8c, 0xd9, 0x8f, 0x00, 0xb2, 0x04, 0xe9, 0x80, 0x09, 0x98, 0xec, 0xf8, 0x42, 0x7e]
  {
    hide Transform, Pad, Words, Hash, Bytes, Values;
    var block: seq<bv32> := [0x80, 0, 0, 0, 0, 0, 0, 0, 0, 0, 0, 0, 0, 0, 0, 0];
    OneBlock([]);
    EmptyWords(block);
    EmptyTransform(block);
    EmptyBytes();
  }

  // ----- the message abc -----

  predicate AbcBlock(block: seq<bv32>) {
    && |block| == 16
    && block[0] == 0x80636261 && block[1] == 0 && block[2] == 0 && block[3] == 0
    && block[4] == 0 && block[5] == 0 && block[6] == 0 && block[7] == 0
    && block[8] == 0 && block[9] == 0 && block[10] == 0 && block[11] == 0
    && block[12] == 0 && block[13] == 0 && block[14] == 0x18 && block[15] == 0
  }

  lemma Abc0()
    ensures Makes(0, 0x67452301, 0xefcdab89, 0x98badcfe, 0x10325476,
                 0x80636261, 0xd76aa478, 0x98badcfe, 0x57ce06d8, 0xd6d117b4)
    ensures Makes(1, 0x10325476, 0xd6d117b4, 0xefcdab89, 0x98badcfe,
                 0, 0xe8c7b756, 0xceebcbca, 0xc7e5d796, 0x344a8432)
    ensures Makes(2, 0x98badcfe, 0x344a8432, 0xd6d117b4, 0xefcdab89,
                 0, 0x242070db, 0xdfc52fb9, 0x9ca07d92, 0x2f6fbd72)
    ensures Makes(3, 0xefcdab89, 0x2f6fbd72, 0x344a8432, 0xd6d117b4,
                 0, 0xc1bdceee, 0xf4da86b6, 0xa666012d, 0x7ad956f2)
    ensures Makes(4, 0xd6d117b4, 0x7ad956f2, 0x2f6fbd72, 0x344a8432,
                 0, 0xf57c0faf, 0x2e4b9472, 0xfa98bbd5, 0xc73741ef)
    ensures Makes(5, 0x344a8432, 0xc73741ef, 0x7ad956f2, 0x2f6fbd72,
                 0, 0x4787c62a, 0x6a59fcf2, 0xe62c474e, 0x8bac3051)
    ensures Makes(6, 0x2f6fbd72, 0x8bac3051, 0xc73741ef, 0x7ad956f2,
                 0, 0xa8304613, 0xf37546e3, 0xcb154a68, 0x207dc67b)
    ensures Makes(7, 0x7ad956f2, 0x207dc67b, 0x8bac3051, 0xc73741ef,
                 0, 0xfd469501, 0xc72e01d5, 0x3f4dedc8, 0x928d99f6)
  {
  }

  lemma Abc8()
    ensures Makes(8, 0xc73741ef, 0x928d99f6, 0x207dc67b, 0x8bac3051,
                 0, 0x698098d8, 0x092da073, 0x39e57b3a, 0x854b3712)
    ensures Makes(9, 0x8bac3051, 0x854b3712, 0x928d99f6, 0x207dc67b,
                 0, 0x8b44f7af, 0xa03dd17b, 0xb72ef97b, 0x74e2f284)
    ensures Makes(10, 0x207dc67b, 0x74e2f284, 0x854b3712, 0x928d99f6,
                 0, 0xffff5bb1, 0x864f3b72, 0xa6cc5d9e, 0x3020401c)
    ensures Makes(11, 0x928d99f6, 0x3020401c, 0x74e2f284, 0x854b3712,
                 0, 0x895cd7be, 0xb56b7706, 0xd155e8ba, 0x5ed49596)
    ensures Makes(12, 0x854b3712, 0x5ed49596, 0x3020401c, 0x74e2f284,
                 0, 0x6b901122, 0x30226214, 0x20fdaa48, 0xdda9b9a6)
    ensures Makes(13, 0x74e2f284, 0xdda9b9a6, 0x5ed49596, 0x3020401c,
                 0, 0xfd987193, 0x7c80d19e, 0xeefc35b5, 0xa1051895)
    ensures Makes(14, 0x3020401c, 0xa1051895, 0xdda9b9a6, 0x5ed49596,
                 0x18, 0xa679438e, 0xdfd19d86, 0xb66b2148, 0xe396856b)
    ensures Makes(15, 0x5ed49596, 0xe396856b, 0xa1051895, 0xdda9b9a6,
                 0, 0x49b40821, 0xbd2d3885, 0x65b5d63c, 0x72aff2e0)
  {
  }

  lemma Abc16()
    ensures Makes(16, 0xdda9b9a6, 0x72aff2e0, 0xe396856b, 0xa1051895,
                 0, 0xf61e2562, 0x629795ea, 0x365f74f2, 0x3e9e9126)
    ensures Makes(17, 0xa1051895, 0x3e9e9126, 0x72aff2e0, 0xe396856b,
                 0, 0xc040b340, 0x32bff3a2, 0x9405bf77, 0x4a1d804e)
    ensures Makes(18, 0xe396856b, 0x4a1d804e, 0x3e9e9126, 0x72aff2e0,
                 0, 0x265e5a51, 0x4e1d8146, 0x58126102, 0xe25e1652)
    ensures Makes(19, 0x72aff2e0, 0xe25e1652, 0x4a1d804e, 0x3e9e9126,
                 0x80636261, 0xe9b6c7aa, 0x621f104a, 0x3ee92d35, 0xb5b204e4)
    ensures Makes(20, 0x3e9e9126, 0xb5b204e4, 0xe25e1652, 0x4a1d804e,
                 0, 0xd62f105d, 0xa0521654, 0xb51fb7d7, 0x59a8ffda)
    ensures Makes(21, 0x4a1d804e, 0x59a8ffda, 0xb5b204e4, 0xe25e1652,
                 0, 0x02441453, 0x55a816f6, 0xa209ab97, 0x6d002f1e)
    ensures Makes(22, 0xe25e1652, 0x6d002f1e, 0x59a8ffda, 0xb5b204e4,
                 0, 0xd8a1e681, 0x6d08ff1e, 0x2808fbf1, 0xabfc7920)
    ensures Makes(23, 0xb5b204e4, 0xabfc7920, 0x6d002f1e, 0x59a8ffda,
                 0, 0xe7d3fbc8, 0x2da87904, 0xcb2e79b0, 0x47092c07)
  {
  }

  lemma Abc24()
    ensures Makes(24, 0x59a8ffda, 0x47092c07, 0xabfc7920, 0x6d002f1e,
                 0, 0x21e1cde6, 0xc7fc7c26, 0x438749e6, 0xb7f268cf)
    ensures Makes(25, 0x6d002f1e, 0xb7f268cf, 0x47092c07, 0xabfc7920,
                 0x18, 0xc33707d6, 0xe7f16c07, 0x1828a313, 0x09388eff)
    ensures Makes(26, 0xabfc7920, 0x09388eff, 0xb7f268cf, 0x47092c07,
                 0, 0xf4d50d87, 0xb1fa4ccf, 0x52cbd376, 0xfe1623b1)
    ensures Makes(27, 0x47092c07, 0xfe1623b1, 0x09388eff, 0xb7f268cf,
                 0, 0x455a14ed, 0xbe1aa6b1, 0x4a7de7a5, 0x786acb8f)
    ensures Makes(28, 0xb7f268cf, 0x786acb8f, 0xfe1623b1, 0x09388eff,
                 0, 0xa9e3e905, 0xfe2eab8f, 0x6004fd63, 0x790a77fb)
    ensures Makes(29, 0x09388eff, 0x790a77fb, 0x786acb8f, 0xfe1623b1,
                 0, 0xfcefa3f8, 0x786aebbf, 0x7e931eb6, 0x9f47e4f8)
    ensures Makes(30, 0xfe1623b1, 0x9f47e4f8, 0x790a77fb, 0x786acb8f,
                 0, 0x676f02d9, 0x1942f4f8, 0x7ec81b82, 0xa62884aa)
    ensures Makes(31, 0x786acb8f, 0xa62884aa, 0x9f47e4f8, 0x790a77fb,
                 0, 0x8d2a4c8a, 0xa64d84aa, 0xabe29cc3, 0x726342d3)
  {
  }

  lemma Abc32()
    ensures Makes(32, 0x790a77fb, 0x726342d3, 0xa62884aa, 0x9f47e4f8,
                 0, 0xfffa3942, 0x4b0c2281, 0xc410d3be, 0xb3707ebf)
    ensures Makes(33, 0x9f47e4f8, 0xb3707ebf, 0x726342d3, 0xa62884aa,
                 0, 0x8771f681, 0x673bb8c6, 0x8df5943f, 0x60127b2e)
    ensures Makes(34, 0xa62884aa, 0x60127b2e, 0xb3707ebf, 0x726342d3,
                 0, 0x6d9d6122, 0xa1014742, 0xb4c72d0e, 0x8d212ff5)
    ensures Makes(35, 0x726342d3, 0x8d212ff5, 0x60127b2e, 0xb3707ebf,
                 0x18, 0xfde5380c, 0x5e432a64, 0xce8ba55b, 0x3b0875c7)
    ensures Makes(36, 0xb3707ebf, 0x3b0875c7, 0x8d212ff5, 0x60127b2e,
                 0, 0xa4beea44, 0xd63b211c, 0x2e6a8a1f, 0x21b117b9)
    ensures Makes(37, 0x60127b2e, 0x21b117b9, 0x3b0875c7, 0x8d212ff5,
                 0, 0x4bdecfa9, 0x97984d8b, 0x43899862, 0x6e7429d5)
    ensures Makes(38, 0x8d212ff5, 0x6e7429d5, 0x21b117b9, 0x3b0875c7,
                 0, 0xf6bb4b60, 0x74cd4bab, 0xf8a9c700, 0x3575227e)
    ensures Makes(39, 0x3b0875c7, 0x3575227e, 0x6e7429d5, 0x21b117b9,
                 0, 0xbebfbc70, 0x7ab01c12, 0x74784e49, 0x5a2f5ea5)
  {
  }

  lemma Abc40()
    ensures Makes(40, 0x21b117b9, 0x5a2f5ea5, 0x3575227e, 0x6e7429d5,
                 0, 0x289b7ec6, 0x012e550e, 0x4b7aeb8d, 0x11de1779)
    ensures Makes(41, 0x6e7429d5, 0x11de1779, 0x5a2f5ea5, 0x3575227e,
                 0x80636261, 0xeaa127fa, 0x7e846ba2, 0x57fd1fd2, 0xfadcaa38)
    ensures Makes(42, 0x3575227e, 0xfadcaa38, 0x11de1779, 0x5a2f5ea5,
                 0, 0xd4ef3085, 0xb12de3e4, 0xbb9236e7, 0x31c465ca)
    ensures Makes(43, 0x5a2f5ea5, 0x31c465ca, 0xfadcaa38, 0x11de1779,
                 0, 0x04881d05, 0xdac6d88b, 0x397e5435, 0x4c6124f4)
    ensures Makes(44, 0x11de1779, 0x4c6124f4, 0x31c465ca, 0xfadcaa38,
                 0, 0xd9d4d039, 0x8779eb06, 0x732cd2b8, 0x7f2e507b)
    ensures Makes(45, 0xfadcaa38, 0x7f2e507b, 0x4c6124f4, 0x31c465ca,
                 0, 0xe6db99e5, 0x028b1145, 0xe4435562, 0x99d9679d)
    ensures Makes(46, 0x31c465ca, 0x99d9679d, 0x7f2e507b, 0x4c6124f4,
                 0, 0x1fa27cf8, 0xaa961312, 0xfbfcf5d4, 0x8fae6399)
    ensures Makes(47, 0x4c6124f4, 0x8fae6399, 0x99d9679d, 0x7f2e507b,
                 0, 0xc4ac5665, 0x6959547f, 0x7a66cfd8, 0x7beb9700)
  {
  }

  lemma Abc48()
    ensures Makes(48, 0x7f2e507b, 0x7beb9700, 0x8fae6399, 0x99d9679d,
                 0x80636261, 0xf4292244, 0xf041fcfb, 0xe3fcd21b, 0x7b201df8)
    ensures Makes(49, 0x99d9679d, 0x7b201df8, 0x7beb9700, 0x8fae6399,
                 0, 0x432aff97, 0x009a0afe, 0xdd9e7232, 0xf4e8e96e)
    ensures Makes(50, 0x8fae6399, 0xf4e8e96e, 0x7b201df8, 0x7beb9700,
                 0x18, 0xab9423a7, 0x8fdcf407, 0xcb1f7b5f, 0xb298cefd)
    ensures Makes(51, 0x7beb9700, 0xb298cefd, 0xf4e8e96e, 0x7b201df8,
                 0, 0xfc93a039, 0x42370791, 0xbab63eca, 0x8bf025c4)
    ensures Makes(52, 0x7b201df8, 0x8bf025c4, 0xb298cefd, 0xf4e8e96e,
                 0, 0x655b59c3, 0x396ff928, 0x19eb70e3, 0x06cc5e8a)
    ensures Makes(53, 0xf4e8e96e, 0x06cc5e8a, 0x8bf025c4, 0xb298cefd,
                 0, 0x8f0ccc92, 0xc41f5a4e, 0x4815104e, 0x5b0d97aa)
    ensures Makes(54, 0xb298cefd, 0x5b0d97aa, 0x06cc5e8a, 0x8bf025c4,
                 0, 0xffeff47d, 0x79c38131, 0x2c4c44ab, 0x7d632dd0)
    ensures Makes(55, 0x8bf025c4, 0x7d632dd0, 0x5b0d97aa, 0x06cc5e8a,
                 0, 0x85845dd1, 0xa67e3a5f, 0xb7f2bdf4, 0x3bfa2c27)
  {
  }

  lemma Abc56()
    ensures Makes(56, 0x06cc5e8a, 0x3bfa2c27, 0x7d632dd0, 0x5b0d97aa,
                 0, 0x6fa87e4f, 0xc29941a7, 0x390e1e80, 0x7f81cc35)
    ensures Makes(57, 0x5b0d97aa, 0x7f81cc35, 0x3bfa2c27, 0x7d632dd0,
                 0, 0xfe2ce6e0, 0xc467f218, 0x1da270a2, 0x094454ab)
    ensures Makes(58, 0x7d632dd0, 0x094454ab, 0x7f81cc35, 0x3bfa2c27,
                 0, 0xa3014314, 0xb2c41bce, 0xd3288cb2, 0x4f9dbe3f)
    ensures Makes(59, 0x3bfa2c27, 0x4f9dbe3f, 0x094454ab, 0x7f81cc35,
                 0, 0x4e0811a1, 0xc6bbeb54, 0x50be291c, 0x7327d604)
    ensures Makes(60, 0x7f81cc35, 0x7327d604, 0x4f9dbe3f, 0x094454ab,
                 0, 0xf7537e82, 0xb822416b, 0x2ef78c22, 0x310ade8f)
    ensures Makes(61, 0x094454ab, 0x310ade8f, 0x7327d604, 0x4f9dbe3f,
                 0, 0xbd3af235, 0xc24d09cb, 0x88cc50ab, 0x624d8cb2)
    ensures Makes(62, 0x4f9dbe3f, 0x624d8cb2, 0x310ade8f, 0x7327d604,
                 0, 0x2ad7d2bb, 0xdfd77374, 0x5a4d046e, 0xe484b9d8)
    ensures Makes(63, 0x7327d604, 0xe484b9d8, 0x624d8cb2, 0x310ade8f,
                 0, 0xeb86d391, 0x8cb8354a, 0xeb66dedf, 0xc08226b3)
  {
  }

  lemma AbcRound1(block: seq<bv32>)
    requires AbcBlock(block)
    requires After(block, 0, 0x67452301, 0xefcdab89, 0x98badcfe, 0x10325476)
    ensures After(block, 16, 0xdda9b9a6, 0x72aff2e0, 0xe396856b, 0xa1051895)
  {
    hide After, Makes, Index, T32;
    Steps(block);
    Table0();
    Table8();
    Abc0();
    Abc8();
  }

  lemma AbcRound2(block: seq<bv32>)
    requires AbcBlock(block)
    requires After(block, 16, 0xdda9b9a6, 0x72aff2e0, 0xe396856b, 0xa1051895)
    ensures After(block, 32, 0x790a77fb, 0x726342d3, 0xa62884aa, 0x9f47e4f8)
  {
    hide After, Makes, Index, T32;
    Steps(block);
    Table16();
    Table24();
    Abc16();
    Abc24();
  }

  lemma AbcRound3(block: seq<bv32>)
    requires AbcBlock(block)
    requires After(block, 32, 0x790a77fb, 0x726342d3, 0xa62884aa, 0x9f47e4f8)
    ensures After(block, 48, 0x7f2e507b, 0x7beb9700, 0x8fae6399, 0x99d9679d)
  {
    hide After, Makes, Index, T32;
    Steps(block);
    Table32();
    Table40();
    Abc32();
    Abc40();
  }

  lemma AbcRound4(block: seq<bv32>)
    requires AbcBlock(block)
    requires After(block, 48, 0x7f2e507b, 0x7beb9700, 0x8fae6399, 0x99d9679d)
    ensures After(block, 64, 0x310ade8f, 0xc08226b3, 0xe484b9d8, 0x624d8cb2)
  {
    hide After, Makes, Index, T32;
    Steps(block);
    Table48();
    Table56();
    Abc48();
    Abc56();
  }

  lemma AbcOperations(block: seq<bv32>)
    requires AbcBlock(block)
    ensures After(block, 64, 0x310ade8f, 0xc08226b3, 0xe484b9d8, 0x624d8cb2)
  {
    hide After;
    FirstRegisters(block);
    AbcRound1(block);
    AbcRound2(block);
    AbcRound3(block);
    AbcRound4(block);
  }

  lemma AbcTransform(block: seq<bv32>)
    requires AbcBlock(block)
    ensures Transform(START, Values(block)) == Registers(0x98500190, 0xb04fd23c, 0x7d3f96d6, 0x727fe128)
  {
    hide After, Transform;
    AbcOperations(block);
    LastRegisters(block, 0x310ade8f, 0xc08226b3, 0xe484b9d8, 0x624d8cb2);
  }

  lemma AbcLiterals()
    ensures Word(0x61, 0x62, 0x63, 0x80) == 0x80636261 == Value(0x80636261) && Word(0x18, 0, 0, 0) == 0x00000018 == Value(0x00000018)
  {
  }

  lemma AbcWords(block: seq<bv32>)
    requires AbcBlock(block)
    ensures Words(Pad([0x61, 0x62, 0x63])) == Values(block)
  {
    hide Pad, LengthBytes, Word, Value;
    PaddedBytes([0x61, 0x62, 0x63]);
    ShortLength(3);
    ZeroWord();
    AbcLiterals();
    var w, v := Words(Pad([0x61, 0x62, 0x63])), Values(block);
    forall k | 0 <= k < 16
      ensures w[k] == v[k]
    {
    }
  }

  lemma AbcBytes()
    ensures Bytes(0x98500190) == [0x90, 0x01, 0x50, 0x98]
    ensures Bytes(0xb04fd23c) == [0x3c, 0xd2, 0x4f, 0xb0]
    ensures Bytes(0x7d3f96d6) == [0xd6, 0x96, 0x3f, 0x7d]
    ensures Bytes(0x727fe128) == [0x28, 0xe1, 0x7f, 0x72]
  {
    hide Bytes;
    BytesOf(0x98500190, 0x90, 0x01, 0x50, 0x98);
    BytesOf(0xb04fd23c, 0x3c, 0xd2, 0x4f, 0xb0);
    BytesOf(0x7d3f96d6, 0xd6, 0x96, 0x3f, 0x7d);
    BytesOf(0x727fe128, 0x28, 0xe1, 0x7f, 0x72);
  }

  /** MD5 ("abc") = 900150983cd24fb0d6963f7d28e17f72 */
  lemma AbcDigest()
    ensures Digest([0x61, 0x62, 0x63]) ==
            [0x90, 0x01, 0x50, 0x98, 0x3c, 0xd2, 0x4f, 0xb0, 0xd6, 0x96, 0x3f, 0x7d, 0x28, 0xe1, 0x7f, 0x72]
  {
    hide Transform, Pad, Words, Hash, Bytes, Values;
    var block: seq<bv32> := [0x80636261, 0, 0, 0, 0, 0, 0, 0, 0, 0, 0, 0, 0, 0, 0x18, 0];
    OneBlock([0x61, 0x62, 0x63]);
    AbcWords(block);
    AbcTransform(block);
    AbcBytes();
  }
}
