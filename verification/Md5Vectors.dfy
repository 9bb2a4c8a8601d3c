/** The values of Digest that section A.5 of RFC 1321 lists: of the empty message, of one short
    message, and of one that fills two blocks. Every register after every operation is a literal, so
    that the tables, shifts and initial registers of the reference are checked against the standard
    and not only against each other. */
module Md5Vectors {
  import opened Machine
  import opened Md5Spec
  import opened Md5Transform
  import Md5Context

  // ----- one operation on literals

  lemma Sum(x: Word, y: Word)
    ensures Add(x, y) == x + y
  {
  }

  lemma Rotations1(x: Word)
    ensures RotateLeft(x, 7) == (x << 7) | (x >> 25)
    ensures RotateLeft(x, 12) == (x << 12) | (x >> 20)
    ensures RotateLeft(x, 17) == (x << 17) | (x >> 15)
    ensures RotateLeft(x, 22) == (x << 22) | (x >> 10)
  {
  }

  lemma Auxiliary1(i: nat, b: Word, c: Word, d: Word)
    requires 0 <= i < 16
    ensures Auxiliary(i, b, c, d) == (b & c) | (!b & d)
  {
  }

  lemma Rotations2(x: Word)
    ensures RotateLeft(x, 5) == (x << 5) | (x >> 27)
    ensures RotateLeft(x, 9) == (x << 9) | (x >> 23)
    ensures RotateLeft(x, 14) == (x << 14) | (x >> 18)
    ensures RotateLeft(x, 20) == (x << 20) | (x >> 12)
  {
  }

  lemma Auxiliary2(i: nat, b: Word, c: Word, d: Word)
    requires 16 <= i < 32
    ensures Auxiliary(i, b, c, d) == (b & d) | (c & !d)
  {
  }

  lemma Rotations3(x: Word)
    ensures RotateLeft(x, 4) == (x << 4) | (x >> 28)
    ensures RotateLeft(x, 11) == (x << 11) | (x >> 21)
    ensures RotateLeft(x, 16) == (x << 16) | (x >> 16)
    ensures RotateLeft(x, 23) == (x << 23) | (x >> 9)
  {
  }

  lemma Auxiliary3(i: nat, b: Word, c: Word, d: Word)
    requires 32 <= i < 48
    ensures Auxiliary(i, b, c, d) == b ^ c ^ d
  {
  }

  lemma Rotations4(x: Word)
    ensures RotateLeft(x, 6) == (x << 6) | (x >> 26)
    ensures RotateLeft(x, 10) == (x << 10) | (x >> 22)
    ensures RotateLeft(x, 15) == (x << 15) | (x >> 17)
    ensures RotateLeft(x, 21) == (x << 21) | (x >> 11)
  {
  }

  lemma Auxiliary4(i: nat, b: Word, c: Word, d: Word)
    requires 48 <= i < 64
    ensures Auxiliary(i, b, c, d) == c ^ (b | !d)
  {
  }

  /** The registers after operation i of round 1, by its word w, constant t and shift s; f, p and q
      are what it adds up. */
  lemma Known1(i: nat, r: Registers, x: seq<Word>, k: nat, t: Word, s: nat, a: Word, b: Word, c: Word, d: Word,
               w: Word, f: Word, p: Word, q: Word, sum: Word, rotated: Word, e: Word)
    requires 0 <= i < 16 && |x| == 16 && WordIndex(i) == k && Sine(i) == t && Shift(i) == s && x[k] == w
    requires s == 7 || s == 12 || s == 17 || s == 22
    requires Operations(i, r, x) == Registers(a, b, c, d)
    requires f == (b & c) | (!b & d)
    requires p == a + f && q == p + w && sum == q + t
    requires s == 7 ==> rotated == (sum << 7) | (sum >> 25)
    requires s == 12 ==> rotated == (sum << 12) | (sum >> 20)
    requires s == 17 ==> rotated == (sum << 17) | (sum >> 15)
    requires s == 22 ==> rotated == (sum << 22) | (sum >> 10)
    requires e == b + rotated
    ensures Operations(i + 1, r, x) == Registers(d, e, b, c)
  {
    hide Add, RotateLeft, Auxiliary, Sine, WordIndex, Shift;
    Auxiliary1(i, b, c, d);
    Sum(a, f);
    Sum(p, w);
    Sum(q, t);
    Rotations1(sum);
    Sum(b, rotated);
  }

  /** The registers after operation i of round 2, by its word w, constant t and shift s; f, p and q
      are what it adds up. */
  lemma Known2(i: nat, r: Registers, x: seq<Word>, k: nat, t: Word, s: nat, a: Word, b: Word, c: Word, d: Word,
               w: Word, f: Word, p: Word, q: Word, sum: Word, rotated: Word, e: Word)
    requires 16 <= i < 32 && |x| == 16 && WordIndex(i) == k && Sine(i) == t && Shift(i) == s && x[k] == w
    requires s == 5 || s == 9 || s == 14 || s == 20
    requires Operations(i, r, x) == Registers(a, b, c, d)
    requires f == (b & d) | (c & !d)
    requires p == a + f && q == p + w && sum == q + t
    requires s == 5 ==> rotated == (sum << 5) | (sum >> 27)
    requires s == 9 ==> rotated == (sum << 9) | (sum >> 23)
    requires s == 14 ==> rotated == (sum << 14) | (sum >> 18)
    requires s == 20 ==> rotated == (sum << 20) | (sum >> 12)
    requires e == b + rotated
    ensures Operations(i + 1, r, x) == Registers(d, e, b, c)
  {
    hide Add, RotateLeft, Auxiliary, Sine, WordIndex, Shift;
    Auxiliary2(i, b, c, d);
    Sum(a, f);
    Sum(p, w);
    Sum(q, t);
    Rotations2(sum);
    Sum(b, rotated);
  }

  /** The registers after operation i of round 3, by its word w, constant t and shift s; f, p and q
      are what it adds up. */
  lemma Known3(i: nat, r: Registers, x: seq<Word>, k: nat, t: Word, s: nat, a: Word, b: Word, c: Word, d: Word,
               w: Word, f: Word, p: Word, q: Word, sum: Word, rotated: Word, e: Word)
    requires 32 <= i < 48 && |x| == 16 && WordIndex(i) == k && Sine(i) == t && Shift(i) == s && x[k] == w
    requires s == 4 || s == 11 || s == 16 || s == 23
    requires Operations(i, r, x) == Registers(a, b, c, d)
    requires f == b ^ c ^ d
    requires p == a + f && q == p + w && sum == q + t
    requires s == 4 ==> rotated == (sum << 4) | (sum >> 28)
    requires s == 11 ==> rotated == (sum << 11) | (sum >> 21)
    requires s == 16 ==> rotated == (sum << 16) | (sum >> 16)
    requires s == 23 ==> rotated == (sum << 23) | (sum >> 9)
    requires e == b + rotated
    ensures Operations(i + 1, r, x) == Registers(d, e, b, c)
  {
    hide Add, RotateLeft, Auxiliary, Sine, WordIndex, Shift;
    Auxiliary3(i, b, c, d);
    Sum(a, f);
    Sum(p, w);
    Sum(q, t);
    Rotations3(sum);
    Sum(b, rotated);
  }

  /** The registers after operation i of round 4, by its word w, constant t and shift s; f, p and q
      are what it adds up. */
  lemma Known4(i: nat, r: Registers, x: seq<Word>, k: nat, t: Word, s: nat, a: Word, b: Word, c: Word, d: Word,
               w: Word, f: Word, p: Word, q: Word, sum: Word, rotated: Word, e: Word)
    requires 48 <= i < 64 && |x| == 16 && WordIndex(i) == k && Sine(i) == t && Shift(i) == s && x[k] == w
    requires s == 6 || s == 10 || s == 15 || s == 21
    requires Operations(i, r, x) == Registers(a, b, c, d)
    requires f == c ^ (b | !d)
    requires p == a + f && q == p + w && sum == q + t
    requires s == 6 ==> rotated == (sum << 6) | (sum >> 26)
    requires s == 10 ==> rotated == (sum << 10) | (sum >> 22)
    requires s == 15 ==> rotated == (sum << 15) | (sum >> 17)
    requires s == 21 ==> rotated == (sum << 21) | (sum >> 11)
    requires e == b + rotated
    ensures Operations(i + 1, r, x) == Registers(d, e, b, c)
  {
    hide Add, RotateLeft, Auxiliary, Sine, WordIndex, Shift;
    Auxiliary4(i, b, c, d);
    Sum(a, f);
    Sum(p, w);
    Sum(q, t);
    Rotations4(sum);
    Sum(b, rotated);
  }

  // ----- around the operations

  lemma NoOperations(r: Registers, x: seq<Word>)
    requires |x| == 16
    ensures Operations(0, r, x) == r
  {
  }

  lemma Length8(low: nat, high: nat, b0: Byte, b1: Byte)
    requires low < 256 && high < 256 && low as Byte == b0 && high as Byte == b1
    ensures var e := LittleEndian(low + 256 * high, 8);
            e[0] == b0 && e[1] == b1 && forall j :: 2 <= j < 8 ==> e[j] == 0
  {
    hide LittleEndian;
    LowByte(low + 256 * high, low, high, 8, b0);
    LowByte(high, high, 0, 7, b1);
    ZeroBytes(6);
  }

  lemma LowByte(n: nat, low: nat, rest: nat, count: nat, b: Byte)
    requires count > 0 && low < 256 && n == low + 256 * rest && low as Byte == b
    ensures LittleEndian(n, count) == [b] + LittleEndian(rest, count - 1)
  {
    assert n % 256 == low && n / 256 == rest;
  }

  lemma {:induction false} ZeroBytes(count: nat)
    ensures forall j :: 0 <= j < count ==> LittleEndian(0, count)[j] == 0
  {
    if count > 0 {
      ZeroBytes(count - 1);
    }
  }

  lemma PaddedRegions(m: seq<Byte>, n: nat, z: nat, low: nat, high: nat, b0: Byte, b1: Byte)
    requires |m| == n && PadZeros(n) == z && 8 * n == low + 256 * high
    requires low < 256 && high < 256 && low as Byte == b0 && high as Byte == b1
    ensures var p := Padded(m);
            && |p| == n + 9 + z && p[n] == 0x80 && p[n + 1 + z] == b0 && p[n + 2 + z] == b1
            && (forall j :: 0 <= j < n ==> p[j] == m[j])
            && (forall j :: n < j < n + 1 + z ==> p[j] == 0)
            && (forall j :: n + 3 + z <= j < n + 9 + z ==> p[j] == 0)
  {
    hide LittleEndian;
    Length8(low, high, b0, b1);
    var e := LittleEndian(8 * n, 8);
    forall j | n + 3 + z <= j < n + 9 + z
      ensures Padded(m)[j] == 0
    {
      assert Padded(m)[j] == e[j - (n + 1 + z)];
    }
  }

  lemma WordOf(block: seq<Byte>, k: nat, b0: Byte, b1: Byte, b2: Byte, b3: Byte)
    requires |block| == 64 && k < 16
    requires block[4 * k] == b0 && block[4 * k + 1] == b1 && block[4 * k + 2] == b2 && block[4 * k + 3] == b3
    ensures Decode(block)[k] == (b0 as Word) | ((b1 as Word) << 8) | ((b2 as Word) << 16) | ((b3 as Word) << 24)
  {
  }

  lemma WordAt(p: seq<Byte>, at: nat, k: nat, b0: Byte, b1: Byte, b2: Byte, b3: Byte, w: Word)
    requires at + 64 <= |p| && k < 16
    requires p[at + 4 * k] == b0 && p[at + 4 * k + 1] == b1 && p[at + 4 * k + 2] == b2 && p[at + 4 * k + 3] == b3
    requires w == (b0 as Word) | ((b1 as Word) << 8) | ((b2 as Word) << 16) | ((b3 as Word) << 24)
    ensures Decode(p[at..at + 64])[k] == w
  {
    hide Decode;
    WordOf(p[at..at + 64], k, b0, b1, b2, b3);
  }

  lemma ZeroWords(p: seq<Byte>, at: nat, from: nat, to: nat)
    requires at + 64 <= |p| && to <= 16 && forall j :: at + 4 * from <= j < at + 4 * to ==> p[j] == 0
    ensures var x := Decode(p[at..at + 64]); forall k :: from <= k < to ==> x[k] == 0
  {
    hide Decode;
    var x := Decode(p[at..at + 64]);
    forall k | from <= k < to
      ensures x[k] == 0
    {
      WordAt(p, at, k, 0, 0, 0, 0, 0);
    }
  }

  lemma OneBlock(m: seq<Byte>)
    requires |m| == 64
    ensures CompressAll(INITIAL, m) == Compress(INITIAL, m[0..64])
  {
    hide Compress;
    assert m[0..64] == m;
    AnyBlock(INITIAL, m);
  }

  lemma TwoBlocks(m: seq<Byte>)
    requires |m| == 128
    ensures CompressAll(INITIAL, m) == Compress(Compress(INITIAL, m[0..64]), m[64..128])
  {
    hide Compress;
    assert m[..64] == m[0..64] && m[64..] == m[64..128];
    var r := Compress(INITIAL, m[0..64]);
    AnyBlock(r, m[64..128]);
  }

  lemma AnyBlock(r: Registers, m: seq<Byte>)
    requires |m| == 64
    ensures CompressAll(r, m) == Compress(r, m)
  {
    hide Compress;
    assert m[..64] == m && m[64..] == [];
    assert CompressAll(Compress(r, m), m[64..]) == Compress(r, m);
  }

  lemma EncodedWord(w: Word, b0: Byte, b1: Byte, b2: Byte, b3: Byte)
    requires b0 == (w & 0xFF) as Byte && b1 == ((w >> 8) & 0xFF) as Byte
    requires b2 == ((w >> 16) & 0xFF) as Byte && b3 == ((w >> 24) & 0xFF) as Byte
    ensures EncodeWord(w) == [b0, b1, b2, b3]
  {
  }

  lemma Encoded(r: Registers)
    ensures Encode(r) == EncodeWord(r.a) + EncodeWord(r.b) + EncodeWord(r.c) + EncodeWord(r.d)
  {
  }

  // ----- the empty message

  ghost predicate EmptyWords(x: seq<Word>) {
    && |x| == 16
    && x[0] == 0x00000080 && x[1] == 0x00000000 && x[2] == 0x00000000 && x[3] == 0x00000000
    && x[4] == 0x00000000 && x[5] == 0x00000000 && x[6] == 0x00000000 && x[7] == 0x00000000
    && x[8] == 0x00000000 && x[9] == 0x00000000 && x[10] == 0x00000000 && x[11] == 0x00000000
    && x[12] == 0x00000000 && x[13] == 0x00000000 && x[14] == 0x00000000 && x[15] == 0x00000000
  }

  lemma EmptyOperations0(r: Registers, x: seq<Word>)
    requires EmptyWords(x) && Operations(0, r, x) == Registers(0x67452301, 0xefcdab89, 0x98badcfe, 0x10325476)
    ensures Operations(8, r, x) == Registers(0x32033344, 0x9bc13ce9, 0xf5b158db, 0x2f35d494)
  {
    hide Operations, WordIndex, Sine, Shift;
    WordsOfRound1();
    ConstantsOfRound1();
    ShiftsOfRound1();
    Known1(0, r, x, 0, 0xd76aa478, 7, 0x67452301, 0xefcdab89, 0x98badcfe, 0x10325476,
           0x00000080, 0x98badcfe, 0xffffffff, 0x0000007f, 0xd76aa4f7, 0xb5527beb, 0xa5202774);
    Known1(1, r, x, 1, 0xe8c7b756, 12, 0x10325476, 0xa5202774, 0xefcdab89, 0x98badcfe,
           0x00000000, 0xbd9afb8a, 0xcdcd5000, 0xcdcd5000, 0xb6950756, 0x50756b69, 0xf59592dd);
    Known1(2, r, x, 2, 0x242070db, 17, 0x98badcfe, 0xf59592dd, 0xa5202774, 0xefcdab89,
           0x00000000, 0xaf482b54, 0x48030852, 0x48030852, 0x6c23792d, 0xf25ad846, 0xe7f06b23);
    Known1(3, r, x, 3, 0xc1bdceee, 22, 0xefcdab89, 0xe7f06b23, 0xf59592dd, 0xa5202774,
           0x00000000, 0xe5900655, 0xd55db1de, 0xd55db1de, 0x971b80cc, 0x3325c6e0, 0x1b163203);
    Known1(4, r, x, 4, 0xf57c0faf, 7, 0xa5202774, 0x1b163203, 0xe7f06b23, 0xf59592dd,
           0x00000000, 0xe791a2df, 0x8cb1ca53, 0x8cb1ca53, 0x822dda02, 0x16ed0141, 0x32033344);
    Known1(5, r, x, 5, 0x4787c62a, 12, 0xf59592dd, 0x32033344, 0x1b163203, 0xe7f06b23,
           0x00000000, 0xd7f27a23, 0xcd880d00, 0xcd880d00, 0x150fd32a, 0xfd32a150, 0x2f35d494);
    Known1(6, r, x, 6, 0xa8304613, 17, 0xe7f06b23, 0x2f35d494, 0x32033344, 0x1b163203,
           0x00000000, 0x32033207, 0x19f39d2a, 0x19f39d2a, 0xc223e33d, 0xc67b8447, 0xf5b158db);
    Known1(7, r, x, 7, 0xfd469501, 22, 0x1b163203, 0xf5b158db, 0x2f35d494, 0x32033344,
           0x00000000, 0x27337394, 0x4249a597, 0x4249a597, 0x3f903a98, 0xa60fe40e, 0x9bc13ce9);
  }

  lemma EmptyOperations8(r: Registers, x: seq<Word>)
    requires EmptyWords(x) && Operations(8, r, x) == Registers(0x32033344, 0x9bc13ce9, 0xf5b158db, 0x2f35d494)
    ensures Operations(16, r, x) == Registers(0xf56c7cf1, 0xd6819c6a, 0x5aa53f75, 0x374943a7)
  {
    hide Operations, WordIndex, Sine, Shift;
    WordsOfRound1();
    ConstantsOfRound1();
    ShiftsOfRound1();
    Known1(8, r, x, 8, 0x698098d8, 7, 0x32033344, 0x9bc13ce9, 0xf5b158db, 0x2f35d494,
           0x00000000, 0xb5b5d8dd, 0xe7b90c21, 0xe7b90c21, 0x5139a4f9, 0x9cd27ca8, 0x3893b991);
    Known1(9, r, x, 9, 0x8b44f7af, 12, 0x2f35d494, 0x3893b991, 0x9bc13ce9, 0xf5b158db,
           0x00000000, 0xdda178cb, 0x0cd74d5f, 0x0cd74d5f, 0x981c450e, 0xc450e981, 0xfce4a312);
    Known1(10, r, x, 10, 0xffff5bb1, 17, 0xf5b158db, 0xfce4a312, 0x3893b991, 0x9bc13ce9,
           0x00000000, 0x3b81bdf9, 0x313316d4, 0x313316d4, 0x31327285, 0xe50a6264, 0xe1ef0576);
    Known1(11, r, x, 11, 0x895cd7be, 22, 0x9bc13ce9, 0xe1ef0576, 0xfce4a312, 0x3893b991,
           0x00000000, 0xf8f4b993, 0x94b5f67c, 0x94b5f67c, 0x1e12ce3a, 0x8e8784b3, 0x70768a29);
    Known1(12, r, x, 12, 0x6b901122, 7, 0x3893b991, 0x70768a29, 0xe1ef0576, 0xfce4a312,
           0x00000000, 0xece62132, 0x2579dac3, 0x2579dac3, 0x9109ebe5, 0x84f5f2c8, 0xf56c7cf1);
    Known1(13, r, x, 13, 0xfd987193, 12, 0xfce4a312, 0xf56c7cf1, 0x70768a29, 0xe1ef0576,
           0x00000000, 0x70e70927, 0x6dcbac39, 0x6dcbac39, 0x6b641dcc, 0x41dcc6b6, 0x374943a7);
    Known1(14, r, x, 14, 0xa679438e, 17, 0xe1ef0576, 0x374943a7, 0xf56c7cf1, 0x70768a29,
           0x00000000, 0x757ec8a9, 0x576dce1f, 0x576dce1f, 0xfde711ad, 0x235bfbce, 0x5aa53f75);
    Known1(15, r, x, 15, 0x49b40821, 22, 0x70768a29, 0x5aa53f75, 0x374943a7, 0xf56c7cf1,
           0x00000000, 0xb74943a5, 0x27bfcdce, 0x27bfcdce, 0x7173d5ef, 0x7bdc5cf5, 0xd6819c6a);
  }

  lemma EmptyOperations16(r: Registers, x: seq<Word>)
    requires EmptyWords(x) && Operations(16, r, x) == Registers(0xf56c7cf1, 0xd6819c6a, 0x5aa53f75, 0x374943a7)
    ensures Operations(24, r, x) == Registers(0x3d1e3e6c, 0xe422531a, 0xeb41643e, 0x68b7b3e3)
  {
    hide Operations, WordIndex, Sine, Shift;
    WordsOfRound2();
    ConstantsOfRound2();
    ShiftsOfRound2();
    Known2(16, r, x, 1, 0xf61e2562, 5, 0xf56c7cf1, 0xd6819c6a, 0x5aa53f75, 0x374943a7,
           0x00000000, 0x5ea53c72, 0x5411b963, 0x5411b963, 0x4a2fdec5, 0x45fbd8a9, 0x1c7d7513);
    Known2(17, r, x, 6, 0xc040b340, 9, 0x374943a7, 0x1c7d7513, 0xd6819c6a, 0x5aa53f75,
           0x00000000, 0x9c25b51b, 0xd36ef8c2, 0xd36ef8c2, 0x93afac02, 0x5f580527, 0x7bd57a3a);
    Known2(18, r, x, 11, 0x265e5a51, 14, 0x5aa53f75, 0x7bd57a3a, 0x1c7d7513, 0xd6819c6a,
           0x00000000, 0x5afd793b, 0xb5a2b8b0, 0xb5a2b8b0, 0xdc011301, 0x44c07700, 0xc095f13a);
    Known2(19, r, x, 0, 0xe9b6c7aa, 20, 0xd6819c6a, 0xc095f13a, 0x7bd57a3a, 0x1c7d7513,
           0x00000080, 0x63957b3a, 0x3a1717a4, 0x3a171824, 0x23cddfce, 0xfce23cdd, 0xbd782e17);
    Known2(20, r, x, 5, 0xd62f105d, 5, 0x1c7d7513, 0xbd782e17, 0xc095f13a, 0x7bd57a3a,
           0x00000000, 0xb950ab12, 0xd5ce2025, 0xd5ce2025, 0xabfd3082, 0x7fa61055, 0x3d1e3e6c);
    Known2(21, r, x, 10, 0x02441453, 9, 0x7bd57a3a, 0x3d1e3e6c, 0xbd782e17, 0xc095f13a,
           0x00000000, 0x3d7c3e2d, 0xb951b867, 0xb951b867, 0xbb95ccba, 0x2b997577, 0x68b7b3e3);
    Known2(22, r, x, 15, 0xd8a1e681, 14, 0xc095f13a, 0x68b7b3e3, 0x3d1e3e6c, 0xbd782e17,
           0x00000000, 0x2836326b, 0xe8cc23a5, 0xe8cc23a5, 0xc16e0a26, 0x8289b05b, 0xeb41643e);
    Known2(23, r, x, 4, 0xe7d3fbc8, 20, 0xbd782e17, 0xeb41643e, 0x68b7b3e3, 0x3d1e3e6c,
           0x00000000, 0x69a1a5af, 0x2719d3c6, 0x2719d3c6, 0x0eedcf8e, 0xf8e0eedc, 0xe422531a);
  }

  lemma EmptyOperations24(r: Registers, x: seq<Word>)
    requires EmptyWords(x) && Operations(24, r, x) == Registers(0x3d1e3e6c, 0xe422531a, 0xeb41643e, 0x68b7b3e3)
    ensures Operations(32, r, x) == Registers(0x13707036, 0xa2205f1f, 0x1c31c384, 0xae7813db)
  {
    hide Operations, WordIndex, Sine, Shift;
    WordsOfRound2();
    ConstantsOfRound2();
    ShiftsOfRound2();
    Known2(24, r, x, 9, 0x21e1cde6, 5, 0x3d1e3e6c, 0xe422531a, 0xeb41643e, 0x68b7b3e3,
           0x00000000, 0xe362571e, 0x2080958a, 0x2080958a, 0x42626370, 0x4c4c6e08, 0x306ec122);
    Known2(25, r, x, 14, 0xc33707d6, 9, 0x68b7b3e3, 0x306ec122, 0xe422531a, 0xeb41643e,
           0x00000000, 0x24625322, 0x8d1a0705, 0x8d1a0705, 0x50510edb, 0xa21db6a0, 0xd28c77c2);
    Known2(26, r, x, 3, 0xf4d50d87, 14, 0xeb41643e, 0xd28c77c2, 0x306ec122, 0xe422531a,
           0x00000000, 0xd04cd322, 0xbb8e3760, 0xbb8e3760, 0xb06344e7, 0xd139ec18, 0xa3c663da);
    Known2(27, r, x, 8, 0x455a14ed, 20, 0xe422531a, 0xa3c663da, 0xd28c77c2, 0x306ec122,
           0x00000000, 0xe2c677c2, 0xc6e8cadc, 0xc6e8cadc, 0x0c42dfc9, 0xfc90c42d, 0xa0572807);
    Known2(28, r, x, 13, 0xa9e3e905, 5, 0x306ec122, 0xa0572807, 0xa3c663da, 0xd28c77c2,
           0x00000000, 0xa146201a, 0xd1b4e13c, 0xd1b4e13c, 0x7b98ca41, 0x7319482f, 0x13707036);
    Known2(29, r, x, 2, 0xfcefa3f8, 9, 0xd28c77c2, 0x13707036, 0xa0572807, 0xa3c663da,
           0x00000000, 0x03516817, 0xd5dddfd9, 0xd5dddfd9, 0xd2cd83d1, 0x9b07a3a5, 0xae7813db);
    Known2(30, r, x, 7, 0x676f02d9, 14, 0xa3c663da, 0xae7813db, 0x13707036, 0xa0572807,
           0x00000000, 0xb3705033, 0x5736b40d, 0x5736b40d, 0xbea5b6e6, 0x6db9afa9, 0x1c31c384);
    Known2(31, r, x, 12, 0x8d2a4c8a, 20, 0xa0572807, 0x1c31c384, 0xae7813db, 0x13707036,
           0x00000000, 0xbc3843cd, 0x5c8f6bd4, 0x5c8f6bd4, 0xe9b9b85e, 0x85ee9b9b, 0xa2205f1f);
  }

  lemma EmptyOperations32(r: Registers, x: seq<Word>)
    requires EmptyWords(x) && Operations(32, r, x) == Registers(0x13707036, 0xa2205f1f, 0x1c31c384, 0xae7813db)
    ensures Operations(40, r, x) == Registers(0x5f7a9b2e, 0xc5dc8c15, 0x91ca4cb7, 0xabc34e16)
  {
    hide Operations, WordIndex, Sine, Shift;
    WordsOfRound3();
    ConstantsOfRound3();
    ShiftsOfRound3();
    Known3(32, r, x, 5, 0xfffa3942, 4, 0x13707036, 0xa2205f1f, 0x1c31c384, 0xae7813db,
           0x00000000, 0x10698f40, 0x23d9ff76, 0x23d9ff76, 0x23d438b8, 0x3d438b82, 0xdf63eaa1);
    Known3(33, r, x, 8, 0x8771f681, 11, 0xae7813db, 0xdf63eaa1, 0xa2205f1f, 0x1c31c384,
           0x00000000, 0x6172763a, 0x0fea8a15, 0x0fea8a15, 0x975c8096, 0xe404b4ba, 0xc3689f5b);
    Known3(34, r, x, 11, 0x6d9d6122, 16, 0x1c31c384, 0xc3689f5b, 0xdf63eaa1, 0xa2205f1f,
           0x00000000, 0xbe2b2ae5, 0xda5cee69, 0xda5cee69, 0x47fa4f8b, 0x4f8b47fa, 0x12f3e755);
    Known3(35, r, x, 14, 0xfde5380c, 23, 0xa2205f1f, 0x12f3e755, 0xc3689f5b, 0xdf63eaa1,
           0x00000000, 0x0ef892af, 0xb118f1ce, 0xb118f1ce, 0xaefe29da, 0xed577f14, 0x004b6669);
    Known3(36, r, x, 1, 0xa4beea44, 4, 0xdf63eaa1, 0x004b6669, 0x12f3e755, 0xc3689f5b,
           0x00000000, 0xd1d01e67, 0xb1340908, 0xb1340908, 0x55f2f34c, 0x5f2f34c5, 0x5f7a9b2e);
    Known3(37, r, x, 4, 0x4bdecfa9, 11, 0xc3689f5b, 0x5f7a9b2e, 0x004b6669, 0x12f3e755,
           0x00000000, 0x4dc21a12, 0x112ab96d, 0x112ab96d, 0x5d098916, 0x4c48b2e8, 0xabc34e16);
    Known3(38, r, x, 7, 0xf6bb4b60, 16, 0x12f3e755, 0xabc34e16, 0x5f7a9b2e, 0x004b6669,
           0x00000000, 0xf4f2b351, 0x07e69aa6, 0x07e69aa6, 0xfea1e606, 0xe606fea1, 0x91ca4cb7);
    Known3(39, r, x, 10, 0xbebfbc70, 23, 0x004b6669, 0x91ca4cb7, 0xabc34e16, 0x5f7a9b2e,
           0x00000000, 0x6573998f, 0x65befff8, 0x65befff8, 0x247ebc68, 0x34123f5e, 0xc5dc8c15);
  }

  lemma EmptyOperations40(r: Registers, x: seq<Word>)
    requires EmptyWords(x) && Operations(40, r, x) == Registers(0x5f7a9b2e, 0xc5dc8c15, 0x91ca4cb7, 0xabc34e16)
    ensures Operations(48, r, x) == Registers(0x3f55edfd, 0xca7d2dbd, 0x68d84ea2, 0x22a31f54)
  {
    hide Operations, WordIndex, Sine, Shift;
    WordsOfRound3();
    ConstantsOfRound3();
    ShiftsOfRound3();
    Known3(40, r, x, 13, 0x289b7ec6, 4, 0x5f7a9b2e, 0xc5dc8c15, 0x91ca4cb7, 0xabc34e16,
           0x00000000, 0xffd58eb4, 0x5f5029e2, 0x5f5029e2, 0x87eba8a8, 0x7eba8a88, 0x4497169d);
    Known3(41, r, x, 0, 0xeaa127fa, 11, 0xabc34e16, 0x4497169d, 0xc5dc8c15, 0x91ca4cb7,
           0x00000080, 0x1081d63f, 0xbc452455, 0xbc4524d5, 0xa6e64ccf, 0x32667d37, 0x76fd93d4);
    Known3(42, r, x, 3, 0xd4ef3085, 16, 0x91ca4cb7, 0x76fd93d4, 0x4497169d, 0xc5dc8c15,
           0x00000000, 0xf7b6095c, 0x89805613, 0x89805613, 0x5e6f8698, 0x86985e6f, 0xfd95f243);
    Known3(43, r, x, 6, 0x04881d05, 23, 0xc5dc8c15, 0xfd95f243, 0x76fd93d4, 0x4497169d,
           0x00000000, 0xcfff770a, 0x95dc031f, 0x95dc031f, 0x9a642024, 0x124d3210, 0x0fe32453);
    Known3(44, r, x, 9, 0xd9d4d039, 4, 0x4497169d, 0x0fe32453, 0xfd95f243, 0x76fd93d4,
           0x00000000, 0x848b45c4, 0xc9225c61, 0xc9225c61, 0xa2f72c9a, 0x2f72c9aa, 0x3f55edfd);
    Known3(45, r, x, 12, 0xe6db99e5, 11, 0x76fd93d4, 0x3f55edfd, 0x0fe32453, 0xfd95f243,
           0x00000000, 0xcd233bed, 0x4420cfc1, 0x4420cfc1, 0x2afc69a6, 0xe34d3157, 0x22a31f54);
    Known3(46, r, x, 15, 0x1fa27cf8, 16, 0xfd95f243, 0x22a31f54, 0x3f55edfd, 0x0fe32453,
           0x00000000, 0x1215d6fa, 0x0fabc93d, 0x0fabc93d, 0x2f4e4635, 0x46352f4e, 0x68d84ea2);
    Known3(47, r, x, 2, 0xc4ac5665, 23, 0x0fe32453, 0x68d84ea2, 0x22a31f54, 0x3f55edfd,
           0x00000000, 0x752ebc0b, 0x8511e05e, 0x8511e05e, 0x49be36c3, 0x61a4df1b, 0xca7d2dbd);
  }

  lemma EmptyOperations48(r: Registers, x: seq<Word>)
    requires EmptyWords(x) && Operations(48, r, x) == Registers(0x3f55edfd, 0xca7d2dbd, 0x68d84ea2, 0x22a31f54)
    ensures Operations(56, r, x) == Registers(0x5625a114, 0x1e77fa61, 0x392ad0d0, 0x3450f42b)
  {
    hide Operations, WordIndex, Sine, Shift;
    WordsOfRound4();
    ConstantsOfRound4();
    ShiftsOfRound4();
    Known4(48, r, x, 0, 0xf4292244, 6, 0x3f55edfd, 0xca7d2dbd, 0x68d84ea2, 0x22a31f54,
           0x00000080, 0xb7a5a31d, 0xf6fb911a, 0xf6fb919a, 0xeb24b3de, 0xc92cf7ba, 0x93aa2577);
    Known4(49, r, x, 7, 0x432aff97, 10, 0x22a31f54, 0x93aa2577, 0xca7d2dbd, 0x68d84ea2,
           0x00000000, 0x5dd298c2, 0x8075b816, 0x8075b816, 0xc3a0b7ad, 0x82deb70e, 0x1688dc85);
    Known4(50, r, x, 14, 0xab9423a7, 15, 0x68d84ea2, 0x1688dc85, 0x93aa2577, 0xca7d2dbd,
           0x00000000, 0xa420fbb0, 0x0cf94a52, 0x0cf94a52, 0xb88d6df9, 0xb6fcdc46, 0xcd85b8cb);
    Known4(51, r, x, 5, 0xfc93a039, 21, 0xca7d2dbd, 0xcd85b8cb, 0x1688dc85, 0x93aa2577,
           0x00000000, 0xfb5d264e, 0xc5da540b, 0xc5da540b, 0xc26df444, 0x88984dbe, 0x561e0689);
    Known4(52, r, x, 12, 0x655b59c3, 6, 0x93aa2577, 0x561e0689, 0xcd85b8cb, 0x1688dc85,
           0x00000000, 0x32fa9f30, 0xc6a4c4a7, 0xc6a4c4a7, 0x2c001e6a, 0x00079a8b, 0x5625a114);
    Known4(53, r, x, 3, 0x8f0ccc92, 10, 0x1688dc85, 0x5625a114, 0x561e0689, 0xcd85b8cb,
           0x00000000, 0x2061e1bd, 0x36eabe42, 0x36eabe42, 0xc5f78ad4, 0xde2b5317, 0x3450f42b);
    Known4(54, r, x, 10, 0xffeff47d, 15, 0xcd85b8cb, 0x3450f42b, 0x5625a114, 0x561e0689,
           0x00000000, 0xebd45c6b, 0xb95a1536, 0xb95a1536, 0xb94a09b3, 0x04d9dca5, 0x392ad0d0);
    Known4(55, r, x, 1, 0x85845dd1, 21, 0x561e0689, 0x392ad0d0, 0x3450f42b, 0x5625a114,
           0x00000000, 0x8daa2ad0, 0xe3c83159, 0xe3c83159, 0x694c8f2a, 0xe54d2991, 0x1e77fa61);
  }

  lemma EmptyOperations56(r: Registers, x: seq<Word>)
    requires EmptyWords(x) && Operations(56, r, x) == Registers(0x5625a114, 0x1e77fa61, 0x392ad0d0, 0x3450f42b)
    ensures Operations(64, r, x) == Registers(0x7246fad3, 0x14e45506, 0xff4ea3eb, 0x6e10a476)
  {
    hide Operations, WordIndex, Sine, Shift;
    WordsOfRound4();
    ConstantsOfRound4();
    ShiftsOfRound4();
    Known4(56, r, x, 8, 0x6fa87e4f, 6, 0x5625a114, 0x1e77fa61, 0x392ad0d0, 0x3450f42b,
           0x00000000, 0xe6d52b25, 0x3cfacc39, 0x3cfacc39, 0xaca34a88, 0x28d2a22b, 0x474a9c8c);
    Known4(57, r, x, 15, 0xfe2ce6e0, 10, 0x3450f42b, 0x474a9c8c, 0x1e77fa61, 0x392ad0d0,
           0x00000000, 0xd9a845ce, 0x0df939f9, 0x0df939f9, 0x0c2620d9, 0x98836430, 0xdfce00bc);
    Known4(58, r, x, 6, 0xa3014314, 15, 0x392ad0d0, 0xdfce00bc, 0x474a9c8c, 0x1e77fa61,
           0x00000000, 0xb8849932, 0xf1af6a02, 0xf1af6a02, 0x94b0ad16, 0x568b4a58, 0x36594b14);
    Known4(59, r, x, 13, 0x4e0811a1, 21, 0x1e77fa61, 0x36594b14, 0xdfce00bc, 0x474a9c8c,
           0x00000000, 0x61336bcb, 0x7fab662c, 0x7fab662c, 0xcdb377cd, 0xf9b9b66e, 0x30130182);
    Known4(60, r, x, 4, 0xf7537e82, 6, 0x474a9c8c, 0x30130182, 0x36594b14, 0xdfce00bc,
           0x00000000, 0x066ab4d7, 0x4db55163, 0x4db55163, 0x4508cfe5, 0x4233f951, 0x7246fad3);
    Known4(61, r, x, 11, 0xbd3af235, 10, 0xdfce00bc, 0x7246fad3, 0x30130182, 0x36594b14,
           0x00000000, 0xcbf5ff79, 0xabc40035, 0xabc40035, 0x68fef26a, 0xfbc9a9a3, 0x6e10a476);
    Known4(62, r, x, 2, 0x2ad7d2bb, 15, 0x36594b14, 0x6e10a476, 0x7246fad3, 0x30130182,
           0x00000000, 0x9dba04ac, 0xd4134fc0, 0xd4134fc0, 0xfeeb227b, 0x913dff75, 0xff4ea3eb);
    Known4(63, r, x, 9, 0xeb86d391, 21, 0x30130182, 0xff4ea3eb, 0x6e10a476, 0x7246fad3,
           0x00000000, 0x91ef0399, 0xc202051b, 0xc202051b, 0xad88d8ac, 0x1595b11b, 0x14e45506);
  }

  lemma EmptyCompressed(block: seq<Byte>)
    requires |block| == 64 && EmptyWords(Decode(block))
    ensures Compress(Registers(0x67452301, 0xefcdab89, 0x98badcfe, 0x10325476), block)
         == Registers(0xd98c1dd4, 0x04b2008f, 0x980980e9, 0x7e42f8ec)
  {
    hide Operations, Decode, Add;
    var r := Registers(0x67452301, 0xefcdab89, 0x98badcfe, 0x10325476);
    var x := Decode(block);
    NoOperations(r, x);
    EmptyOperations0(r, x);
    EmptyOperations8(r, x);
    EmptyOperations16(r, x);
    EmptyOperations24(r, x);
    EmptyOperations32(r, x);
    EmptyOperations40(r, x);
    EmptyOperations48(r, x);
    EmptyOperations56(r, x);
    Sum(0x67452301, 0x7246fad3);
    Sum(0xefcdab89, 0x14e45506);
    Sum(0x98badcfe, 0xff4ea3eb);
    Sum(0x10325476, 0x6e10a476);
  }

  lemma EmptyRegions(p: seq<Byte>)
    requires p == Padded([])
    ensures |p| == 64 && p[0] == 0x80 && (forall j :: 1 <= j < 56 ==> p[j] == 0)
    ensures p[56] == 0x00 && p[57] == 0x00 && (forall j :: 58 <= j < 64 ==> p[j] == 0)
  {
    hide Padded;
    PaddedRegions([], 0, 55, 0, 0, 0x00, 0x00);
  }

  lemma EmptyDecodes0(p: seq<Byte>)
    requires p == Padded([]) && |p| == 64
    ensures var x := Decode(p[0..64]);
            x[0] == 0x00000080 && x[14] == 0x00000000
  {
    hide Padded, Decode;
    EmptyRegions(p);
    WordAt(p, 0, 0, 0x80, 0x00, 0x00, 0x00, 0x00000080);
    WordAt(p, 0, 14, 0x00, 0x00, 0x00, 0x00, 0x00000000);
  }

  lemma EmptyDecodes1(p: seq<Byte>)
    requires p == Padded([]) && |p| == 64
    ensures var x := Decode(p[0..64]);
            x[15] == 0x00000000
  {
    hide Padded, Decode;
    EmptyRegions(p);
    WordAt(p, 0, 15, 0x00, 0x00, 0x00, 0x00, 0x00000000);
  }

  lemma EmptyDecodes(p: seq<Byte>)
    requires p == Padded([]) && |p| == 64
    ensures EmptyWords(Decode(p[0..64]))
  {
    hide Padded, Decode;
    EmptyRegions(p);
    EmptyDecodes0(p);
    EmptyDecodes1(p);
    ZeroWords(p, 0, 1, 14);
  }

  lemma DigestOfEmpty()
    ensures Digest([])
         == [0xd4, 0x1d, 0x8c, 0xd9, 0x8f, 0x00, 0xb2, 0x04, 0xe9, 0x80, 0x09, 0x98, 0xec, 0xf8, 0x42, 0x7e]
  {
    hide Compress, Decode, Padded, Encode, EncodeWord, CompressAll, EmptyWords;
    var p := Padded([]);
    EmptyRegions(p);
    EmptyDecodes(p);
    EmptyCompressed(p[0..64]);
    OneBlock(p);
    EncodedWord(0xd98c1dd4, 0xd4, 0x1d, 0x8c, 0xd9);
    EncodedWord(0x04b2008f, 0x8f, 0x00, 0xb2, 0x04);
    EncodedWord(0x980980e9, 0xe9, 0x80, 0x09, 0x98);
    EncodedWord(0x7e42f8ec, 0xec, 0xf8, 0x42, 0x7e);
    Encoded(Registers(0xd98c1dd4, 0x04b2008f, 0x980980e9, 0x7e42f8ec));
  }

  // ----- "abc"

  ghost predicate AbcWords(x: seq<Word>) {
    && |x| == 16
    && x[0] == 0x80636261 && x[1] == 0x00000000 && x[2] == 0x00000000 && x[3] == 0x00000000
    && x[4] == 0x00000000 && x[5] == 0x00000000 && x[6] == 0x00000000 && x[7] == 0x00000000
    && x[8] == 0x00000000 && x[9] == 0x00000000 && x[10] == 0x00000000 && x[11] == 0x00000000
    && x[12] == 0x00000000 && x[13] == 0x00000000 && x[14] == 0x00000018 && x[15] == 0x00000000
  }

  lemma AbcOperations0(r: Registers, x: seq<Word>)
    requires AbcWords(x) && Operations(0, r, x) == Registers(0x67452301, 0xefcdab89, 0x98badcfe, 0x10325476)
    ensures Operations(8, r, x) == Registers(0xc73741ef, 0x928d99f6, 0x207dc67b, 0x8bac3051)
  {
    hide Operations, WordIndex, Sine, Shift;
    WordsOfRound1();
    ConstantsOfRound1();
    ShiftsOfRound1();
    Known1(0, r, x, 0, 0xd76aa478, 7, 0x67452301, 0xefcdab89, 0x98badcfe, 0x10325476,
           0x80636261, 0x98badcfe, 0xffffffff, 0x80636260, 0x57ce06d8, 0xe7036c2b, 0xd6d117b4);
    Known1(1, r, x, 1, 0xe8c7b756, 12, 0x10325476, 0xd6d117b4, 0xefcdab89, 0x98badcfe,
           0x00000000, 0xceebcbca, 0xdf1e2040, 0xdf1e2040, 0xc7e5d796, 0x5d796c7e, 0x344a8432);
    Known1(2, r, x, 2, 0x242070db, 17, 0x98badcfe, 0x344a8432, 0xd6d117b4, 0xefcdab89,
           0x00000000, 0xdfc52fb9, 0x78800cb7, 0x78800cb7, 0x9ca07d92, 0xfb253940, 0x2f6fbd72);
    Known1(3, r, x, 3, 0xc1bdceee, 22, 0xefcdab89, 0x2f6fbd72, 0x344a8432, 0xd6d117b4,
           0x00000000, 0xf4da86b6, 0xe4a8323f, 0xe4a8323f, 0xa666012d, 0x4b699980, 0x7ad956f2);
    Known1(4, r, x, 4, 0xf57c0faf, 7, 0xd6d117b4, 0x7ad956f2, 0x2f6fbd72, 0x344a8432,
           0x00000000, 0x2e4b9472, 0x051cac26, 0x051cac26, 0xfa98bbd5, 0x4c5deafd, 0xc73741ef);
    Known1(5, r, x, 5, 0x4787c62a, 12, 0x344a8432, 0xc73741ef, 0x7ad956f2, 0x2f6fbd72,
           0x00000000, 0x6a59fcf2, 0x9ea48124, 0x9ea48124, 0xe62c474e, 0xc474ee62, 0x8bac3051);
    Known1(6, r, x, 6, 0xa8304613, 17, 0x2f6fbd72, 0x8bac3051, 0xc73741ef, 0x7ad956f2,
           0x00000000, 0xf37546e3, 0x22e50455, 0x22e50455, 0xcb154a68, 0x94d1962a, 0x207dc67b);
    Known1(7, r, x, 7, 0xfd469501, 22, 0x7ad956f2, 0x207dc67b, 0x8bac3051, 0xc73741ef,
           0x00000000, 0xc72e01d5, 0x420758c7, 0x420758c7, 0x3f4dedc8, 0x720fd37b, 0x928d99f6);
  }

  lemma AbcOperations8(r: Registers, x: seq<Word>)
    requires AbcWords(x) && Operations(8, r, x) == Registers(0xc73741ef, 0x928d99f6, 0x207dc67b, 0x8bac3051)
    ensures Operations(16, r, x) == Registers(0xdda9b9a6, 0x72aff2e0, 0xe396856b, 0xa1051895)
  {
    hide Operations, WordIndex, Sine, Shift;
    WordsOfRound1();
    ConstantsOfRound1();
    ShiftsOfRound1();
    Known1(8, r, x, 8, 0x698098d8, 7, 0xc73741ef, 0x928d99f6, 0x207dc67b, 0x8bac3051,
           0x00000000, 0x092da073, 0xd064e262, 0xd064e262, 0x39e57b3a, 0xf2bd9d1c, 0x854b3712);
    Known1(9, r, x, 9, 0x8b44f7af, 12, 0x8bac3051, 0x854b3712, 0x928d99f6, 0x207dc67b,
           0x00000000, 0xa03dd17b, 0x2bea01cc, 0x2bea01cc, 0xb72ef97b, 0xef97bb72, 0x74e2f284);
    Known1(10, r, x, 10, 0xffff5bb1, 17, 0x207dc67b, 0x74e2f284, 0x854b3712, 0x928d99f6,
           0x00000000, 0x864f3b72, 0xa6cd01ed, 0xa6cd01ed, 0xa6cc5d9e, 0xbb3d4d98, 0x3020401c);
    Known1(11, r, x, 11, 0x895cd7be, 22, 0x928d99f6, 0x3020401c, 0x74e2f284, 0x854b3712,
           0x00000000, 0xb56b7706, 0x47f910fc, 0x47f910fc, 0xd155e8ba, 0x2eb4557a, 0x5ed49596);
    Known1(12, r, x, 12, 0x6b901122, 7, 0x854b3712, 0x5ed49596, 0x3020401c, 0x74e2f284,
           0x00000000, 0x30226214, 0xb56d9926, 0xb56d9926, 0x20fdaa48, 0x7ed52410, 0xdda9b9a6);
    Known1(13, r, x, 13, 0xfd987193, 12, 0x74e2f284, 0xdda9b9a6, 0x5ed49596, 0x3020401c,
           0x00000000, 0x7c80d19e, 0xf163c422, 0xf163c422, 0xeefc35b5, 0xc35b5eef, 0xa1051895);
    Known1(14, r, x, 14, 0xa679438e, 17, 0x3020401c, 0xa1051895, 0xdda9b9a6, 0x5ed49596,
           0x00000018, 0xdfd19d86, 0x0ff1dda2, 0x0ff1ddba, 0xb66b2148, 0x42916cd6, 0xe396856b);
    Known1(15, r, x, 15, 0x49b40821, 22, 0x5ed49596, 0xe396856b, 0xa1051895, 0xdda9b9a6,
           0x00000000, 0xbd2d3885, 0x1c01ce1b, 0x1c01ce1b, 0x65b5d63c, 0x8f196d75, 0x72aff2e0);
  }

  lemma AbcOperations16(r: Registers, x: seq<Word>)
    requires AbcWords(x) && Operations(16, r, x) == Registers(0xdda9b9a6, 0x72aff2e0, 0xe396856b, 0xa1051895)
    ensures Operations(24, r, x) == Registers(0x59a8ffda, 0x47092c07, 0xabfc7920, 0x6d002f1e)
  {
    hide Operations, WordIndex, Sine, Shift;
    WordsOfRound2();
    ConstantsOfRound2();
    ShiftsOfRound2();
    Known2(16, r, x, 1, 0xf61e2562, 5, 0xdda9b9a6, 0x72aff2e0, 0xe396856b, 0xa1051895,
           0x00000000, 0x629795ea, 0x40414f90, 0x40414f90, 0x365f74f2, 0xcbee9e46, 0x3e9e9126);
    Known2(17, r, x, 6, 0xc040b340, 9, 0xa1051895, 0x3e9e9126, 0x72aff2e0, 0xe396856b,
           0x00000000, 0x32bff3a2, 0xd3c50c37, 0xd3c50c37, 0x9405bf77, 0x0b7eef28, 0x4a1d804e);
    Known2(18, r, x, 11, 0x265e5a51, 14, 0xe396856b, 0x4a1d804e, 0x3e9e9126, 0x72aff2e0,
           0x00000000, 0x4e1d8146, 0x31b406b1, 0x31b406b1, 0x58126102, 0x98409604, 0xe25e1652);
    Known2(19, r, x, 0, 0xe9b6c7aa, 20, 0x72aff2e0, 0xe25e1652, 0x4a1d804e, 0x3e9e9126,
           0x80636261, 0x621f104a, 0xd4cf032a, 0x5532658b, 0x3ee92d35, 0xd353ee92, 0xb5b204e4);
    Known2(20, r, x, 5, 0xd62f105d, 5, 0x3e9e9126, 0xb5b204e4, 0xe25e1652, 0x4a1d804e,
           0x00000000, 0xa0521654, 0xdef0a77a, 0xdef0a77a, 0xb51fb7d7, 0xa3f6faf6, 0x59a8ffda);
    Known2(21, r, x, 10, 0x02441453, 9, 0x4a1d804e, 0x59a8ffda, 0xb5b204e4, 0xe25e1652,
           0x00000000, 0x55a816f6, 0x9fc59744, 0x9fc59744, 0xa209ab97, 0x13572f44, 0x6d002f1e);
    Known2(22, r, x, 15, 0xd8a1e681, 14, 0xe25e1652, 0x6d002f1e, 0x59a8ffda, 0xb5b204e4,
           0x00000000, 0x6d08ff1e, 0x4f671570, 0x4f671570, 0x2808fbf1, 0x3efc4a02, 0xabfc7920);
    Known2(23, r, x, 4, 0xe7d3fbc8, 20, 0xb5b204e4, 0xabfc7920, 0x6d002f1e, 0x59a8ffda,
           0x00000000, 0x2da87904, 0xe35a7de8, 0xe35a7de8, 0xcb2e79b0, 0x9b0cb2e7, 0x47092c07);
  }

  lemma AbcOperations24(r: Registers, x: seq<Word>)
    requires AbcWords(x) && Operations(24, r, x) == Registers(0x59a8ffda, 0x47092c07, 0xabfc7920, 0x6d002f1e)
    ensures Operations(32, r, x) == Registers(0x790a77fb, 0x726342d3, 0xa62884aa, 0x9f47e4f8)
  {
    hide Operations, WordIndex, Sine, Shift;
    WordsOfRound2();
    ConstantsOfRound2();
    ShiftsOfRound2();
    Known2(24, r, x, 9, 0x21e1cde6, 5, 0x59a8ffda, 0x47092c07, 0xabfc7920, 0x6d002f1e,
           0x00000000, 0xc7fc7c26, 0x21a57c00, 0x21a57c00, 0x438749e6, 0x70e93cc8, 0xb7f268cf);
    Known2(25, r, x, 14, 0xc33707d6, 9, 0x6d002f1e, 0xb7f268cf, 0x47092c07, 0xabfc7920,
           0x00000018, 0xe7f16c07, 0x54f19b25, 0x54f19b3d, 0x1828a313, 0x51462630, 0x09388eff);
    Known2(26, r, x, 3, 0xf4d50d87, 14, 0xabfc7920, 0x09388eff, 0xb7f268cf, 0x47092c07,
           0x00000000, 0xb1fa4ccf, 0x5df6c5ef, 0x5df6c5ef, 0x52cbd376, 0xf4dd94b2, 0xfe1623b1);
    Known2(27, r, x, 8, 0x455a14ed, 20, 0x47092c07, 0xfe1623b1, 0x09388eff, 0xb7f268cf,
           0x00000000, 0xbe1aa6b1, 0x0523d2b8, 0x0523d2b8, 0x4a7de7a5, 0x7a54a7de, 0x786acb8f);
    Known2(28, r, x, 13, 0xa9e3e905, 5, 0xb7f268cf, 0x786acb8f, 0xfe1623b1, 0x09388eff,
           0x00000000, 0xfe2eab8f, 0xb621145e, 0xb621145e, 0x6004fd63, 0x009fac6c, 0x790a77fb);
    Known2(29, r, x, 2, 0xfcefa3f8, 9, 0x09388eff, 0x790a77fb, 0x786acb8f, 0xfe1623b1,
           0x00000000, 0x786aebbf, 0x81a37abe, 0x81a37abe, 0x7e931eb6, 0x263d6cfd, 0x9f47e4f8);
    Known2(30, r, x, 7, 0x676f02d9, 14, 0xfe1623b1, 0x9f47e4f8, 0x790a77fb, 0x786acb8f,
           0x00000000, 0x1942f4f8, 0x175918a9, 0x175918a9, 0x7ec81b82, 0x06e09fb2, 0xa62884aa);
    Known2(31, r, x, 12, 0x8d2a4c8a, 20, 0x786acb8f, 0xa62884aa, 0x9f47e4f8, 0x790a77fb,
           0x00000000, 0xa64d84aa, 0x1eb85039, 0x1eb85039, 0xabe29cc3, 0xcc3abe29, 0x726342d3);
  }

  lemma AbcOperations32(r: Registers, x: seq<Word>)
    requires AbcWords(x) && Operations(32, r, x) == Registers(0x790a77fb, 0x726342d3, 0xa62884aa, 0x9f47e4f8)
    ensures Operations(40, r, x) == Registers(0x21b117b9, 0x5a2f5ea5, 0x3575227e, 0x6e7429d5)
  {
    hide Operations, WordIndex, Sine, Shift;
    WordsOfRound3();
    ConstantsOfRound3();
    ShiftsOfRound3();
    Known3(32, r, x, 5, 0xfffa3942, 4, 0x790a77fb, 0x726342d3, 0xa62884aa, 0x9f47e4f8,
           0x00000000, 0x4b0c2281, 0xc4169a7c, 0xc4169a7c, 0xc410d3be, 0x410d3bec, 0xb3707ebf);
    Known3(33, r, x, 8, 0x8771f681, 11, 0x9f47e4f8, 0xb3707ebf, 0x726342d3, 0xa62884aa,
           0x00000000, 0x673bb8c6, 0x06839dbe, 0x06839dbe, 0x8df5943f, 0xaca1fc6f, 0x60127b2e);
    Known3(34, r, x, 11, 0x6d9d6122, 16, 0xa62884aa, 0x60127b2e, 0xb3707ebf, 0x726342d3,
           0x00000000, 0xa1014742, 0x4729cbec, 0x4729cbec, 0xb4c72d0e, 0x2d0eb4c7, 0x8d212ff5);
    Known3(35, r, x, 14, 0xfde5380c, 23, 0x726342d3, 0x8d212ff5, 0x60127b2e, 0xb3707ebf,
           0x00000018, 0x5e432a64, 0xd0a66d37, 0xd0a66d4f, 0xce8ba55b, 0xade745d2, 0x3b0875c7);
    Known3(36, r, x, 1, 0xa4beea44, 4, 0xb3707ebf, 0x3b0875c7, 0x8d212ff5, 0x60127b2e,
           0x00000000, 0xd63b211c, 0x89ab9fdb, 0x89ab9fdb, 0x2e6a8a1f, 0xe6a8a1f2, 0x21b117b9);
    Known3(37, r, x, 4, 0x4bdecfa9, 11, 0x60127b2e, 0x21b117b9, 0x3b0875c7, 0x8d212ff5,
           0x00000000, 0x97984d8b, 0xf7aac8b9, 0xf7aac8b9, 0x43899862, 0x4cc3121c, 0x6e7429d5);
    Known3(38, r, x, 7, 0xf6bb4b60, 16, 0x8d212ff5, 0x6e7429d5, 0x21b117b9, 0x3b0875c7,
           0x00000000, 0x74cd4bab, 0x01ee7ba0, 0x01ee7ba0, 0xf8a9c700, 0xc700f8a9, 0x3575227e);
    Known3(39, r, x, 10, 0xbebfbc70, 23, 0x3b0875c7, 0x3575227e, 0x6e7429d5, 0x21b117b9,
           0x00000000, 0x7ab01c12, 0xb5b891d9, 0xb5b891d9, 0x74784e49, 0x24ba3c27, 0x5a2f5ea5);
  }

  lemma AbcOperations40(r: Registers, x: seq<Word>)
    requires AbcWords(x) && Operations(40, r, x) == Registers(0x21b117b9, 0x5a2f5ea5, 0x3575227e, 0x6e7429d5)
    ensures Operations(48, r, x) == Registers(0x7f2e507b, 0x7beb9700, 0x8fae6399, 0x99d9679d)
  {
    hide Operations, WordIndex, Sine, Shift;
    WordsOfRound3();
    ConstantsOfRound3();
    ShiftsOfRound3();
    Known3(40, r, x, 13, 0x289b7ec6, 4, 0x21b117b9, 0x5a2f5ea5, 0x3575227e, 0x6e7429d5,
           0x00000000, 0x012e550e, 0x22df6cc7, 0x22df6cc7, 0x4b7aeb8d, 0xb7aeb8d4, 0x11de1779);
    Known3(41, r, x, 0, 0xeaa127fa, 11, 0x6e7429d5, 0x11de1779, 0x5a2f5ea5, 0x3575227e,
           0x80636261, 0x7e846ba2, 0xecf89577, 0x6d5bf7d8, 0x57fd1fd2, 0xe8fe92bf, 0xfadcaa38);
    Known3(42, r, x, 3, 0xd4ef3085, 16, 0x3575227e, 0xfadcaa38, 0x11de1779, 0x5a2f5ea5,
           0x00000000, 0xb12de3e4, 0xe6a30662, 0xe6a30662, 0xbb9236e7, 0x36e7bb92, 0x31c465ca);
    Known3(43, r, x, 6, 0x04881d05, 23, 0x5a2f5ea5, 0x31c465ca, 0xfadcaa38, 0x11de1779,
           0x00000000, 0xdac6d88b, 0x34f63730, 0x34f63730, 0x397e5435, 0x1a9cbf2a, 0x4c6124f4);
    Known3(44, r, x, 9, 0xd9d4d039, 4, 0x11de1779, 0x4c6124f4, 0x31c465ca, 0xfadcaa38,
           0x00000000, 0x8779eb06, 0x9958027f, 0x9958027f, 0x732cd2b8, 0x32cd2b87, 0x7f2e507b);
    Known3(45, r, x, 12, 0xe6db99e5, 11, 0xfadcaa38, 0x7f2e507b, 0x4c6124f4, 0x31c465ca,
           0x00000000, 0x028b1145, 0xfd67bb7d, 0xfd67bb7d, 0xe4435562, 0x1aab1722, 0x99d9679d);
    Known3(46, r, x, 15, 0x1fa27cf8, 16, 0x31c465ca, 0x99d9679d, 0x7f2e507b, 0x4c6124f4,
           0x00000000, 0xaa961312, 0xdc5a78dc, 0xdc5a78dc, 0xfbfcf5d4, 0xf5d4fbfc, 0x8fae6399);
    Known3(47, r, x, 2, 0xc4ac5665, 23, 0x4c6124f4, 0x8fae6399, 0x99d9679d, 0x7f2e507b,
           0x00000000, 0x6959547f, 0xb5ba7973, 0xb5ba7973, 0x7a66cfd8, 0xec3d3367, 0x7beb9700);
  }

  lemma AbcOperations48(r: Registers, x: seq<Word>)
    requires AbcWords(x) && Operations(48, r, x) == Registers(0x7f2e507b, 0x7beb9700, 0x8fae6399, 0x99d9679d)
    ensures Operations(56, r, x) == Registers(0x06cc5e8a, 0x3bfa2c27, 0x7d632dd0, 0x5b0d97aa)
  {
    hide Operations, WordIndex, Sine, Shift;
    WordsOfRound4();
    ConstantsOfRound4();
    ShiftsOfRound4();
    Known4(48, r, x, 0, 0xf4292244, 6, 0x7f2e507b, 0x7beb9700, 0x8fae6399, 0x99d9679d,
           0x80636261, 0xf041fcfb, 0x6f704d76, 0xefd3afd7, 0xe3fcd21b, 0xff3486f8, 0x7b201df8);
    Known4(49, r, x, 7, 0x432aff97, 10, 0x99d9679d, 0x7b201df8, 0x7beb9700, 0x8fae6399,
           0x00000000, 0x009a0afe, 0x9a73729b, 0x9a73729b, 0xdd9e7232, 0x79c8cb76, 0xf4e8e96e);
    Known4(50, r, x, 14, 0xab9423a7, 15, 0x8fae6399, 0xf4e8e96e, 0x7b201df8, 0x7beb9700,
           0x00000018, 0x8fdcf407, 0x1f8b57a0, 0x1f8b57b8, 0xcb1f7b5f, 0xbdafe58f, 0xb298cefd);
    Known4(51, r, x, 5, 0xfc93a039, 21, 0x7beb9700, 0xb298cefd, 0xf4e8e96e, 0x7b201df8,
           0x00000000, 0x42370791, 0xbe229e91, 0xbe229e91, 0xbab63eca, 0xd95756c7, 0x8bf025c4);
    Known4(52, r, x, 12, 0x655b59c3, 6, 0x7b201df8, 0x8bf025c4, 0xb298cefd, 0xf4e8e96e,
           0x00000000, 0x396ff928, 0xb4901720, 0xb4901720, 0x19eb70e3, 0x7adc38c6, 0x06cc5e8a);
    Known4(53, r, x, 3, 0x8f0ccc92, 10, 0xf4e8e96e, 0x06cc5e8a, 0x8bf025c4, 0xb298cefd,
           0x00000000, 0xc41f5a4e, 0xb90843bc, 0xb90843bc, 0x4815104e, 0x54413920, 0x5b0d97aa);
    Known4(54, r, x, 10, 0xffeff47d, 15, 0xb298cefd, 0x5b0d97aa, 0x06cc5e8a, 0x8bf025c4,
           0x00000000, 0x79c38131, 0x2c5c502e, 0x2c5c502e, 0x2c4c44ab, 0x22559626, 0x7d632dd0);
    Known4(55, r, x, 1, 0x85845dd1, 21, 0x8bf025c4, 0x7d632dd0, 0x5b0d97aa, 0x06cc5e8a,
           0x00000000, 0xa67e3a5f, 0x326e6023, 0x326e6023, 0xb7f2bdf4, 0xbe96fe57, 0x3bfa2c27);
  }

  lemma AbcOperations56(r: Registers, x: seq<Word>)
    requires AbcWords(x) && Operations(56, r, x) == Registers(0x06cc5e8a, 0x3bfa2c27, 0x7d632dd0, 0x5b0d97aa)
    ensures Operations(64, r, x) == Registers(0x310ade8f, 0xc08226b3, 0xe484b9d8, 0x624d8cb2)
  {
    hide Operations, WordIndex, Sine, Shift;
    WordsOfRound4();
    ConstantsOfRound4();
    ShiftsOfRound4();
    Known4(56, r, x, 8, 0x6fa87e4f, 6, 0x06cc5e8a, 0x3bfa2c27, 0x7d632dd0, 0x5b0d97aa,
           0x00000000, 0xc29941a7, 0xc965a031, 0xc965a031, 0x390e1e80, 0x4387a00e, 0x7f81cc35);
    Known4(57, r, x, 15, 0xfe2ce6e0, 10, 0x5b0d97aa, 0x7f81cc35, 0x3bfa2c27, 0x7d632dd0,
           0x00000000, 0xc467f218, 0x1f7589c2, 0x1f7589c2, 0x1da270a2, 0x89c28876, 0x094454ab);
    Known4(58, r, x, 6, 0xa3014314, 15, 0x7d632dd0, 0x094454ab, 0x7f81cc35, 0x3bfa2c27,
           0x00000000, 0xb2c41bce, 0x3027499e, 0x3027499e, 0xd3288cb2, 0x46596994, 0x4f9dbe3f);
    Known4(59, r, x, 13, 0x4e0811a1, 21, 0x3bfa2c27, 0x4f9dbe3f, 0x094454ab, 0x7f81cc35,
           0x00000000, 0xc6bbeb54, 0x02b6177b, 0x02b6177b, 0x50be291c, 0x238a17c5, 0x7327d604);
    Known4(60, r, x, 4, 0xf7537e82, 6, 0x7f81cc35, 0x7327d604, 0x4f9dbe3f, 0x094454ab,
           0x00000000, 0xb822416b, 0x37a40da0, 0x37a40da0, 0x2ef78c22, 0xbde3088b, 0x310ade8f);
    Known4(61, r, x, 11, 0xbd3af235, 10, 0x094454ab, 0x310ade8f, 0x7327d604, 0x4f9dbe3f,
           0x00000000, 0xc24d09cb, 0xcb915e76, 0xcb915e76, 0x88cc50ab, 0x3142ae23, 0x624d8cb2);
    Known4(62, r, x, 2, 0x2ad7d2bb, 15, 0x4f9dbe3f, 0x624d8cb2, 0x310ade8f, 0x7327d604,
           0x00000000, 0xdfd77374, 0x2f7531b3, 0x2f7531b3, 0x5a4d046e, 0x82372d26, 0xe484b9d8);
    Known4(63, r, x, 9, 0xeb86d391, 21, 0x7327d604, 0xe484b9d8, 0x624d8cb2, 0x310ade8f,
           0x00000000, 0x8cb8354a, 0xffe00b4e, 0xffe00b4e, 0xeb66dedf, 0xdbfd6cdb, 0xc08226b3);
  }

  lemma AbcCompressed(block: seq<Byte>)
    requires |block| == 64 && AbcWords(Decode(block))
    ensures Compress(Registers(0x67452301, 0xefcdab89, 0x98badcfe, 0x10325476), block)
         == Registers(0x98500190, 0xb04fd23c, 0x7d3f96d6, 0x727fe128)
  {
    hide Operations, Decode, Add;
    var r := Registers(0x67452301, 0xefcdab89, 0x98badcfe, 0x10325476);
    var x := Decode(block);
    NoOperations(r, x);
    AbcOperations0(r, x);
    AbcOperations8(r, x);
    AbcOperations16(r, x);
    AbcOperations24(r, x);
    AbcOperations32(r, x);
    AbcOperations40(r, x);
    AbcOperations48(r, x);
    AbcOperations56(r, x);
    Sum(0x67452301, 0x310ade8f);
    Sum(0xefcdab89, 0xc08226b3);
    Sum(0x98badcfe, 0xe484b9d8);
    Sum(0x10325476, 0x624d8cb2);
  }

  function AbcText(): seq<Byte> {
    [0x61, 0x62, 0x63]
  }

  lemma AbcRegions(p: seq<Byte>)
    requires p == Padded(AbcText())
    ensures |p| == 64 && p[3] == 0x80 && (forall j :: 4 <= j < 56 ==> p[j] == 0)
    ensures p[56] == 0x18 && p[57] == 0x00 && (forall j :: 58 <= j < 64 ==> p[j] == 0)
    ensures p[0] == 0x61 && p[1] == 0x62 && p[2] == 0x63
  {
    hide Padded;
    PaddedRegions(AbcText(), 3, 52, 24, 0, 0x18, 0x00);
  }

  lemma AbcDecodes0(p: seq<Byte>)
    requires p == Padded(AbcText()) && |p| == 64
    ensures var x := Decode(p[0..64]);
            x[0] == 0x80636261 && x[14] == 0x00000018
  {
    hide Padded, Decode;
    AbcRegions(p);
    WordAt(p, 0, 0, 0x61, 0x62, 0x63, 0x80, 0x80636261);
    WordAt(p, 0, 14, 0x18, 0x00, 0x00, 0x00, 0x00000018);
  }

  lemma AbcDecodes1(p: seq<Byte>)
    requires p == Padded(AbcText()) && |p| == 64
    ensures var x := Decode(p[0..64]);
            x[15] == 0x00000000
  {
    hide Padded, Decode;
    AbcRegions(p);
    WordAt(p, 0, 15, 0x00, 0x00, 0x00, 0x00, 0x00000000);
  }

  lemma AbcDecodes(p: seq<Byte>)
    requires p == Padded(AbcText()) && |p| == 64
    ensures AbcWords(Decode(p[0..64]))
  {
    hide Padded, Decode;
    AbcRegions(p);
    AbcDecodes0(p);
    AbcDecodes1(p);
    ZeroWords(p, 0, 1, 14);
  }

  lemma DigestOfAbc()
    ensures Digest(AbcText())
         == [0x90, 0x01, 0x50, 0x98, 0x3c, 0xd2, 0x4f, 0xb0, 0xd6, 0x96, 0x3f, 0x7d, 0x28, 0xe1, 0x7f, 0x72]
  {
    hide Compress, Decode, Padded, Encode, EncodeWord, CompressAll, AbcWords;
    var p := Padded(AbcText());
    AbcRegions(p);
    AbcDecodes(p);
    AbcCompressed(p[0..64]);
    OneBlock(p);
    EncodedWord(0x98500190, 0x90, 0x01, 0x50, 0x98);
    EncodedWord(0xb04fd23c, 0x3c, 0xd2, 0x4f, 0xb0);
    EncodedWord(0x7d3f96d6, 0xd6, 0x96, 0x3f, 0x7d);
    EncodedWord(0x727fe128, 0x28, 0xe1, 0x7f, 0x72);
    Encoded(Registers(0x98500190, 0xb04fd23c, 0x7d3f96d6, 0x727fe128));
  }

  // ----- all letters and digits, in two blocks

  ghost predicate Alphanumeric1Words(x: seq<Word>) {
    && |x| == 16
    && x[0] == 0x44434241 && x[1] == 0x48474645 && x[2] == 0x4c4b4a49 && x[3] == 0x504f4e4d
    && x[4] == 0x54535251 && x[5] == 0x58575655 && x[6] == 0x62615a59 && x[7] == 0x66656463
    && x[8] == 0x6a696867 && x[9] == 0x6e6d6c6b && x[10] == 0x7271706f && x[11] == 0x76757473
    && x[12] == 0x7a797877 && x[13] == 0x33323130 && x[14] == 0x37363534 && x[15] == 0x00803938
  }

  lemma Alphanumeric1Operations0(r: Registers, x: seq<Word>)
    requires Alphanumeric1Words(x) && Operations(0, r, x) == Registers(0x67452301, 0xefcdab89, 0x98badcfe, 0x10325476)
    ensures Operations(8, r, x) == Registers(0xf22e6c4e, 0xa4799506, 0xa95a2fc0, 0xb4ac9218)
  {
    hide Operations, WordIndex, Sine, Shift;
    WordsOfRound1();
    ConstantsOfRound1();
    ShiftsOfRound1();
    Known1(0, r, x, 0, 0xd76aa478, 7, 0x67452301, 0xefcdab89, 0x98badcfe, 0x10325476,
           0x44434241, 0x98badcfe, 0xffffffff, 0x44434240, 0x1bade6b8, 0xd6f35c0d, 0xc6c10796);
    Known1(1, r, x, 1, 0xe8c7b756, 12, 0x10325476, 0xc6c10796, 0xefcdab89, 0x98badcfe,
           0x48474645, 0xdefbdbe8, 0xef2e305e, 0x377576a3, 0x203d2df9, 0xd2df9203, 0x99a09999);
    Known1(2, r, x, 2, 0x242070db, 17, 0x98badcfe, 0x99a09999, 0xc6c10796, 0xefcdab89,
           0x4c4b4a49, 0xe6cd2390, 0x7f88008e, 0xcbd34ad7, 0xeff3bbb2, 0x7765dfe7, 0x11067980);
    Known1(3, r, x, 3, 0xc1bdceee, 22, 0xefcdab89, 0x11067980, 0x99a09999, 0xc6c10796,
           0x504f4e4d, 0xd7c11f96, 0xc78ecb1f, 0x17de196c, 0xd99be85a, 0x16b666fa, 0x27bce07a);
    Known1(4, r, x, 4, 0xf57c0faf, 7, 0xc6c10796, 0x27bce07a, 0x11067980, 0x99a09999,
           0x54535251, 0x99047981, 0x5fc58117, 0xb418d368, 0xa994e317, 0xca718bd4, 0xf22e6c4e);
    Known1(5, r, x, 5, 0x4787c62a, 12, 0x99a09999, 0xf22e6c4e, 0x27bce07a, 0x11067980,
           0x58575655, 0x232c71ca, 0xbccd0b63, 0x152461b8, 0x5cac27e2, 0xc27e25ca, 0xb4ac9218);
    Known1(6, r, x, 6, 0xa8304613, 17, 0x11067980, 0xb4ac9218, 0xf22e6c4e, 0x27bce07a,
           0x62615a59, 0xb33c606a, 0xc442d9ea, 0x26a43443, 0xced47a56, 0xf4ad9da8, 0xa95a2fc0);
    Known1(7, r, x, 7, 0xfd469501, 22, 0x27bce07a, 0xa95a2fc0, 0xb4ac9218, 0xf22e6c4e,
           0x66656463, 0xf22c420e, 0x19e92288, 0x804e86eb, 0x7d951bec, 0xfb1f6546, 0xa4799506);
  }

  lemma Alphanumeric1Operations8(r: Registers, x: seq<Word>)
    requires Alphanumeric1Words(x) && Operations(8, r, x) == Registers(0xf22e6c4e, 0xa4799506, 0xa95a2fc0, 0xb4ac9218)
    ensures Operations(16, r, x) == Registers(0x3cbdcd45, 0x5d38e690, 0xfa148c8a, 0xb8dec763)
  {
    hide Operations, WordIndex, Sine, Shift;
    WordsOfRound1();
    ConstantsOfRound1();
    ShiftsOfRound1();
    Known1(8, r, x, 8, 0x698098d8, 7, 0xf22e6c4e, 0xa4799506, 0xa95a2fc0, 0xb4ac9218,
           0x6a696867, 0xb0dc0718, 0xa30a7366, 0x0d73dbcd, 0x76f474a5, 0x7a3a52bb, 0x1eb3e7c1);
    Known1(9, r, x, 9, 0x8b44f7af, 12, 0xb4ac9218, 0x1eb3e7c1, 0xa4799506, 0xa95a2fc0,
           0x6e6d6c6b, 0xa5798d00, 0x5a261f18, 0xc8938b83, 0x53d88332, 0x8833253d, 0xa6e70cfe);
    Known1(10, r, x, 10, 0xffff5bb1, 17, 0xa95a2fc0, 0xa6e70cfe, 0x1eb3e7c1, 0xa4799506,
           0x7271706f, 0x06bb95c0, 0xb015c580, 0x228735ef, 0x228691a0, 0x2340450d, 0xca27520b);
    Known1(11, r, x, 11, 0x895cd7be, 22, 0xa4799506, 0xca27520b, 0xa6e70cfe, 0x1eb3e7c1,
           0x76757473, 0x96b7a5ca, 0x3b313ad0, 0xb1a6af43, 0x3b038701, 0xc04ec0e1, 0x8a7612ec);
    Known1(12, r, x, 12, 0x6b901122, 7, 0x1eb3e7c1, 0x8a7612ec, 0xca27520b, 0xa6e70cfe,
           0x7a797877, 0xaea71e1a, 0xcd5b05db, 0x47d47e52, 0xb3648f74, 0xb247ba59, 0x3cbdcd45);
    Known1(13, r, x, 13, 0xfd987193, 12, 0xa6e70cfe, 0x3cbdcd45, 0x8a7612ec, 0xca27520b,
           0x33323130, 0xca36124e, 0x711d1f4c, 0xa44f507c, 0xa1e7c20f, 0x7c20fa1e, 0xb8dec763);
    Known1(14, r, x, 14, 0xa679438e, 17, 0xca27520b, 0xb8dec763, 0x3cbdcd45, 0x8a7612ec,
           0x37363534, 0x3abcd5cd, 0x04e427d8, 0x3c1a5d0c, 0xe293a09a, 0x4135c527, 0xfa148c8a);
    Known1(15, r, x, 15, 0x49b40821, 22, 0x8a7612ec, 0xfa148c8a, 0xb8dec763, 0x3cbdcd45,
           0x00803938, 0xbcbdc547, 0x4733d833, 0x47b4116b, 0x9168198c, 0x63245a06, 0x5d38e690);
  }

  lemma Alphanumeric1Operations16(r: Registers, x: seq<Word>)
    requires Alphanumeric1Words(x) && Operations(16, r, x) == Registers(0x3cbdcd45, 0x5d38e690, 0xfa148c8a, 0xb8dec763)
    ensures Operations(24, r, x) == Registers(0x2d7d8a3f, 0x75292030, 0x4b534dc3, 0xd1210823)
  {
    hide Operations, WordIndex, Sine, Shift;
    WordsOfRound2();
    ConstantsOfRound2();
    ShiftsOfRound2();
    Known2(16, r, x, 1, 0xf61e2562, 5, 0x3cbdcd45, 0x5d38e690, 0xfa148c8a, 0xb8dec763,
           0x48474645, 0x5a18ce88, 0x96d69bcd, 0xdf1de212, 0xd53c0774, 0xa780ee9a, 0x04b9d52a);
    Known2(17, r, x, 6, 0xc040b340, 9, 0xb8dec763, 0x04b9d52a, 0x5d38e690, 0xfa148c8a,
           0x62615a59, 0x0538e61a, 0xbe17ad7d, 0x207907d6, 0xe0b9bb16, 0x73762dc1, 0x783002eb);
    Known2(18, r, x, 11, 0x265e5a51, 14, 0xfa148c8a, 0x783002eb, 0x04b9d52a, 0x5d38e690,
           0x76757473, 0x58b113aa, 0x52c5a034, 0xc93b14a7, 0xef996ef8, 0x5bbe3be6, 0xd3ee3ed1);
    Known2(19, r, x, 0, 0xe9b6c7aa, 20, 0x5d38e690, 0xd3ee3ed1, 0x783002eb, 0x04b9d52a,
           0x44434241, 0x78a816c1, 0xd5e0fd51, 0x1a243f92, 0x03db073c, 0x73c03db0, 0x47ae7c81);
    Known2(20, r, x, 5, 0xd62f105d, 5, 0x04b9d52a, 0x47ae7c81, 0xd3ee3ed1, 0x783002eb,
           0x58575655, 0xc3ee3c91, 0xc8a811bb, 0x20ff6810, 0xf72e786d, 0xe5cf0dbe, 0x2d7d8a3f);
    Known2(21, r, x, 10, 0x02441453, 9, 0x783002eb, 0x2d7d8a3f, 0x47ae7c81, 0xd3ee3ed1,
           0x7271706f, 0x056c4a11, 0x7d9c4cfc, 0xf00dbd6b, 0xf251d1be, 0xa3a37de4, 0xd1210823);
    Known2(22, r, x, 15, 0xd8a1e681, 14, 0xd3ee3ed1, 0xd1210823, 0x2d7d8a3f, 0x47ae7c81,
           0x00803938, 0x69718a3f, 0x3d5fc910, 0x3de00248, 0x1681e8c9, 0x7a3245a0, 0x4b534dc3);
    Known2(23, r, x, 4, 0xe7d3fbc8, 20, 0x47ae7c81, 0x4b534dc3, 0xd1210823, 0x2d7d8a3f,
           0x54535251, 0xd9510803, 0x20ff8484, 0x7552d6d5, 0x5d26d29d, 0x29d5d26d, 0x75292030);
  }

  lemma Alphanumeric1Operations24(r: Registers, x: seq<Word>)
    requires Alphanumeric1Words(x) && Operations(24, r, x) == Registers(0x2d7d8a3f, 0x75292030, 0x4b534dc3, 0xd1210823)
    ensures Operations(32, r, x) == Registers(0x9b085fa9, 0xdd789ecc, 0x5993248f, 0x4400a9bd)
  {
    hide Operations, WordIndex, Sine, Shift;
    WordsOfRound2();
    ConstantsOfRound2();
    ShiftsOfRound2();
    Known2(24, r, x, 9, 0x21e1cde6, 5, 0x2d7d8a3f, 0x75292030, 0x4b534dc3, 0xd1210823,
           0x6e6d6c6b, 0x5b7345e0, 0x88f0d01f, 0xf75e3c8a, 0x19400a70, 0x28014e03, 0x9d2a6e33);
    Known2(25, r, x, 14, 0xc33707d6, 9, 0xd1210823, 0x9d2a6e33, 0x75292030, 0x4b534dc3,
           0x37363534, 0x3d2a6c33, 0x0e4b7456, 0x4581a98a, 0x08b8b160, 0x7162c011, 0x0e8d2e44);
    Known2(26, r, x, 3, 0xf4d50d87, 14, 0x4b534dc3, 0x0e8d2e44, 0x9d2a6e33, 0x75292030,
           0x504f4e4d, 0x8c0b6e03, 0xd75ebbc6, 0x27ae0a13, 0x1c83179a, 0xc5e68720, 0xd473b564);
    Known2(27, r, x, 8, 0x455a14ed, 20, 0x75292030, 0xd473b564, 0x0e8d2e44, 0x9d2a6e33,
           0x6a696867, 0x96a72464, 0x0bd04494, 0x7639acfb, 0xbb93c1e8, 0x1e8bb93c, 0xf2ff6ea0);
    Known2(28, r, x, 13, 0xa9e3e905, 5, 0x9d2a6e33, 0xf2ff6ea0, 0xd473b564, 0x0e8d2e44,
           0x33323130, 0xd2ffbf20, 0x702a2d53, 0xa35c5e83, 0x4d404788, 0xa808f109, 0x9b085fa9);
    Known2(29, r, x, 2, 0xfcefa3f8, 9, 0x0e8d2e44, 0x9b085fa9, 0xf2ff6ea0, 0xd473b564,
           0x4c4b4a49, 0xb28c5fa0, 0xc1198de4, 0x0d64d82d, 0x0a547c25, 0xa8f84a14, 0x4400a9bd);
    Known2(30, r, x, 7, 0x676f02d9, 14, 0xd473b564, 0x4400a9bd, 0x9b085fa9, 0xf2ff6ea0,
           0x66656463, 0x490039a9, 0x1d73ef0d, 0x83d95370, 0xeb485649, 0x15927ad2, 0x5993248f);
    Known2(31, r, x, 12, 0x8d2a4c8a, 20, 0xf2ff6ea0, 0x5993248f, 0x4400a9bd, 0x9b085fa9,
           0x7a797877, 0x5d00a49d, 0x5000133d, 0xca798bb4, 0x57a3d83e, 0x83e57a3d, 0xdd789ecc);
  }

  lemma Alphanumeric1Operations32(r: Registers, x: seq<Word>)
    requires Alphanumeric1Words(x) && Operations(32, r, x) == Registers(0x9b085fa9, 0xdd789ecc, 0x5993248f, 0x4400a9bd)
    ensures Operations(40, r, x) == Registers(0x436b7fe9, 0xcf0341ed, 0xf404c2f6, 0x075800c1)
  {
    hide Operations, WordIndex, Sine, Shift;
    WordsOfRound3();
    ConstantsOfRound3();
    ShiftsOfRound3();
    Known3(32, r, x, 5, 0xfffa3942, 4, 0x9b085fa9, 0xdd789ecc, 0x5993248f, 0x4400a9bd,
           0x58575655, 0xc0eb13fe, 0x5bf373a7, 0xb44ac9fc, 0xb445033e, 0x445033eb, 0x21c8d2b7);
    Known3(33, r, x, 8, 0x8771f681, 11, 0x4400a9bd, 0x21c8d2b7, 0xdd789ecc, 0x5993248f,
           0x6a696867, 0xa52368f4, 0xe92412b1, 0x538d7b18, 0xdaff7199, 0xfb8cced7, 0x1d55a18e);
    Known3(34, r, x, 11, 0x6d9d6122, 16, 0x5993248f, 0x1d55a18e, 0x21c8d2b7, 0xdd789ecc,
           0x76757473, 0xe1e5edf5, 0x3b791284, 0xb1ee86f7, 0x1f8be819, 0xe8191f8b, 0x056ec119);
    Known3(35, r, x, 14, 0xfde5380c, 23, 0xdd789ecc, 0x056ec119, 0x1d55a18e, 0x21c8d2b7,
           0x37363534, 0x39f3b220, 0x176c50ec, 0x4ea28620, 0x4c87be2c, 0x162643df, 0x1b9504f8);
    Known3(36, r, x, 1, 0xa4beea44, 4, 0x21c8d2b7, 0x1b9504f8, 0x056ec119, 0x1d55a18e,
           0x48474645, 0x03ae646f, 0x25773726, 0x6dbe7d6b, 0x127d67af, 0x27d67af1, 0x436b7fe9);
    Known3(37, r, x, 4, 0x4bdecfa9, 11, 0x1d55a18e, 0x436b7fe9, 0x1b9504f8, 0x056ec119,
           0x54535251, 0x5d90ba08, 0x7ae65b96, 0xcf39ade7, 0x1b187d90, 0xc3ec80d8, 0x075800c1);
    Known3(38, r, x, 7, 0xf6bb4b60, 16, 0x056ec119, 0x075800c1, 0x436b7fe9, 0x1b9504f8,
           0x66656463, 0x5fa67bd0, 0x65153ce9, 0xcb7aa14c, 0xc235ecac, 0xecacc235, 0xf404c2f6);
    Known3(39, r, x, 10, 0xbebfbc70, 23, 0x1b9504f8, 0xf404c2f6, 0x075800c1, 0x436b7fe9,
           0x7271706f, 0xb037bdde, 0xcbccc2d6, 0x3e3e3345, 0xfcfdefb5, 0xdafe7ef7, 0xcf0341ed);
  }

  lemma Alphanumeric1Operations40(r: Registers, x: seq<Word>)
    requires Alphanumeric1Words(x) && Operations(40, r, x) == Registers(0x436b7fe9, 0xcf0341ed, 0xf404c2f6, 0x075800c1)
    ensures Operations(48, r, x) == Registers(0x2dbee21d, 0xf166f514, 0xee46e961, 0xe95c3a43)
  {
    hide Operations, WordIndex, Sine, Shift;
    WordsOfRound3();
    ConstantsOfRound3();
    ShiftsOfRound3();
    Known3(40, r, x, 13, 0x289b7ec6, 4, 0x436b7fe9, 0xcf0341ed, 0xf404c2f6, 0x075800c1,
           0x33323130, 0x3c5f83da, 0x7fcb03c3, 0xb2fd34f3, 0xdb98b3b9, 0xb98b3b9d, 0x888e7d8a);
    Known3(41, r, x, 0, 0xeaa127fa, 11, 0x075800c1, 0x888e7d8a, 0xcf0341ed, 0xf404c2f6,
           0x44434241, 0xb389fe91, 0xbae1ff52, 0xff254193, 0xe9c6698d, 0x334c6f4e, 0xbbdaecd8);
    Known3(42, r, x, 3, 0xd4ef3085, 16, 0xf404c2f6, 0xbbdaecd8, 0x888e7d8a, 0xcf0341ed,
           0x504f4e4d, 0xfc57d0bf, 0xf05c93b5, 0x40abe202, 0x159b1287, 0x1287159b, 0xce620273);
    Known3(43, r, x, 6, 0x04881d05, 23, 0xcf0341ed, 0xce620273, 0xbbdaecd8, 0x888e7d8a,
           0x62615a59, 0xfd369321, 0xcc39d50e, 0x2e9b2f67, 0x33234c6c, 0x361991a6, 0x047b9419);
    Known3(44, r, x, 9, 0xd9d4d039, 4, 0x888e7d8a, 0x047b9419, 0xce620273, 0xbbdaecd8,
           0x6e6d6c6b, 0x71c37ab2, 0xfa51f83c, 0x68bf64a7, 0x429434e0, 0x29434e04, 0x2dbee21d);
    Known3(45, r, x, 12, 0xe6db99e5, 11, 0xbbdaecd8, 0x2dbee21d, 0x047b9419, 0xce620273,
           0x7a797877, 0xe7a77477, 0xa382614f, 0x1dfbd9c6, 0x04d773ab, 0xbb9d5826, 0xe95c3a43);
    Known3(46, r, x, 15, 0x1fa27cf8, 16, 0xce620273, 0xe95c3a43, 0x2dbee21d, 0x047b9419,
           0x00803938, 0xc0994c47, 0x8efb4eba, 0x8f7b87f2, 0xaf1e04ea, 0x04eaaf1e, 0xee46e961);
    Known3(47, r, x, 2, 0xc4ac5665, 23, 0x047b9419, 0xee46e961, 0xe95c3a43, 0x2dbee21d,
           0x4c4b4a49, 0x2aa4313f, 0x2f1fc558, 0x7b6b0fa1, 0x40176606, 0x03200bb3, 0xf166f514);
  }

  lemma Alphanumeric1Operations48(r: Registers, x: seq<Word>)
    requires Alphanumeric1Words(x) && Operations(48, r, x) == Registers(0x2dbee21d, 0xf166f514, 0xee46e961, 0xe95c3a43)
    ensures Operations(56, r, x) == Registers(0xa691d430, 0xefb0e72f, 0x3fc23df6, 0x528452f2)
  {
    hide Operations, WordIndex, Sine, Shift;
    WordsOfRound4();
    ConstantsOfRound4();
    ShiftsOfRound4();
    Known4(48, r, x, 0, 0xf4292244, 6, 0x2dbee21d, 0xf166f514, 0xee46e961, 0xe95c3a43,
           0x44434241, 0x19a11cdd, 0x475ffefa, 0x8ba3413b, 0x7fcc637f, 0xf318dfdf, 0xe47fd4f3);
    Known4(49, r, x, 7, 0x432aff97, 10, 0xe95c3a43, 0xe47fd4f3, 0xf166f514, 0xee46e961,
           0x66656463, 0x049923eb, 0xedf55e2e, 0x545ac291, 0x9785c228, 0x1708a25e, 0xfb887751);
    Known4(50, r, x, 14, 0xab9423a7, 15, 0xee46e961, 0xfb887751, 0xe47fd4f3, 0xf166f514,
           0x37363534, 0x1be6ab08, 0x0a2d9469, 0x4163c99d, 0xecf7ed44, 0xf6a2767b, 0xf22aedcc);
    Known4(51, r, x, 5, 0xfc93a039, 21, 0xf166f514, 0xf22aedcc, 0xfb887751, 0xe47fd4f3,
           0x58575655, 0x0022989d, 0xf1898db1, 0x49e0e406, 0x4674843f, 0x87e8ce90, 0x7a13bc5c);
    Known4(52, r, x, 12, 0x655b59c3, 6, 0xe47fd4f3, 0x7a13bc5c, 0xf22aedcc, 0xfb887751,
           0x7a797877, 0x8c5d5132, 0x70dd2625, 0xeb569e9c, 0x50b1f85f, 0x2c7e17d4, 0xa691d430);
    Known4(53, r, x, 3, 0x8f0ccc92, 10, 0xfb887751, 0xa691d430, 0x7a13bc5c, 0xf22aedcc,
           0x504f4e4d, 0xd5c66a6f, 0xd14ee1c0, 0x219e300d, 0xb0aafc9f, 0xabf27ec2, 0x528452f2);
    Known4(54, r, x, 10, 0xffeff47d, 15, 0xf22aedcc, 0x528452f2, 0xa691d430, 0x7a13bc5c,
           0x7271706f, 0x717d87c3, 0x63a8758f, 0xd619e5fe, 0xd609da7b, 0xed3deb04, 0x3fc23df6);
    Known4(55, r, x, 1, 0x85845dd1, 21, 0x7a13bc5c, 0x3fc23df6, 0x528452f2, 0xa691d430,
           0x48474645, 0x2d6a6d0d, 0xa77e2969, 0xefc56fae, 0x7549cd7f, 0xafeea939, 0xefb0e72f);
  }

  lemma Alphanumeric1Operations56(r: Registers, x: seq<Word>)
    requires Alphanumeric1Words(x) && Operations(56, r, x) == Registers(0xa691d430, 0xefb0e72f, 0x3fc23df6, 0x528452f2)
    ensures Operations(64, r, x) == Registers(0x1cb80f0a, 0xef2e3a46, 0x10f68731, 0xea3d3eb4)
  {
    hide Operations, WordIndex, Sine, Shift;
    WordsOfRound4();
    ConstantsOfRound4();
    ShiftsOfRound4();
    Known4(56, r, x, 8, 0x6fa87e4f, 6, 0xa691d430, 0xefb0e72f, 0x3fc23df6, 0x528452f2,
           0x6a696867, 0xd039d2d9, 0x76cba709, 0xe1350f70, 0x50dd8dbf, 0x37636fd4, 0x27145703);
    Known4(57, r, x, 15, 0xfe2ce6e0, 10, 0x528452f2, 0x27145703, 0xefb0e72f, 0x3fc23df6,
           0x00803938, 0x088d3024, 0x5b118316, 0x5b91bc4e, 0x59bea32e, 0xfa8cb966, 0x21a11069);
    Known4(58, r, x, 6, 0xa3014314, 15, 0x3fc23df6, 0x21a11069, 0x27145703, 0xefb0e72f,
           0x62615a59, 0x16fb4ffa, 0x56bd8df0, 0xb91ee849, 0x5c202b5d, 0x15aeae10, 0x374fbe79);
    Known4(59, r, x, 13, 0x4e0811a1, 21, 0xefb0e72f, 0x374fbe79, 0x21a11069, 0x27145703,
           0x33323130, 0xde4eae94, 0xcdff95c3, 0x0131c6f3, 0x4f39d894, 0x1289e73b, 0x49d9a5b4);
    Known4(60, r, x, 4, 0xf7537e82, 6, 0x27145703, 0x49d9a5b4, 0x374fbe79, 0x21a11069,
           0x54535251, 0xe89051cf, 0x0fa4a8d2, 0x63f7fb23, 0x5b4b79a5, 0xd2de6956, 0x1cb80f0a);
    Known4(61, r, x, 11, 0xbd3af235, 10, 0x21a11069, 0x1cb80f0a, 0x49d9a5b4, 0x374fbe79,
           0x76757473, 0x9561ea3a, 0xb702faa3, 0x2d786f16, 0xeab3614b, 0xcd852faa, 0xea3d3eb4);
    Known4(62, r, x, 2, 0x2ad7d2bb, 15, 0x374fbe79, 0xea3d3eb4, 0x1cb80f0a, 0x49d9a5b4,
           0x4c4b4a49, 0xe28771f5, 0x19d7306e, 0x66227ab7, 0x90fa4d72, 0x26b9487d, 0x10f68731);
    Known4(63, r, x, 9, 0xeb86d391, 21, 0x49d9a5b4, 0x10f68731, 0xea3d3eb4, 0x1cb80f0a,
           0x6e6d6c6b, 0x19cac941, 0x63a46ef5, 0xd211db60, 0xbd98aef1, 0xde37b315, 0xef2e3a46);
  }

  lemma Alphanumeric1Compressed(block: seq<Byte>)
    requires |block| == 64 && Alphanumeric1Words(Decode(block))
    ensures Compress(Registers(0x67452301, 0xefcdab89, 0x98badcfe, 0x10325476), block)
         == Registers(0x83fd320b, 0xdefbe5cf, 0xa9b1642f, 0xfa6f932a)
  {
    hide Operations, Decode, Add;
    var r := Registers(0x67452301, 0xefcdab89, 0x98badcfe, 0x10325476);
    var x := Decode(block);
    NoOperations(r, x);
    Alphanumeric1Operations0(r, x);
    Alphanumeric1Operations8(r, x);
    Alphanumeric1Operations16(r, x);
    Alphanumeric1Operations24(r, x);
    Alphanumeric1Operations32(r, x);
    Alphanumeric1Operations40(r, x);
    Alphanumeric1Operations48(r, x);
    Alphanumeric1Operations56(r, x);
    Sum(0x67452301, 0x1cb80f0a);
    Sum(0xefcdab89, 0xef2e3a46);
    Sum(0x98badcfe, 0x10f68731);
    Sum(0x10325476, 0xea3d3eb4);
  }

  ghost predicate Alphanumeric2Words(x: seq<Word>) {
    && |x| == 16
    && x[0] == 0x00000000 && x[1] == 0x00000000 && x[2] == 0x00000000 && x[3] == 0x00000000
    && x[4] == 0x00000000 && x[5] == 0x00000000 && x[6] == 0x00000000 && x[7] == 0x00000000
    && x[8] == 0x00000000 && x[9] == 0x00000000 && x[10] == 0x00000000 && x[11] == 0x00000000
    && x[12] == 0x00000000 && x[13] == 0x00000000 && x[14] == 0x000001f0 && x[15] == 0x00000000
  }

  lemma Alphanumeric2Operations0(r: Registers, x: seq<Word>)
    requires Alphanumeric2Words(x) && Operations(0, r, x) == Registers(0x83fd320b, 0xdefbe5cf, 0xa9b1642f, 0xfa6f932a)
    ensures Operations(8, r, x) == Registers(0x75144433, 0x99b6b699, 0xc783cb60, 0xc8875807)
  {
    hide Operations, WordIndex, Sine, Shift;
    WordsOfRound1();
    ConstantsOfRound1();
    ShiftsOfRound1();
    Known1(0, r, x, 0, 0xd76aa478, 7, 0x83fd320b, 0xdefbe5cf, 0xa9b1642f, 0xfa6f932a,
           0x00000000, 0xa8b5762f, 0x2cb2a83a, 0x2cb2a83a, 0x041d4cb2, 0x0ea65902, 0xeda23ed1);
    Known1(1, r, x, 1, 0xe8c7b756, 12, 0xfa6f932a, 0xeda23ed1, 0xdefbe5cf, 0xa9b1642f,
           0x00000000, 0xccb364ef, 0xc722f819, 0xc722f819, 0xafeaaf6f, 0xaaf6fafe, 0x989939cf);
    Known1(2, r, x, 2, 0x242070db, 17, 0xa9b1642f, 0x989939cf, 0xeda23ed1, 0xdefbe5cf,
           0x00000000, 0xcee2fcc1, 0x789460f0, 0x789460f0, 0x9cb4d1cb, 0xa3973969, 0x3c307338);
    Known1(3, r, x, 3, 0xc1bdceee, 22, 0xdefbe5cf, 0x3c307338, 0x989939cf, 0xeda23ed1,
           0x00000000, 0xd9923dc9, 0xb88e2398, 0xb88e2398, 0x7a4bf286, 0xa19e92fc, 0xddcf0634);
    Known1(4, r, x, 4, 0xf57c0faf, 7, 0xeda23ed1, 0xddcf0634, 0x3c307338, 0x989939cf,
           0x00000000, 0x1c103bfb, 0x09b27acc, 0x09b27acc, 0xff2e8a7b, 0x97453dff, 0x75144433);
    Known1(5, r, x, 5, 0x4787c62a, 12, 0x989939cf, 0x75144433, 0xddcf0634, 0x3c307338,
           0x00000000, 0x5d243738, 0xf5bd7107, 0xf5bd7107, 0x3d453731, 0x537313d4, 0xc8875807);
    Known1(6, r, x, 6, 0xa8304613, 17, 0x3c307338, 0xc8875807, 0x75144433, 0xddcf0634,
           0x00000000, 0x554c4633, 0x917cb96b, 0x917cb96b, 0x39acff7e, 0xfefc7359, 0xc783cb60);
    Known1(7, r, x, 7, 0xfd469501, 22, 0xddcf0634, 0xc783cb60, 0xc8875807, 0x75144433,
           0x00000000, 0xf0974c13, 0xce665247, 0xce665247, 0xcbace748, 0xd232eb39, 0x99b6b699);
  }

  lemma Alphanumeric2Operations8(r: Registers, x: seq<Word>)
    requires Alphanumeric2Words(x) && Operations(8, r, x) == Registers(0x75144433, 0x99b6b699, 0xc783cb60, 0xc8875807)
    ensures Operations(16, r, x) == Registers(0xa70737da, 0xa36f556f, 0x96f6586e, 0x5473f8a7)
  {
    hide Operations, WordIndex, Sine, Shift;
    WordsOfRound1();
    ConstantsOfRound1();
    ShiftsOfRound1();
    Known1(8, r, x, 8, 0x698098d8, 7, 0x75144433, 0x99b6b699, 0xc783cb60, 0xc8875807,
           0x00000000, 0xc183ca06, 0x36980e39, 0x36980e39, 0xa018a711, 0x0c5388d0, 0xa60a3f69);
    Known1(9, r, x, 9, 0x8b44f7af, 12, 0xc8875807, 0xa60a3f69, 0x99b6b699, 0xc783cb60,
           0x00000000, 0xc183f609, 0x8a0b4e10, 0x8a0b4e10, 0x155045bf, 0x045bf155, 0xaa6630be);
    Known1(10, r, x, 10, 0xffff5bb1, 17, 0xc783cb60, 0xaa6630be, 0xa60a3f69, 0x99b6b699,
           0x00000000, 0xb392b629, 0x7b168189, 0x7b168189, 0x7b15dd3a, 0xba74f62b, 0x64db26e9);
    Known1(11, r, x, 11, 0x895cd7be, 22, 0x99b6b699, 0x64db26e9, 0xaa6630be, 0xa60a3f69,
           0x00000000, 0xa24239a8, 0x3bf8f041, 0x3bf8f041, 0xc555c7ff, 0xfff15571, 0x64cc7c5a);
    Known1(12, r, x, 12, 0x6b901122, 7, 0xa60a3f69, 0x64cc7c5a, 0x64db26e9, 0xaa6630be,
           0x00000000, 0xeeea24ec, 0x94f46455, 0x94f46455, 0x00847577, 0x423abb80, 0xa70737da);
    Known1(13, r, x, 13, 0xfd987193, 12, 0xaa6630be, 0xa70737da, 0x64cc7c5a, 0x64db26e9,
           0x00000000, 0x64dc347b, 0x0f426539, 0x0f426539, 0x0cdad6cc, 0xad6cc0cd, 0x5473f8a7);
    Known1(14, r, x, 14, 0xa679438e, 17, 0x64db26e9, 0x5473f8a7, 0xa70737da, 0x64cc7c5a,
           0x000001f0, 0x248f34da, 0x896a5bc3, 0x896a5db3, 0x2fe3a141, 0x42825fc7, 0x96f6586e);
    Known1(15, r, x, 15, 0x49b40821, 22, 0x64cc7c5a, 0x96f6586e, 0x5473f8a7, 0xa70737da,
           0x00000000, 0x35737fb6, 0x9a3ffc10, 0x9a3ffc10, 0xe3f40431, 0x0c78fd01, 0xa36f556f);
  }

  lemma Alphanumeric2Operations16(r: Registers, x: seq<Word>)
    requires Alphanumeric2Words(x) && Operations(16, r, x) == Registers(0xa70737da, 0xa36f556f, 0x96f6586e, 0x5473f8a7)
    ensures Operations(24, r, x) == Registers(0xe04f070c, 0xdf35cb56, 0xc0d22b61, 0x2f3cd2a2)
  {
    hide Operations, WordIndex, Sine, Shift;
    WordsOfRound2();
    ConstantsOfRound2();
    ShiftsOfRound2();
    Known2(16, r, x, 1, 0xf61e2562, 5, 0xa70737da, 0xa36f556f, 0x96f6586e, 0x5473f8a7,
           0x00000000, 0x82e7506f, 0x29ee8849, 0x29ee8849, 0x200cadab, 0x0195b564, 0xa5050ad3);
    Known2(17, r, x, 6, 0xc040b340, 9, 0x5473f8a7, 0xa5050ad3, 0xa36f556f, 0x96f6586e,
           0x00000000, 0xa50d0d43, 0xf98105ea, 0xf98105ea, 0xb9c1b92a, 0x83725573, 0x28776046);
    Known2(18, r, x, 11, 0x265e5a51, 14, 0x96f6586e, 0x28776046, 0xa5050ad3, 0xa36f556f,
           0x00000000, 0x24674ad6, 0xbb5da344, 0xbb5da344, 0xe1bbfd95, 0xff65786e, 0x27dcd8b4);
    Known2(19, r, x, 0, 0xe9b6c7aa, 20, 0xa36f556f, 0x27dcd8b4, 0x28776046, 0xa5050ad3,
           0x00000000, 0x2d766894, 0xd0e5be03, 0xd0e5be03, 0xba9c85ad, 0x5adba9c8, 0x82b8827c);
    Known2(20, r, x, 5, 0xd62f105d, 5, 0xa5050ad3, 0x82b8827c, 0x27dcd8b4, 0x28776046,
           0x00000000, 0x07b898f4, 0xacbda3c7, 0xacbda3c7, 0x82ecb424, 0x5d968490, 0xe04f070c);
    Known2(21, r, x, 10, 0x02441453, 9, 0x28776046, 0xe04f070c, 0x82b8827c, 0x27dcd8b4,
           0x00000000, 0xa06c024c, 0xc8e36292, 0xc8e36292, 0xcb2776e5, 0x4eedcb96, 0x2f3cd2a2);
    Known2(22, r, x, 15, 0xd8a1e681, 14, 0x27dcd8b4, 0x2f3cd2a2, 0xe04f070c, 0x82b8827c,
           0x00000000, 0x627f8720, 0x8a5c5fd4, 0x8a5c5fd4, 0x62fe4655, 0x919558bf, 0xc0d22b61);
    Known2(23, r, x, 4, 0xe7d3fbc8, 20, 0x82b8827c, 0xc0d22b61, 0x2f3cd2a2, 0xe04f070c,
           0x00000000, 0xcf72d3a2, 0x522b561e, 0x522b561e, 0x39ff51e6, 0x1e639ff5, 0xdf35cb56);
  }

  lemma Alphanumeric2Operations24(r: Registers, x: seq<Word>)
    requires Alphanumeric2Words(x) && Operations(24, r, x) == Registers(0xe04f070c, 0xdf35cb56, 0xc0d22b61, 0x2f3cd2a2)
    ensures Operations(32, r, x) == Registers(0x24eba695, 0x9c03e2e8, 0x10c42a2f, 0x4bd0378b)
  {
    hide Operations, WordIndex, Sine, Shift;
    WordsOfRound2();
    ConstantsOfRound2();
    ShiftsOfRound2();
    Known2(24, r, x, 9, 0x21e1cde6, 5, 0xe04f070c, 0xdf35cb56, 0xc0d22b61, 0x2f3cd2a2,
           0x00000000, 0xcff6eb43, 0xb045f24f, 0xb045f24f, 0xd227c035, 0x44f806ba, 0x242dd210);
    Known2(25, r, x, 14, 0xc33707d6, 9, 0x2f3cd2a2, 0x242dd210, 0xdf35cb56, 0xc0d22b61,
           0x000001f0, 0x1f25c216, 0x4e6294b8, 0x4e6296a8, 0x11999e7e, 0x333cfc23, 0x576ace33);
    Known2(26, r, x, 3, 0xf4d50d87, 14, 0xc0d22b61, 0x576ace33, 0x242dd210, 0xdf35cb56,
           0x00000000, 0x7728da12, 0x37fb0573, 0x37fb0573, 0x2cd012fa, 0x04be8b34, 0x5c295967);
    Known2(27, r, x, 8, 0x455a14ed, 20, 0xdf35cb56, 0x5c295967, 0x576ace33, 0x242dd210,
           0x00000000, 0x576b5c23, 0x36a12779, 0x36a12779, 0x7bfb3c66, 0xc667bfb3, 0x2291191a);
    Known2(28, r, x, 13, 0xa9e3e905, 5, 0x242dd210, 0x2291191a, 0x5c295967, 0x576ace33,
           0x00000000, 0x0a011956, 0x2e2eeb66, 0x2e2eeb66, 0xd812d46b, 0x025a8d7b, 0x24eba695);
    Known2(29, r, x, 2, 0xfcefa3f8, 9, 0x576ace33, 0x24eba695, 0x2291191a, 0x5c295967,
           0x00000000, 0x26b9001d, 0x7e23ce50, 0x7e23ce50, 0x7b137248, 0x26e490f6, 0x4bd0378b);
    Known2(30, r, x, 7, 0x676f02d9, 14, 0x5c295967, 0x4bd0378b, 0x24eba695, 0x2291191a,
           0x00000000, 0x06fab78f, 0x632410f6, 0x632410f6, 0xca9313cf, 0xc4f3f2a4, 0x10c42a2f);
    Known2(31, r, x, 12, 0x8d2a4c8a, 20, 0x2291191a, 0x10c42a2f, 0x4bd0378b, 0x24eba695,
           0x00000000, 0x4bd0330f, 0x6e614c29, 0x6e614c29, 0xfb8b98b3, 0x8b3fb8b9, 0x9c03e2e8);
  }

  lemma Alphanumeric2Operations32(r: Registers, x: seq<Word>)
    requires Alphanumeric2Words(x) && Operations(32, r, x) == Registers(0x24eba695, 0x9c03e2e8, 0x10c42a2f, 0x4bd0378b)
    ensures Operations(40, r, x) == Registers(0xe14e403d, 0xfe314121, 0x60cc183a, 0xe8cfd670)
  {
    hide Operations, WordIndex, Sine, Shift;
    WordsOfRound3();
    ConstantsOfRound3();
    ShiftsOfRound3();
    Known3(32, r, x, 5, 0xfffa3942, 4, 0x24eba695, 0x9c03e2e8, 0x10c42a2f, 0x4bd0378b,
           0x00000000, 0xc717ff4c, 0xec03a5e1, 0xec03a5e1, 0xebfddf23, 0xbfddf23e, 0x5be1d526);
    Known3(33, r, x, 8, 0x8771f681, 11, 0x4bd0378b, 0x5be1d526, 0x9c03e2e8, 0x10c42a2f,
           0x00000000, 0xd7261de1, 0x22f6556c, 0x22f6556c, 0xaa684bed, 0x425f6d53, 0x9e414279);
    Known3(34, r, x, 11, 0x6d9d6122, 16, 0x10c42a2f, 0x9e414279, 0x5be1d526, 0x9c03e2e8,
           0x00000000, 0x59a375b7, 0x6a679fe6, 0x6a679fe6, 0xd8050108, 0x0108d805, 0x9f4a1a7e);
    Known3(35, r, x, 14, 0xfde5380c, 23, 0x9c03e2e8, 0x9f4a1a7e, 0x9e414279, 0x5be1d526,
           0x000001f0, 0x5aea8d21, 0xf6ee7009, 0xf6ee71f9, 0xf4d3aa05, 0x02fa69d5, 0xa2448453);
    Known3(36, r, x, 1, 0xa4beea44, 4, 0x5be1d526, 0xa2448453, 0x9f4a1a7e, 0x9e414279,
           0x00000000, 0xa34fdc54, 0xff31b17a, 0xff31b17a, 0xa3f09bbe, 0x3f09bbea, 0xe14e403d);
    Known3(37, r, x, 4, 0x4bdecfa9, 11, 0x9e414279, 0xe14e403d, 0xa2448453, 0x9f4a1a7e,
           0x00000000, 0xdc40de10, 0x7a822089, 0x7a822089, 0xc660f032, 0x07819633, 0xe8cfd670);
    Known3(38, r, x, 7, 0xf6bb4b60, 16, 0x9f4a1a7e, 0xe8cfd670, 0xe14e403d, 0xa2448453,
           0x00000000, 0xabc5121e, 0x4b0f2c9c, 0x4b0f2c9c, 0x41ca77fc, 0x77fc41ca, 0x60cc183a);
    Known3(39, r, x, 10, 0xbebfbc70, 23, 0xa2448453, 0x60cc183a, 0xe8cfd670, 0xe14e403d,
           0x00000000, 0x694d8e77, 0x0b9212ca, 0x0b9212ca, 0xca51cf3a, 0x9d6528e7, 0xfe314121);
  }

  lemma Alphanumeric2Operations40(r: Registers, x: seq<Word>)
    requires Alphanumeric2Words(x) && Operations(40, r, x) == Registers(0xe14e403d, 0xfe314121, 0x60cc183a, 0xe8cfd670)
    ensures Operations(48, r, x) == Registers(0x54c9eb3a, 0x79c0710a, 0x2ec86f72, 0xd4d9c6ac)
  {
    hide Operations, WordIndex, Sine, Shift;
    WordsOfRound3();
    ConstantsOfRound3();
    ShiftsOfRound3();
    Known3(40, r, x, 13, 0x289b7ec6, 4, 0xe14e403d, 0xfe314121, 0x60cc183a, 0xe8cfd670,
           0x00000000, 0x76328f6b, 0x5780cfa8, 0x5780cfa8, 0x801c4e6e, 0x01c4e6e8, 0xfff62809);
    Known3(41, r, x, 0, 0xeaa127fa, 11, 0xe8cfd670, 0xfff62809, 0xfe314121, 0x60cc183a,
           0x00000000, 0x610b7112, 0x49db4782, 0x49db4782, 0x347c6f7c, 0xe37be1a3, 0xe37209ac);
    Known3(42, r, x, 3, 0xd4ef3085, 16, 0x60cc183a, 0xe37209ac, 0xfff62809, 0xfe314121,
           0x00000000, 0xe2b56084, 0x438178be, 0x438178be, 0x1870a943, 0xa9431870, 0x8cb5221c);
    Known3(43, r, x, 6, 0x04881d05, 23, 0xfe314121, 0x8cb5221c, 0xe37209ac, 0xfff62809,
           0x00000000, 0x903103b9, 0x8e6244da, 0x8e6244da, 0x92ea61df, 0xefc97530, 0x7c7e974c);
    Known3(44, r, x, 9, 0xd9d4d039, 4, 0xfff62809, 0x7c7e974c, 0x8cb5221c, 0xe37209ac,
           0x00000000, 0x13b9bcfc, 0x13afe505, 0x13afe505, 0xed84b53e, 0xd84b53ee, 0x54c9eb3a);
    Known3(45, r, x, 12, 0xe6db99e5, 11, 0xe37209ac, 0x54c9eb3a, 0x7c7e974c, 0x8cb5221c,
           0x00000000, 0xa4025e6a, 0x87746816, 0x87746816, 0x6e5001fb, 0x800fdb72, 0xd4d9c6ac);
    Known3(46, r, x, 15, 0x1fa27cf8, 16, 0x8cb5221c, 0xd4d9c6ac, 0x54c9eb3a, 0x7c7e974c,
           0x00000000, 0xfc6ebada, 0x8923dcf6, 0x8923dcf6, 0xa8c659ee, 0x59eea8c6, 0x2ec86f72);
    Known3(47, r, x, 2, 0xc4ac5665, 23, 0x7c7e974c, 0x2ec86f72, 0xd4d9c6ac, 0x54c9eb3a,
           0x00000000, 0xaed842e4, 0x2b56da30, 0x2b56da30, 0xf0033095, 0x4af80198, 0x79c0710a);
  }

  lemma Alphanumeric2Operations48(r: Registers, x: seq<Word>)
    requires Alphanumeric2Words(x) && Operations(48, r, x) == Registers(0x54c9eb3a, 0x79c0710a, 0x2ec86f72, 0xd4d9c6ac)
    ensures Operations(56, r, x) == Registers(0xe126c1aa, 0xfb7bcee0, 0x6f287ff5, 0x96b00fa7)
  {
    hide Operations, WordIndex, Sine, Shift;
    WordsOfRound4();
    ConstantsOfRound4();
    ShiftsOfRound4();
    Known4(48, r, x, 0, 0xf4292244, 6, 0x54c9eb3a, 0x79c0710a, 0x2ec86f72, 0xd4d9c6ac,
           0x00000000, 0x552e1629, 0xa9f80163, 0xa9f80163, 0x9e2123a7, 0x8848e9e7, 0x02095af1);
    Known4(49, r, x, 7, 0x432aff97, 10, 0xd4d9c6ac, 0x02095af1, 0x79c0710a, 0x2ec86f72,
           0x00000000, 0xaaffabf7, 0x7fd972a3, 0x7fd972a3, 0xc304723a, 0x11c8eb0c, 0x13d245fd);
    Known4(50, r, x, 14, 0xab9423a7, 15, 0x2ec86f72, 0x13d245fd, 0x02095af1, 0x79c0710a,
           0x000001f0, 0x95f6950c, 0xc4bf047e, 0xc4bf066e, 0x70532a15, 0x950ab829, 0xa8dcfe26);
    Known4(51, r, x, 5, 0xfc93a039, 21, 0x79c0710a, 0xa8dcfe26, 0x13d245fd, 0x02095af1,
           0x00000000, 0xee2cbad3, 0x67ed2bdd, 0x67ed2bdd, 0x6480cc16, 0x82cc9019, 0x2ba98e3f);
    Known4(52, r, x, 12, 0x655b59c3, 6, 0x02095af1, 0x2ba98e3f, 0xa8dcfe26, 0x13d245fd,
           0x00000000, 0x47714019, 0x497a9b0a, 0x497a9b0a, 0xaed5f4cd, 0xb57d336b, 0xe126c1aa);
    Known4(53, r, x, 3, 0x8f0ccc92, 10, 0x13d245fd, 0xe126c1aa, 0x2ba98e3f, 0xa8dcfe26,
           0x00000000, 0xdc8e4fc4, 0xf06095c1, 0xf06095c1, 0x7f6d6253, 0xb5894dfd, 0x96b00fa7);
    Known4(54, r, x, 10, 0xffeff47d, 15, 0xa8dcfe26, 0x96b00fa7, 0xe126c1aa, 0x2ba98e3f,
           0x00000000, 0x37d0be4d, 0xe0adbc73, 0xe0adbc73, 0xe09db0f0, 0xd878704e, 0x6f287ff5);
    Known4(55, r, x, 1, 0x85845dd1, 21, 0x2ba98e3f, 0x6f287ff5, 0x96b00fa7, 0xe126c1aa,
           0x00000000, 0xe9497052, 0x14f2fe91, 0x14f2fe91, 0x9a775c62, 0x8c534eeb, 0xfb7bcee0);
  }

  lemma Alphanumeric2Operations56(r: Registers, x: seq<Word>)
    requires Alphanumeric2Words(x) && Operations(56, r, x) == Registers(0xe126c1aa, 0xfb7bcee0, 0x6f287ff5, 0x96b00fa7)
    ensures Operations(64, r, x) == Registers(0x14ae42c6, 0x16dd9203, 0x826afd76, 0xa52dae75)
  {
    hide Operations, WordIndex, Sine, Shift;
    WordsOfRound4();
    ConstantsOfRound4();
    ShiftsOfRound4();
    Known4(56, r, x, 8, 0x6fa87e4f, 6, 0xe126c1aa, 0xfb7bcee0, 0x6f287ff5, 0x96b00fa7,
           0x00000000, 0x9457810d, 0x757e42b7, 0x757e42b7, 0xe526c106, 0x49b041b9, 0x452c1099);
    Known4(57, r, x, 15, 0xfe2ce6e0, 10, 0x96b00fa7, 0x452c1099, 0xfb7bcee0, 0x6f287ff5,
           0x00000000, 0x2e845e7b, 0xc5346e22, 0xc5346e22, 0xc3615502, 0x85540b0d, 0xca801ba6);
    Known4(58, r, x, 6, 0xa3014314, 15, 0x6f287ff5, 0xca801ba6, 0x452c1099, 0xfb7bcee0,
           0x00000000, 0x8ba82b26, 0xfad0ab1b, 0xfad0ab1b, 0x9dd1ee2f, 0xf717cee8, 0xc197ea8e);
    Known4(59, r, x, 13, 0x4e0811a1, 21, 0xfb7bcee0, 0xc197ea8e, 0xca801ba6, 0x452c1099,
           0x00000000, 0x3157f448, 0x2cd3c328, 0x2cd3c328, 0x7adbd4c9, 0x992f5b7a, 0x5ac74608);
    Known4(60, r, x, 4, 0xf7537e82, 6, 0x452c1099, 0x5ac74608, 0xc197ea8e, 0xca801ba6,
           0x00000000, 0xbe680cd7, 0x03941d70, 0x03941d70, 0xfae79bf2, 0xb9e6fcbe, 0x14ae42c6);
    Known4(61, r, x, 11, 0xbd3af235, 10, 0xca801ba6, 0x14ae42c6, 0x5ac74608, 0xc197ea8e,
           0x00000000, 0x642911ff, 0x2ea92da5, 0x2ea92da5, 0xebe41fda, 0x907f6baf, 0xa52dae75);
    Known4(62, r, x, 2, 0x2ad7d2bb, 15, 0xc197ea8e, 0xa52dae75, 0x14ae42c6, 0x5ac74608,
           0x00000000, 0xb193fd31, 0x732be7bf, 0x732be7bf, 0x9e03ba7a, 0xdd3d4f01, 0x826afd76);
    Known4(63, r, x, 9, 0xeb86d391, 21, 0x5ac74608, 0x826afd76, 0xa52dae75, 0x14ae42c6,
           0x00000000, 0x4e56530a, 0xa91d9912, 0xa91d9912, 0x94a46ca3, 0x9472948d, 0x16dd9203);
  }

  lemma Alphanumeric2Compressed(block: seq<Byte>)
    requires |block| == 64 && Alphanumeric2Words(Decode(block))
    ensures Compress(Registers(0x83fd320b, 0xdefbe5cf, 0xa9b1642f, 0xfa6f932a), block)
         == Registers(0x98ab74d1, 0xf5d977d2, 0x2c1c61a5, 0x9f9d419f)
  {
    hide Operations, Decode, Add;
    var r := Registers(0x83fd320b, 0xdefbe5cf, 0xa9b1642f, 0xfa6f932a);
    var x := Decode(block);
    NoOperations(r, x);
    Alphanumeric2Operations0(r, x);
    Alphanumeric2Operations8(r, x);
    Alphanumeric2Operations16(r, x);
    Alphanumeric2Operations24(r, x);
    Alphanumeric2Operations32(r, x);
    Alphanumeric2Operations40(r, x);
    Alphanumeric2Operations48(r, x);
    Alphanumeric2Operations56(r, x);
    Sum(0x83fd320b, 0x14ae42c6);
    Sum(0xdefbe5cf, 0x16dd9203);
    Sum(0xa9b1642f, 0x826afd76);
    Sum(0xfa6f932a, 0xa52dae75);
  }

  /** The letters A to Z and a to z and the digits 0 to 9, in ASCII. */
  function AlphanumericText(): seq<Byte> { seq(62, i requires 0 <= i < 62 => Letter(i)) }

  function Letter(i: nat): Byte
    requires i < 62
  {
    if i < 26 then (65 + i) as Byte else if i < 52 then (71 + i) as Byte else (i - 4) as Byte
  }

  lemma AlphanumericRegions(p: seq<Byte>)
    requires p == Padded(AlphanumericText())
    ensures |p| == 128 && p[62] == 0x80 && (forall j :: 63 <= j < 120 ==> p[j] == 0)
    ensures p[120] == 0xf0 && p[121] == 0x01 && (forall j :: 122 <= j < 128 ==> p[j] == 0)
    ensures forall j :: 0 <= j < 62 ==> p[j] == AlphanumericText()[j]
  {
    hide Padded, AlphanumericText;
    AlphanumericLength();
    PaddedRegions(AlphanumericText(), 62, 57, 240, 1, 0xf0, 0x01);
  }

  lemma Alphanumeric1Decodes0(p: seq<Byte>)
    requires p == Padded(AlphanumericText()) && |p| == 128
    ensures var x := Decode(p[0..64]);
            x[0] == 0x44434241 && x[1] == 0x48474645
  {
    hide Padded, Decode, AlphanumericText;
    AlphanumericRegions(p);
    AlphanumericWord(p, 0, 0x41, 0x42, 0x43, 0x44, 0x44434241);
    AlphanumericWord(p, 1, 0x45, 0x46, 0x47, 0x48, 0x48474645);
  }

  lemma Alphanumeric1Decodes1(p: seq<Byte>)
    requires p == Padded(AlphanumericText()) && |p| == 128
    ensures var x := Decode(p[0..64]);
            x[2] == 0x4c4b4a49 && x[3] == 0x504f4e4d
  {
    hide Padded, Decode, AlphanumericText;
    AlphanumericRegions(p);
    AlphanumericWord(p, 2, 0x49, 0x4a, 0x4b, 0x4c, 0x4c4b4a49);
    AlphanumericWord(p, 3, 0x4d, 0x4e, 0x4f, 0x50, 0x504f4e4d);
  }

  lemma Alphanumeric1Decodes2(p: seq<Byte>)
    requires p == Padded(AlphanumericText()) && |p| == 128
    ensures var x := Decode(p[0..64]);
            x[4] == 0x54535251 && x[5] == 0x58575655
  {
    hide Padded, Decode, AlphanumericText;
    AlphanumericRegions(p);
    AlphanumericWord(p, 4, 0x51, 0x52, 0x53, 0x54, 0x54535251);
    AlphanumericWord(p, 5, 0x55, 0x56, 0x57, 0x58, 0x58575655);
  }

  lemma Alphanumeric1Decodes3(p: seq<Byte>)
    requires p == Padded(AlphanumericText()) && |p| == 128
    ensures var x := Decode(p[0..64]);
            x[6] == 0x62615a59 && x[7] == 0x66656463
  {
    hide Padded, Decode, AlphanumericText;
    AlphanumericRegions(p);
    AlphanumericWord(p, 6, 0x59, 0x5a, 0x61, 0x62, 0x62615a59);
    AlphanumericWord(p, 7, 0x63, 0x64, 0x65, 0x66, 0x66656463);
  }

  lemma Alphanumeric1Decodes4(p: seq<Byte>)
    requires p == Padded(AlphanumericText()) && |p| == 128
    ensures var x := Decode(p[0..64]);
            x[8] == 0x6a696867 && x[9] == 0x6e6d6c6b
  {
    hide Padded, Decode, AlphanumericText;
    AlphanumericRegions(p);
    AlphanumericWord(p, 8, 0x67, 0x68, 0x69, 0x6a, 0x6a696867);
    AlphanumericWord(p, 9, 0x6b, 0x6c, 0x6d, 0x6e, 0x6e6d6c6b);
  }

  lemma Alphanumeric1Decodes5(p: seq<Byte>)
    requires p == Padded(AlphanumericText()) && |p| == 128
    ensures var x := Decode(p[0..64]);
            x[10] == 0x7271706f && x[11] == 0x76757473
  {
    hide Padded, Decode, AlphanumericText;
    AlphanumericRegions(p);
    AlphanumericWord(p, 10, 0x6f, 0x70, 0x71, 0x72, 0x7271706f);
    AlphanumericWord(p, 11, 0x73, 0x74, 0x75, 0x76, 0x76757473);
  }

  lemma Alphanumeric1Decodes6(p: seq<Byte>)
    requires p == Padded(AlphanumericText()) && |p| == 128
    ensures var x := Decode(p[0..64]);
            x[12] == 0x7a797877 && x[13] == 0x33323130
  {
    hide Padded, Decode, AlphanumericText;
    AlphanumericRegions(p);
    AlphanumericWord(p, 12, 0x77, 0x78, 0x79, 0x7a, 0x7a797877);
    AlphanumericWord(p, 13, 0x30, 0x31, 0x32, 0x33, 0x33323130);
  }

  lemma Alphanumeric1Decodes7(p: seq<Byte>)
    requires p == Padded(AlphanumericText()) && |p| == 128
    ensures var x := Decode(p[0..64]);
            x[14] == 0x37363534 && x[15] == 0x00803938
  {
    hide Padded, Decode, AlphanumericText;
    AlphanumericRegions(p);
    AlphanumericWord(p, 14, 0x34, 0x35, 0x36, 0x37, 0x37363534);
    AlphanumericAt(60, 0x38);
    AlphanumericAt(61, 0x39);
    WordAt(p, 0, 15, 0x38, 0x39, 0x80, 0x00, 0x00803938);
  }

  lemma Alphanumeric1Decodes(p: seq<Byte>)
    requires p == Padded(AlphanumericText()) && |p| == 128
    ensures Alphanumeric1Words(Decode(p[0..64]))
  {
    hide Padded, Decode;
    AlphanumericRegions(p);
    Alphanumeric1Decodes0(p);
    Alphanumeric1Decodes1(p);
    Alphanumeric1Decodes2(p);
    Alphanumeric1Decodes3(p);
    Alphanumeric1Decodes4(p);
    Alphanumeric1Decodes5(p);
    Alphanumeric1Decodes6(p);
    Alphanumeric1Decodes7(p);
  }

  lemma Alphanumeric2Decodes0(p: seq<Byte>)
    requires p == Padded(AlphanumericText()) && |p| == 128
    ensures var x := Decode(p[64..128]);
            x[14] == 0x000001f0 && x[15] == 0x00000000
  {
    hide Padded, Decode, AlphanumericText;
    AlphanumericRegions(p);
    WordAt(p, 64, 14, 0xf0, 0x01, 0x00, 0x00, 0x000001f0);
    WordAt(p, 64, 15, 0x00, 0x00, 0x00, 0x00, 0x00000000);
  }

  lemma Alphanumeric2Decodes(p: seq<Byte>)
    requires p == Padded(AlphanumericText()) && |p| == 128
    ensures Alphanumeric2Words(Decode(p[64..128]))
  {
    hide Padded, Decode;
    AlphanumericRegions(p);
    Alphanumeric2Decodes0(p);
    ZeroWords(p, 64, 0, 14);
  }

  lemma DigestOfAlphanumeric()
    ensures Digest(AlphanumericText())
         == [0xd1, 0x74, 0xab, 0x98, 0xd2, 0x77, 0xd9, 0xf5, 0xa5, 0x61, 0x1c, 0x2c, 0x9f, 0x41, 0x9d, 0x9f]
  {
    hide Compress, Decode, Padded, Encode, EncodeWord, CompressAll, Alphanumeric1Words, Alphanumeric2Words, AlphanumericText;
    var p := Padded(AlphanumericText());
    AlphanumericRegions(p);
    Alphanumeric1Decodes(p);
    Alphanumeric1Compressed(p[0..64]);
    Alphanumeric2Decodes(p);
    Alphanumeric2Compressed(p[64..128]);
    TwoBlocks(p);
    EncodedWord(0x98ab74d1, 0xd1, 0x74, 0xab, 0x98);
    EncodedWord(0xf5d977d2, 0xd2, 0x77, 0xd9, 0xf5);
    EncodedWord(0x2c1c61a5, 0xa5, 0x61, 0x1c, 0x2c);
    EncodedWord(0x9f9d419f, 0x9f, 0x41, 0x9d, 0x9f);
    Encoded(Registers(0x98ab74d1, 0xf5d977d2, 0x2c1c61a5, 0x9f9d419f));
  }

  // ----- and the incremental implementation computes them

  /** The three messages, two of them cut into pieces, hashed by a context. */
  method KnownDigests() returns (empty: seq<Byte>, abc: seq<Byte>, alphanumeric: seq<Byte>)
    ensures empty
         == [0xd4, 0x1d, 0x8c, 0xd9, 0x8f, 0x00, 0xb2, 0x04, 0xe9, 0x80, 0x09, 0x98, 0xec, 0xf8, 0x42, 0x7e]
    ensures abc
         == [0x90, 0x01, 0x50, 0x98, 0x3c, 0xd2, 0x4f, 0xb0, 0xd6, 0x96, 0x3f, 0x7d, 0x28, 0xe1, 0x7f, 0x72]
    ensures alphanumeric
         == [0xd1, 0x74, 0xab, 0x98, 0xd2, 0x77, 0xd9, 0xf5, 0xa5, 0x61, 0x1c, 0x2c, 0x9f, 0x41, 0x9d, 0x9f]
  {
    hide Digest, AlphanumericText;
    DigestOfEmpty();
    DigestOfAbc();
    DigestOfAlphanumeric();
    empty := Md5Context.DigestOfPieces([]);
    var pieces: seq<seq<Byte>> := [[0x61], [0x62, 0x63]];
    TwoPieces(pieces);
    assert pieces[0] + pieces[1] == AbcText();
    abc := Md5Context.DigestOfPieces(pieces);
    var text := AlphanumericText();
    AlphanumericLength();
    pieces := [text[..20], text[20..]];
    TwoPieces(pieces);
    assert text[..20] + text[20..] == text;
    alphanumeric := Md5Context.DigestOfPieces(pieces);
  }

  lemma AlphanumericWord(p: seq<Byte>, k: nat, b0: Byte, b1: Byte, b2: Byte, b3: Byte, w: Word)
    requires p == Padded(AlphanumericText()) && |p| == 128 && k < 15
    requires Letter(4 * k) == b0 && Letter(4 * k + 1) == b1 && Letter(4 * k + 2) == b2 && Letter(4 * k + 3) == b3
    requires w == (b0 as Word) | ((b1 as Word) << 8) | ((b2 as Word) << 16) | ((b3 as Word) << 24)
    ensures Decode(p[0..64])[k] == w
  {
    hide Decode, Padded, Letter;
    AlphanumericRegions(p);
    assert forall i :: 0 <= i < 62 ==> AlphanumericText()[i] == Letter(i);
    WordAt(p, 0, k, b0, b1, b2, b3, w);
  }

  lemma AlphanumericAt(j: nat, b: Byte)
    requires j < 62 && Letter(j) == b
    ensures |AlphanumericText()| == 62 && AlphanumericText()[j] == b
  {
  }

  lemma AlphanumericLength()
    ensures |AlphanumericText()| == 62
  {
  }

  lemma TwoPieces(pieces: seq<seq<Byte>>)
    requires |pieces| == 2
    ensures Md5Context.Joined(pieces) == pieces[0] + pieces[1]
  {
    assert pieces[..1] == [pieces[0]] && pieces[..1][..0] == [];
    assert Md5Context.Joined([]) == [];
    assert Md5Context.Joined(pieces[..1]) == [] + pieces[0];
  }
}
