/** The MD5 message digest as sections 3.1 to 3.5 of RFC 1321 define it: a table-driven
    reference that the incremental implementation is proved against. */
module Md5Spec {
  import opened Machine

  type Word = bv32

  /** The four chaining registers A, B, C, D (section 3.3). */
  datatype Registers = Registers(a: Word, b: Word, c: Word, d: Word)

  const INITIAL := Registers(0x67452301, 0xefcdab89, 0x98badcfe, 0x10325476)

  // ----- section 2: word operations

  function Add(x: Word, y: Word): Word { x + y }

  function RotateLeft(x: Word, s: nat): Word
    requires 0 < s < 32
  {
    (x << s) | (x >> (32 - s))
  }

  // ----- section 3.4: the auxiliary functions and the 64-step table

  function F(x: Word, y: Word, z: Word): Word { (x & y) | (!x & z) }
  function G(x: Word, y: Word, z: Word): Word { (x & z) | (y & !z) }
  function H(x: Word, y: Word, z: Word): Word { x ^ y ^ z }
  function I(x: Word, y: Word, z: Word): Word { y ^ (x | !z) }

  function Auxiliary(i: nat, x: Word, y: Word, z: Word): Word {
    if i < 16 then F(x, y, z)
    else if i < 32 then G(x, y, z)
    else if i < 48 then H(x, y, z)
    else I(x, y, z)
  }

  /** Which word of the block step i consumes. */
  function WordIndex(i: nat): (k: nat)
    ensures k < 16
  {
    if i < 16 then i % 16
    else if i < 32 then (5 * i + 1) % 16
    else if i < 48 then (3 * i + 5) % 16
    else (7 * i) % 16
  }

  /** By how many bits step i rotates. */
  function Shift(i: nat): (s: nat)
    ensures 0 < s < 32
  {
    var row := if i < 16 then [7, 12, 17, 22]
               else if i < 32 then [5, 9, 14, 20]
               else if i < 48 then [4, 11, 16, 23]
               else [6, 10, 15, 21];
    row[i % 4]
  }

  /** The table T: the integer part of 4294967296 times abs(sin(i + 1)), i + 1 in radians. */
  const SINES: seq<seq<Word>> := [
    [0xd76aa478, 0xe8c7b756, 0x242070db, 0xc1bdceee, 0xf57c0faf, 0x4787c62a, 0xa8304613, 0xfd469501,
     0x698098d8, 0x8b44f7af, 0xffff5bb1, 0x895cd7be, 0x6b901122, 0xfd987193, 0xa679438e, 0x49b40821],
    [0xf61e2562, 0xc040b340, 0x265e5a51, 0xe9b6c7aa, 0xd62f105d, 0x02441453, 0xd8a1e681, 0xe7d3fbc8,
     0x21e1cde6, 0xc33707d6, 0xf4d50d87, 0x455a14ed, 0xa9e3e905, 0xfcefa3f8, 0x676f02d9, 0x8d2a4c8a],
    [0xfffa3942, 0x8771f681, 0x6d9d6122, 0xfde5380c, 0xa4beea44, 0x4bdecfa9, 0xf6bb4b60, 0xbebfbc70,
     0x289b7ec6, 0xeaa127fa, 0xd4ef3085, 0x04881d05, 0xd9d4d039, 0xe6db99e5, 0x1fa27cf8, 0xc4ac5665],
    [0xf4292244, 0x432aff97, 0xab9423a7, 0xfc93a039, 0x655b59c3, 0x8f0ccc92, 0xffeff47d, 0x85845dd1,
     0x6fa87e4f, 0xfe2ce6e0, 0xa3014314, 0x4e0811a1, 0xf7537e82, 0xbd3af235, 0x2ad7d2bb, 0xeb86d391]
  ]

  function Sine(i: nat): Word
    requires i < 64
  {
    SINES[i / 16][i % 16]
  }

  /** One operation a = b + ((a + aux(b,c,d) + X[k] + T[i]) <<< s), after which the registers
      change roles: [ABCD], [DABC], [CDAB], [BCDA]. */
  function Operation(i: nat, r: Registers, x: seq<Word>): Registers
    requires i < 64 && |x| == 16
  {
    var sum := Add(Add(Add(r.a, Auxiliary(i, r.b, r.c, r.d)), x[WordIndex(i)]), Sine(i));
    Registers(r.d, Add(r.b, RotateLeft(sum, Shift(i))), r.b, r.c)
  }

  /** Operations 0 to n - 1 in order. */
  function Operations(n: nat, r: Registers, x: seq<Word>): Registers
    requires n <= 64 && |x| == 16
  {
    if n == 0 then r else Operation(n - 1, Operations(n - 1, r, x), x)
  }

  /** A 64-byte block as sixteen words, low-order byte first. */
  function DecodeWord(b: seq<Byte>, at: nat): Word
    requires at + 4 <= |b|
  {
    (b[at] as Word) | ((b[at + 1] as Word) << 8) | ((b[at + 2] as Word) << 16) | ((b[at + 3] as Word) << 24)
  }

  function Decode(block: seq<Byte>): (x: seq<Word>)
    requires |block| == 64
    ensures |x| == 16
  {
    seq(16, k requires 0 <= k < 16 => DecodeWord(block, 4 * k))
  }

  function Compress(r: Registers, block: seq<Byte>): Registers
    requires |block| == 64
  {
    var s := Operations(64, r, Decode(block));
    Registers(Add(r.a, s.a), Add(r.b, s.b), Add(r.c, s.c), Add(r.d, s.d))
  }

  /** All blocks of a message whose length is a multiple of 64, first to last. */
  function CompressAll(r: Registers, message: seq<Byte>): Registers
    requires |message| % 64 == 0
    decreases |message|
  {
    if message == [] then r else CompressAll(Compress(r, message[..64]), message[64..])
  }

  // ----- sections 3.1, 3.2 and 3.5: padding, length, output

  /** The count low-order bytes of n, low-order byte first. */
  function LittleEndian(n: nat, count: nat): (s: seq<Byte>)
    ensures |s| == count
  {
    if count == 0 then [] else [(n % 256) as Byte] + LittleEndian(n / 256, count - 1)
  }

  function Zeros(n: nat): (s: seq<Byte>)
    ensures |s| == n
  {
    seq(n, _ => 0)
  }

  /** How many zero bytes bring a message, plus one byte, to 56 modulo 64. */
  function PadZeros(length: nat): nat { (55 - length) % 64 }

  function Padded(message: seq<Byte>): (p: seq<Byte>)
    ensures |p| % 64 == 0
  {
    message + [0x80] + Zeros(PadZeros(|message|)) + LittleEndian(8 * |message|, 8)
  }

  function EncodeWord(w: Word): (s: seq<Byte>)
    ensures |s| == 4
  {
    [(w & 0xFF) as Byte, ((w >> 8) & 0xFF) as Byte, ((w >> 16) & 0xFF) as Byte, ((w >> 24) & 0xFF) as Byte]
  }

  function Encode(r: Registers): (s: seq<Byte>)
    ensures |s| == 16
  {
    EncodeWord(r.a) + EncodeWord(r.b) + EncodeWord(r.c) + EncodeWord(r.d)
  }

  function Digest(message: seq<Byte>): (s: seq<Byte>)
    ensures |s| == 16
  {
    Encode(CompressAll(INITIAL, Padded(message)))
  }
}
