/** Incremental hashing: MD5Init, MD5Update and MD5Final over a context that is overwritten
    in place, proved to compute the digest of RFC 1321 for every way of cutting a message. */
module Md5Context {
  import opened Machine
  import opened Md5Spec
  import Md5Transform

  // ----- facts about the reference definition

  lemma {:induction false} CompressAllAppend(r: Registers, m: seq<Byte>, block: seq<Byte>)
    requires |m| % 64 == 0 && |block| == 64
    ensures CompressAll(r, m + block) == Compress(CompressAll(r, m), block)
    decreases |m|
  {
    hide Compress;
    if m == [] {
      assert m + block == block && block[..64] == block && block[64..] == [];
      assert CompressAll(Compress(r, block), []) == Compress(r, block);
    } else {
      assert (m + block)[..64] == m[..64] && (m + block)[64..] == m[64..] + block;
      CompressAllAppend(Compress(r, m[..64]), m[64..], block);
    }
  }

  lemma {:induction false} LittleEndianSplits(n: nat, low: nat, high: nat)
    requires low < 0x1_0000_0000 && n == low + 0x1_0000_0000 * high
    ensures LittleEndian(n, 8) == LittleEndian(low, 4) + LittleEndian(high, 4)
  {
    assert Shifted(high, 1) == 0x100 * high;
    assert Shifted(high, 2) == 0x1_0000 * high;
    assert Shifted(high, 3) == 0x100_0000 * high;
    LittleEndianPrefix(n, low, high, 4);
  }

  /** A number moved up by k bytes. */
  function Shifted(n: nat, k: nat): nat {
    if k == 0 then n else 256 * Shifted(n, k - 1)
  }

  function Power256(k: nat): (p: nat)
    ensures p > 0
  {
    if k == 0 then 1 else 256 * Power256(k - 1)
  }

  lemma {:induction false} LittleEndianPrefix(n: nat, low: nat, high: nat, k: nat)
    requires low < Power256(k) && n == low + Shifted(high, k)
    ensures LittleEndian(n, k + 4) == LittleEndian(low, k) + LittleEndian(high, 4)
    decreases k
  {
    if k == 0 {
      assert low == 0 && n == high;
    } else {
      hide LittleEndian;
      DivideAgain(n, Shifted(high, k - 1), low);
      LittleEndianPrefix(n / 256, low / 256, high, k - 1);
      LowByteFirst(n, low, high, k);
    }
  }

  lemma LowByteFirst(n: nat, low: nat, high: nat, k: nat)
    requires k > 0 && n % 256 == low % 256
    requires LittleEndian(n / 256, k + 3) == LittleEndian(low / 256, k - 1) + LittleEndian(high, 4)
    ensures LittleEndian(n, k + 4) == LittleEndian(low, k) + LittleEndian(high, 4)
  {
  }

  /** Only the low-order bytes of a number matter. */
  lemma {:induction false} LittleEndianModulo(n: nat, k: nat)
    ensures LittleEndian(n % Power256(k), k) == LittleEndian(n, k)
    decreases k
  {
    if k > 0 {
      var p := Power256(k - 1);
      var q, m := Divide(n, Power256(k));
      Regroup256(p, q, Power256(k));
      DropByte(n, p, q, m);
      LittleEndianModulo(n / 256, k - 1);
    }
  }

  lemma Divide(n: nat, d: nat) returns (q: nat, m: nat)
    requires d > 0
    ensures m == n % d && m < d && n == d * q + m
  {
    q, m := n / d, n % d;
  }

  lemma DropByte(n: nat, p: nat, q: nat, m: nat)
    requires m < 256 * p && n == 256 * (p * q) + m
    ensures m % 256 == n % 256 && m / 256 == n / 256 % p
  {
    var product := p * q;
    DivideAgain(n, product, m);
    ModuloUnique(n / 256, p, q, m / 256);
  }

  lemma Regroup256(p: nat, q: nat, d: nat)
    requires d == 256 * p
    ensures d * q == 256 * (p * q)
  {
  }

  lemma DivideAgain(n: nat, product: nat, m: nat)
    requires n == 256 * product + m
    ensures n % 256 == m % 256 && n / 256 == product + m / 256
  {
  }

  lemma ModuloUnique(n: nat, p: nat, q: nat, r: nat)
    requires p > 0 && r < p && n == p * q + r
    ensures n % p == r
  {
    var d := q - n / p;
    assert p * d == n % p - r;
    MultipleBounds(p, d);
  }

  lemma MultipleBounds(p: nat, d: int)
    ensures d >= 1 ==> p * d >= p
    ensures d <= -1 ==> p * d + p <= 0
  {
  }

  const TWO64: nat := 0x1_0000_0000_0000_0000

  /** The last eight bytes: the two counter words, shifted left by three as one 64-bit number,
      are the message length in bits modulo 2^64. */
  lemma LengthField(length: nat, low: nat, high: nat)
    requires low < TWO32 && high < TWO32
    requires low + TWO32 * high == length % TWO64
    ensures LittleEndian(8 * low % TWO32, 4) + LittleEndian(8 * high % TWO32 + low / 0x2000_0000, 4)
         == LittleEndian(8 * length, 8)
  {
    hide LittleEndian;
    var w0, w1 := 8 * low % TWO32, 8 * high % TWO32 + low / 0x2000_0000;
    var n := w0 + TWO32 * w1;
    LittleEndianSplits(n, w0, w1);
    ShiftedLeft(low);
    ShiftedLeft(high);
    var k := high / 0x2000_0000 + 8 * (length / TWO64);
    assert length == TWO64 * (length / TWO64) + TWO32 * high + low;
    ModuloUnique(8 * length, TWO64, k, n);
    Power256Eight();
    LittleEndianModulo(8 * length, 8);
  }

  lemma ShiftedLeft(w: nat)
    ensures 8 * w == 8 * w % TWO32 + TWO32 * (w / 0x2000_0000)
    ensures 8 * w % TWO32 % 8 == 0
  {
    var q, r := w / 0x2000_0000, w % 0x2000_0000;
    assert w == 0x2000_0000 * q + r;
    ModuloUnique(8 * w, TWO32, q, 8 * r);
  }

  lemma Power256Eight()
    ensures Power256(8) == TWO64
  {
    assert Power256(4) == TWO32;
  }

  // ----- the context

  method CopyBytes(dst: array<Byte>, at: nat, src: seq<Byte>)
    requires at + |src| <= dst.Length
    modifies dst
    ensures dst[..] == old(dst[..at]) + src + old(dst[at + |src|..])
  {
    forall i | 0 <= i < |src| {
      dst[at + i] := src[i];
    }
  }

  class Context {
    const buf: array<Word>
    var bytesLow: nat   // the 64-bit byte count, as two 32-bit words
    var bytesHigh: nat
    const input: array<Byte>   // the 16 words of the pending block, as bytes

    ghost var done: seq<Byte>      // the bytes already transformed
    ghost var pending: seq<Byte>   // the bytes waiting for their block to fill

    /** Everything hashed since Init. */
    ghost function Message(): seq<Byte>
      reads this
    {
      done + pending
    }

    ghost function Chaining(): Registers
      requires buf.Length == 4
      reads buf
    {
      Registers(buf[0], buf[1], buf[2], buf[3])
    }

    /** The chaining registers are the fold of the transformed blocks. */
    ghost predicate Absorbed()
      reads this, buf
    {
      buf.Length == 4 && |done| % 64 == 0 && Chaining() == CompressAll(INITIAL, done)
    }

    ghost predicate Valid()
      reads this, buf, input
    {
      && Absorbed()
      && input.Length == 64 && |pending| < 64 && input[..|pending|] == pending
      && Counted(|Message()|)
    }

    /** The two counter words hold a byte count modulo 2^64. */
    ghost predicate Counted(length: nat)
      reads this`bytesLow, this`bytesHigh
    {
      bytesLow < TWO32 && bytesHigh < TWO32 && bytesLow + TWO32 * bytesHigh == length % TWO64
    }

    constructor ()
      ensures Valid() && Message() == [] && fresh(buf) && fresh(input)
    {
      buf := new Word[4];
      input := new Byte[64];
      new;
      Init();
    }

    /** Starts accumulation. */
    method Init()
      requires buf.Length == 4 && input.Length == 64
      modifies this, buf, input
      ensures Valid() && Message() == []
    {
      buf[0], buf[1], buf[2], buf[3] := 0x67452301, 0xefcdab89, 0x98badcfe, 0x10325476;
      bytesLow, bytesHigh := 0, 0;
      Clear(0, 64);
      done, pending := [], [];
    }

    /** Transforms the full pending block into the chaining registers. */
    method TransformInput()
      requires Absorbed() && input.Length == 64
      modifies this`done, buf
      ensures Absorbed() && done == old(done) + input[..]
    {
      hide Operations, Add, CompressAll;
      CompressAllAppend(INITIAL, done, input[..]);
      var x := Decode(input[..]);
      Md5Transform.Transform(buf, x);
      done := done + input[..];
    }

    /** Processes data in 64-byte chunks, as long as there is a whole one. */
    method TransformBlocks(data: seq<Byte>) returns (rest: seq<Byte>)
      requires Absorbed() && input.Length == 64
      modifies this`done, buf, input
      ensures Absorbed() && done + rest == old(done) + data && |rest| < 64
    {
      hide CompressAll, Chaining;
      rest := data;
      while |rest| >= 64
        invariant Absorbed() && done + rest == old(done) + data
      {
        CopyBytes(input, 0, rest[..64]);
        assert input[..] == rest[..64];
        TransformInput();
        assert rest == rest[..64] + rest[64..];
        rest := rest[64..];
      }
    }

    /** Space available in the pending block, at least 1. */
    method Room() returns (t: nat)
      requires Valid()
      ensures t == 64 - |pending|
    {
      CountResidue(bytesLow, bytesHigh, |done|, |pending|);
      t := 64 - bytesLow % 64;
    }

    /** Updates the byte count. */
    method Count(len: nat)
      requires Counted(|Message()|) && len < TWO32
      modifies this`bytesLow, this`bytesHigh
      ensures Counted(|Message()| + len)
    {
      var t := bytesLow;
      bytesLow := (t + len) % TWO32;
      if bytesLow < t {
        bytesHigh := (bytesHigh + 1) % TWO32;   // the low word wrapped
      }
      CountAdvances(t, old(bytesHigh), bytesLow, bytesHigh, |Message()|, len);
    }

    /** Continues accumulation with more bytes, however the caller cuts the message. */
    method Update(data: seq<Byte>)
      requires Valid() && |data| < TWO32
      modifies this, buf, input
      ensures Valid() && Message() == old(Message()) + data
    {
      hide CompressAll, Chaining, Counted;
      var t := Room();
      Count(|data|);
      if t > |data| {
        CopyBytes(input, 64 - t, data);
        assert done + (pending + data) == done + pending + data;
        pending := pending + data;
      } else {
        FillAndGoOn(data, t);
      }
    }

    /** The pending block fills up, whole blocks follow, and what is left starts a new one. */
    method FillAndGoOn(data: seq<Byte>, t: nat)
      requires Absorbed() && input.Length == 64 && |pending| < 64 && input[..|pending|] == pending
      requires t == 64 - |pending| <= |data|
      modifies this`done, this`pending, buf, input
      ensures Absorbed() && |pending| < 64 && input[..|pending|] == pending
      ensures Message() == old(Message()) + data
    {
      hide CompressAll, Chaining;
      ghost var whole := done + pending + data;
      CopyBytes(input, 64 - t, data[..t]);
      assert input[..] == pending + data[..t];
      TransformInput();
      assert done + data[t..] == whole;
      var rest := TransformBlocks(data[t..]);
      CopyBytes(input, 0, rest);
      pending := rest;
    }

    /** Pads to a 64-byte boundary, appends the length in bits, and returns the digest; the
        context is wiped. */
    method Final() returns (digest: seq<Byte>)
      requires Valid()
      modifies this, buf, input
      ensures digest == Digest(old(Message()))
      ensures bytesLow == bytesHigh == 0 && buf[..] == [0, 0, 0, 0] && input[..] == Zeros(64)
    {
      hide CompressAll, LittleEndian, Encode, Padded, Chaining;
      ghost var start, tail, length := done, pending, |done + pending|;
      CountResidue(bytesLow, bytesHigh, |done|, |pending|);
      var count := bytesLow % 64;
      input[count] := 0x80;
      var at := count + 1;
      var room := 56 - 1 - count;
      if room < 0 {
        // the length field needs a block of its own
        Clear(at, room + 8);
        assert input[..] == tail + [0x80] + Zeros(63 - |tail|);
        TransformInput();
        at, room := 0, 56;
      }
      Clear(at, room);
      assert input[..56] == if |tail| < 56 then tail + [0x80] + Zeros(55 - |tail|) else Zeros(56);
      AppendLength(length);
      if |tail| < 56 {
        PaddedInOneBlock(start, tail, LittleEndian(8 * length, 8));
      } else {
        PaddedInTwoBlocks(start, tail, LittleEndian(8 * length, 8));
      }
      TransformInput();
      digest := Output();
      Wipe();
    }

    /** Writes the length in bits into the last two words of the pending block. */
    method AppendLength(ghost length: nat)
      requires input.Length == 64 && Counted(length)
      modifies input
      ensures input[..] == old(input[..56]) + LittleEndian(8 * length, 8)
    {
      hide LittleEndian;
      LengthField(length, bytesLow, bytesHigh);
      CopyBytes(input, 56, LittleEndian(8 * bytesLow % TWO32, 4));
      CopyBytes(input, 60, LittleEndian(8 * bytesHigh % TWO32 + bytesLow / 0x2000_0000, 4));
    }

    method Output() returns (digest: seq<Byte>)
      requires buf.Length == 4
      ensures digest == Encode(Chaining())
    {
      digest := EncodeWord(buf[0]) + EncodeWord(buf[1]) + EncodeWord(buf[2]) + EncodeWord(buf[3]);
    }

    method Wipe()
      requires buf.Length == 4 && input.Length == 64
      modifies this, buf, input
      ensures bytesLow == bytesHigh == 0 && buf[..] == [0, 0, 0, 0] && input[..] == Zeros(64)
    {
      buf[0], buf[1], buf[2], buf[3] := 0, 0, 0, 0;
      bytesLow, bytesHigh := 0, 0;
      Clear(0, 64);
    }

    method Clear(at: nat, count: nat)
      requires at + count <= input.Length
      modifies input
      ensures input[..] == old(input[..at]) + Zeros(count) + old(input[at + count..])
    {
      forall i | at <= i < at + count {
        input[i] := 0;
      }
    }
  }

  // ----- steps of the proofs above

  lemma CountAdvances(low: nat, high: nat, low': nat, high': nat, length: nat, more: nat)
    requires low < TWO32 && high < TWO32 && more < TWO32
    requires low + TWO32 * high == length % TWO64
    requires low' == (low + more) % TWO32
    requires high' == if low' < low then (high + 1) % TWO32 else high
    ensures low' < TWO32 && high' < TWO32
    ensures low' + TWO32 * high' == (length + more) % TWO64
  {
    var k := length / TWO64;
    assert length + more == TWO64 * k + TWO32 * high + low + more;
    var carry := (low + more) / TWO32;
    assert low + more == TWO32 * carry + low' && carry < 2 && (carry == 1 <==> low' < low);
    var wrap := (high + carry) / TWO32;
    assert high + carry == TWO32 * wrap + high';
    ModuloUnique(length + more, TWO64, k + wrap, low' + TWO32 * high');
  }

  lemma CountResidue(low: nat, high: nat, done: nat, pending: nat)
    requires low < TWO32 && high < TWO32 && done % 64 == 0 && pending < 64
    requires low + TWO32 * high == (done + pending) % TWO64
    ensures low % 64 == pending
  {
    var k := (done + pending) / TWO64;
    assert done + pending == TWO64 * k + TWO32 * high + low;
    ModuloUnique(done + pending, 64, 0x400_0000_0000_0000 * k + 0x400_0000 * high + low / 64, low % 64);
    ModuloUnique(done + pending, 64, done / 64, pending);
  }

  lemma PaddingLength(done: nat, pending: nat)
    requires done % 64 == 0 && pending < 64
    ensures PadZeros(done + pending) == if pending < 56 then 55 - pending else 119 - pending
  {
    var q := done / 64;
    assert 55 - (done + pending) == 64 * (-q) + 55 - pending;
  }

  lemma Regroup(a: seq<Byte>, b: seq<Byte>, c: seq<Byte>, d: seq<Byte>, e: seq<Byte>)
    ensures a + b + c + d + e == a + (b + c + d + e)
  {
  }

  lemma RegroupSplit(a: seq<Byte>, b: seq<Byte>, c: seq<Byte>, d1: seq<Byte>, d2: seq<Byte>, e: seq<Byte>)
    ensures a + b + c + (d1 + d2) + e == a + (b + c + d1) + (d2 + e)
  {
  }

  /** The padding that fits in the last block. */
  lemma PaddedInOneBlock(done: seq<Byte>, pending: seq<Byte>, length: seq<Byte>)
    requires |done| % 64 == 0 && |pending| < 56 && length == LittleEndian(8 * |done + pending|, 8)
    ensures Padded(done + pending) == done + (pending + [0x80] + Zeros(55 - |pending|) + length)
  {
    hide LittleEndian, PadZeros, Zeros;
    PaddingLength(|done|, |pending|);
    Regroup(done, pending, [0x80], Zeros(55 - |pending|), length);
  }

  /** The padding that needs one block more. */
  lemma PaddedInTwoBlocks(done: seq<Byte>, pending: seq<Byte>, length: seq<Byte>)
    requires |done| % 64 == 0 && 56 <= |pending| < 64 && length == LittleEndian(8 * |done + pending|, 8)
    ensures Padded(done + pending) == done + (pending + [0x80] + Zeros(63 - |pending|)) + (Zeros(56) + length)
  {
    hide LittleEndian, PadZeros;
    PaddingLength(|done|, |pending|);
    assert Zeros(119 - |pending|) == Zeros(63 - |pending|) + Zeros(56);
    RegroupSplit(done, pending, [0x80], Zeros(63 - |pending|), Zeros(56), length);
  }

  // ----- a whole use of a context

  function Joined(pieces: seq<seq<Byte>>): seq<Byte> {
    if pieces == [] then [] else Joined(pieces[..|pieces| - 1]) + pieces[|pieces| - 1]
  }

  /** Init, one Update for each piece, Final: the digest of the joined pieces. */
  method DigestOfPieces(pieces: seq<seq<Byte>>) returns (digest: seq<Byte>)
    requires forall i :: 0 <= i < |pieces| ==> |pieces[i]| < TWO32
    ensures digest == Digest(Joined(pieces))
  {
    hide CompressAll, Digest;
    var ctx := new Context();
    for i := 0 to |pieces|
      invariant ctx.Valid() && ctx.Message() == Joined(pieces[..i]) && fresh(ctx) && fresh(ctx.buf) && fresh(ctx.input)
    {
      assert pieces[..i + 1][..i] == pieces[..i];
      ctx.Update(pieces[i]);
    }
    assert pieces[..|pieces|] == pieces;
    digest := ctx.Final();
  }
}
