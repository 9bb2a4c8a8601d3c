/** What one FILE_DATA message carries: bytes, optionally munged in place, and a checksum of the
    bytes as sent. */
module Payload {
  import opened Machine

  // ----- munging

  const MUNGE_MODE_NONE: int := 0
  const MUNGE_MODE_XOR: int := 1

  function Munged(data: seq<Byte>): (m: seq<Byte>)
    ensures |m| == |data|
  {
    seq(|data|, i requires 0 <= i < |data| => data[i] ^ 0xFF)
  }

  lemma XorTwice(b: Byte)
    ensures b ^ 0xFF ^ 0xFF == b
  {
  }

  /** Munging undoes itself. */
  lemma MungeTwice(data: seq<Byte>)
    ensures Munged(Munged(data)) == data
  {
    forall i | 0 <= i < |data|
      ensures Munged(Munged(data))[i] == data[i]
    {
      XorTwice(data[i]);
    }
  }

  /** Munging leaves no byte as it is: each becomes its complement to 255. */
  lemma MungedIsComplement(data: seq<Byte>, i: nat)
    requires i < |data|
    ensures Munged(data)[i] as nat == 255 - data[i] as nat
  {
    ComplementOfByte(data[i]);
  }

  lemma ComplementOfByte(b: Byte)
    ensures (b ^ 0xFF) as nat == 255 - b as nat
  {
    assert b ^ 0xFF == 255 - b;
  }

  method MungeInPlace(buffer: array<Byte>, numBytes: nat)
    requires numBytes <= buffer.Length
    modifies buffer
    ensures buffer[..numBytes] == Munged(old(buffer[..numBytes]))
    ensures buffer[numBytes..] == old(buffer[numBytes..])
  {
    for x := 0 to numBytes
      invariant forall i :: 0 <= i < x ==> buffer[i] == old(buffer[i]) ^ 0xFF
      invariant forall i :: x <= i < buffer.Length ==> buffer[i] == old(buffer[i])
    {
      buffer[x] := buffer[x] ^ 0xFF;
    }
  }

  // ----- checksum

  function Power2(k: nat): (p: nat)
    ensures p > 0
  {
    if k == 0 then 1 else 2 * Power2(k - 1)
  }

  function Number(b: Byte): (n: nat)
    ensures n < 256
  {
    b as nat
  }

  function Term(data: seq<Byte>, i: nat): nat
    requires i < |data|
  {
    Number(data[i]) * Power2(i % 24)
  }

  /** The sum of the bytes, each shifted left by its index modulo 24, in 32 bits. */
  function Checksum(data: seq<Byte>): (sum: nat)
    ensures sum < TWO32
  {
    if data == [] then 0
    else (Checksum(data[..|data| - 1]) + Term(data, |data| - 1)) % TWO32
  }

  method CalculateChecksum(data: array<Byte>, bufSize: nat) returns (sum: nat)
    requires bufSize <= data.Length
    ensures sum == Checksum(data[..bufSize])
  {
    sum := 0;
    for i := 0 to bufSize
      invariant sum == Checksum(data[..i])
    {
      assert data[..i + 1][..i] == data[..i];
      sum := (sum + Number(data[i]) * Power2(i % 24)) % TWO32;
    }
  }

  function PlainSum(data: seq<Byte>): nat {
    if data == [] then 0 else PlainSum(data[..|data| - 1]) + Term(data, |data| - 1)
  }

  lemma ModuloAdds(x: nat, t: nat)
    ensures (x % TWO32 + t) % TWO32 == (x + t) % TWO32
  {
  }

  lemma {:induction false} ChecksumIsPlainSum(data: seq<Byte>)
    ensures Checksum(data) == PlainSum(data) % TWO32
    decreases |data|
  {
    hide Term;
    if data != [] {
      ChecksumIsPlainSum(data[..|data| - 1]);
      ModuloAdds(PlainSum(data[..|data| - 1]), Term(data, |data| - 1));
    }
  }

  lemma {:induction false} Power2Monotonic(j: nat, k: nat)
    requires j <= k
    ensures Power2(j) <= Power2(k)
    decreases k
  {
    if j < k {
      Power2Monotonic(j, k - 1);
    }
  }

  lemma {:induction false} PlainSumOfChange(data: seq<Byte>, i: nat, b: Byte)
    requires i < |data|
    ensures PlainSum(data[i := b]) - PlainSum(data) == Power2(i % 24) * (Number(b) - Number(data[i]))
    decreases |data|
  {
    var n := |data| - 1;
    TermOfChange(data, i, b, n);
    hide Number, Term, Power2;
    if i == n {
      assert data[i := b][..n] == data[..n];
    } else {
      assert data[i := b][..n] == data[..n][i := b];
      PlainSumOfChange(data[..n], i, b);
    }
  }

  lemma TermOfChange(data: seq<Byte>, i: nat, b: Byte, k: nat)
    requires i < |data| && k < |data|
    ensures Term(data[i := b], k) - Term(data, k)
         == if k == i then Power2(i % 24) * (Number(b) - Number(data[i])) else 0
  {
    hide Number, Power2;
    if k == i {
      Distribute(Power2(i % 24), Number(b), Number(data[i]));
    }
  }

  lemma Distribute(p: nat, x: nat, y: nat)
    ensures x * p - y * p == p * (x - y)
  {
  }

  lemma DifferentBytes(b: Byte, c: Byte)
    requires b != c
    ensures Number(b) != Number(c)
  {
    assert b == (b as int) as Byte;
    assert c == (c as int) as Byte;
  }

  /** What a byte's value adds to the sum when its weight is w. */
  function Weighted(w: int, d: int): int { w * d }

  lemma ChangeIsWeighted(data: seq<Byte>, i: nat, b: Byte)
    requires i < |data|
    ensures PlainSum(data[i := b]) - PlainSum(data) == Weighted(Power2(i % 24), Number(b) - Number(data[i]))
  {
    PlainSumOfChange(data, i, b);
  }

  /** A single garbled byte never goes unnoticed. */
  lemma SingleByteChangeIsDetected(data: seq<Byte>, i: nat, b: Byte)
    requires i < |data| && b != data[i]
    ensures Checksum(data[i := b]) != Checksum(data)
  {
    DifferentBytes(b, data[i]);
    hide Number, Checksum;
    DifferentNumbersAreDetected(data, i, b);
  }

  lemma DifferentNumbersAreDetected(data: seq<Byte>, i: nat, b: Byte)
    requires i < |data| && Number(b) != Number(data[i])
    ensures Checksum(data[i := b]) != Checksum(data)
  {
    Weights(i);
    hide Number, Power2, PlainSum, Checksum, Weighted;
    ChangeIsWeighted(data, i, b);
    ChecksumIsPlainSum(data);
    ChecksumIsPlainSum(data[i := b]);
    NumbersDiffer(PlainSum(data[i := b]), PlainSum(data), Power2(i % 24), Number(data[i]), Number(b));
  }

  lemma NumbersDiffer(s: nat, t: nat, w: nat, x: nat, y: nat)
    requires s - t == Weighted(w, y - x) && 0 < w <= 0x80_0000 && x < 256 && y < 256 && x != y
    ensures s % TWO32 != t % TWO32
  {
    hide Weighted;
    SumsDiffer(s, t, w, y - x);
  }

  lemma SumsDiffer(s: nat, t: nat, w: int, d: int)
    requires s - t == Weighted(w, d) && w != 0 && -0x80_0000 <= w <= 0x80_0000 && d != 0 && -255 <= d <= 255
    ensures s % TWO32 != t % TWO32
  {
    ProductBounds(w, d);
    NotCongruent(s, t, Weighted(w, d));
  }

  lemma Weights(i: nat)
    ensures 0 < Power2(i % 24) <= 0x80_0000
  {
    Power2Monotonic(i % 24, 23);
    Power2TwentyThree();
  }

  lemma Power2TwentyThree()
    ensures Power2(23) == 0x80_0000
  {
    assert Power2(6) == 64;
    assert Power2(12) == 4096;
    assert Power2(18) == 0x4_0000;
  }

  lemma Multiples(p: nat, d: nat)
    requires p > 0 && 0 < d <= 255
    ensures 0 < p * d <= p * 255
  {
  }

  lemma ProductBounds(w: int, d: int)
    requires w != 0 && -0x80_0000 <= w <= 0x80_0000 && d != 0 && -255 <= d <= 255
    ensures Weighted(w, d) != 0 && -0x8000_0000 < Weighted(w, d) < 0x8000_0000
  {
    var p, e := if w > 0 then w else -w, if d > 0 then d else -d;
    Multiples(p, e);
    Signs(w, d, p, e);
  }

  lemma Signs(w: int, d: int, p: int, e: int)
    requires (p == w || p == -w) && (e == d || e == -d)
    ensures Weighted(w, d) == p * e || Weighted(w, d) == -(p * e)
  {
  }

  lemma NotCongruent(x: nat, y: nat, d: int)
    requires x - y == d && d != 0 && -0x1_0000_0000 < d < 0x1_0000_0000
    ensures x % TWO32 != y % TWO32
  {
  }

  lemma Power2Distinct(j: nat, k: nat)
    requires j < k
    ensures Power2(j) < Power2(k)
  {
    Power2Monotonic(j, k - 1);
  }

  lemma DifferentWeights(i: nat, j: nat)
    ensures Power2(i % 24) == Power2(j % 24) <==> i % 24 == j % 24
  {
    if i % 24 < j % 24 {
      Power2Distinct(i % 24, j % 24);
    } else if j % 24 < i % 24 {
      Power2Distinct(j % 24, i % 24);
    }
  }

  function Swapped(data: seq<Byte>, i: nat, j: nat): (s: seq<Byte>)
    requires i < j < |data|
    ensures |s| == |data|
  {
    data[i := data[j]][j := data[i]]
  }

  lemma WeightsSubtract(v: int, w: int, d: int)
    ensures Weighted(v, d) + Weighted(w, -d) == Weighted(v - w, d)
  {
  }

  lemma SwapChanges(data: seq<Byte>, i: nat, j: nat)
    requires i < j < |data|
    ensures PlainSum(Swapped(data, i, j)) - PlainSum(data)
         == Weighted(Power2(i % 24) - Power2(j % 24), Number(data[j]) - Number(data[i]))
  {
    hide Number, PlainSum, Power2, Weighted;
    ChangeIsWeighted(data, i, data[j]);
    ChangeIsWeighted(data[i := data[j]], j, data[i]);
    WeightsSubtract(Power2(i % 24), Power2(j % 24), Number(data[j]) - Number(data[i]));
  }

  lemma SumsAgreeIff(s: nat, t: nat, v: nat, w: nat, x: nat, y: nat)
    requires s - t == Weighted(v - w, y - x)
    requires 0 < v <= 0x80_0000 && 0 < w <= 0x80_0000 && x < 256 && y < 256 && x != y
    ensures s % TWO32 == t % TWO32 <==> v == w
  {
    if v != w {
      SumsDiffer(s, t, v - w, y - x);
    }
  }

  lemma SwapIsUnnoticedIffWeights(data: seq<Byte>, i: nat, j: nat)
    requires i < j < |data| && Number(data[i]) != Number(data[j])
    ensures Checksum(Swapped(data, i, j)) == Checksum(data) <==> Power2(i % 24) == Power2(j % 24)
  {
    Weights(i);
    Weights(j);
    hide Number, Power2, PlainSum, Checksum, Swapped, Weighted;
    SwapChanges(data, i, j);
    ChecksumIsPlainSum(data);
    ChecksumIsPlainSum(Swapped(data, i, j));
    SumsAgreeIff(PlainSum(Swapped(data, i, j)), PlainSum(data), Power2(i % 24), Power2(j % 24),
                 Number(data[i]), Number(data[j]));
  }

  /** But two different bytes can trade places unnoticed: exactly when their distance is a
      multiple of 24. */
  lemma SwapIsUnnoticedIff(data: seq<Byte>, i: nat, j: nat)
    requires i < j < |data| && data[i] != data[j]
    ensures Checksum(Swapped(data, i, j)) == Checksum(data) <==> (j - i) % 24 == 0
  {
    DifferentBytes(data[j], data[i]);
    hide Power2, Checksum, Swapped;
    SwapIsUnnoticedIffWeights(data, i, j);
    DifferentWeights(i, j);
    DistanceModulo(i, j);
  }

  lemma DistanceModulo(i: nat, j: nat)
    requires i < j
    ensures (j - i) % 24 == 0 <==> i % 24 == j % 24
  {
  }

  // ----- the sum of given bytes

  function Zeros(n: nat): (z: seq<Byte>)
    ensures |z| == n
  {
    seq(n, _ => 0)
  }

  lemma {:induction false} SumOfZeros(n: nat)
    ensures PlainSum(Zeros(n)) == 0
  {
    if n > 0 {
      SumOfZeros(n - 1);
      assert Zeros(n)[..n - 1] == Zeros(n - 1);
    }
  }

  lemma SumOfOne(n: nat, i: nat, b: Byte)
    requires i < n
    ensures PlainSum(Zeros(n)[i := b]) == Power2(i % 24) * Number(b)
  {
    hide PlainSum, Power2;
    SumOfZeros(n);
    PlainSumOfChange(Zeros(n), i, b);
    assert Number(0) == 0;
  }

  /** A byte counts once at place 0, twice at place 1, 256 times at place 8, 2^23 times at place
      23, and once again at place 24. */
  lemma PlacesWeigh(b: Byte)
    ensures Checksum(Zeros(25)[0 := b]) == Number(b)
    ensures Checksum(Zeros(25)[1 := b]) == 2 * Number(b)
    ensures Checksum(Zeros(25)[8 := b]) == 256 * Number(b)
    ensures Checksum(Zeros(25)[23 := b]) == 8388608 * Number(b)
    ensures Checksum(Zeros(25)[24 := b]) == Number(b)
  {
    hide Power2, Checksum, PlainSum, Number, Zeros;
    Powers();
    WeighsAt(0, b);
    WeighsAt(1, b);
    WeighsAt(8, b);
    WeighsAt(23, b);
    WeighsAt(24, b);
  }

  lemma Powers()
    ensures Power2(0) == 1 && Power2(1) == 2 && Power2(8) == 256 && Power2(23) == 8388608
  {
    Power2TwentyThree();
    assert Power2(4) == 16;
  }

  lemma NumbersOf()
    ensures Number(0) == 0 && Number(255) == 255
  {
  }

  lemma WeighsAt(i: nat, b: Byte)
    requires i < 25
    ensures Checksum(Zeros(25)[i := b]) == Power2(i % 24) * Number(b) % TWO32
  {
    hide Power2, Checksum, PlainSum, Number, Zeros;
    SumOfOne(25, i, b);
    ChecksumIsPlainSum(Zeros(25)[i := b]);
  }

  /** The sum wraps around at 2^32: three bytes 255 of weight 2^23 add up to 6417285120. */
  lemma SumWraps()
    ensures Checksum(Zeros(72)[23 := 255][47 := 255][71 := 255]) == 6417285120 - 4294967296
  {
    hide Power2, Checksum, PlainSum, Number;
    NumbersOf();
    Powers();
    var z := Zeros(72);
    SumOfZeros(72);
    PlainSumOfChange(z, 23, 255);
    PlainSumOfChange(z[23 := 255], 47, 255);
    PlainSumOfChange(z[23 := 255][47 := 255], 71, 255);
    ChecksumIsPlainSum(z[23 := 255][47 := 255][71 := 255]);
  }
}
