/** The unrolled block transform, and its equality with the table-driven operations of
    section 3.4 of RFC 1321. */
module Md5Transform {
  import opened Machine
  import opened Md5Spec

  // The four core functions in the form the implementation computes them.
  function F1(x: Word, y: Word, z: Word): Word { z ^ (x & (y ^ z)) }
  function F2(x: Word, y: Word, z: Word): Word { F1(z, x, y) }
  function F3(x: Word, y: Word, z: Word): Word { x ^ y ^ z }
  function F4(x: Word, y: Word, z: Word): Word { y ^ (x | !z) }

  /** The central step: w += f + data + constant, rotate left by s, add x. */
  function Md5Step(f: Word, w: Word, x: Word, data: Word, t: Word, s: nat): Word
    requires 0 < s < 32
  {
    Add(RotateLeft(Add(w, Add(Add(f, data), t)), s), x)
  }

  function CoreFunction(i: nat, x: Word, y: Word, z: Word): Word {
    if i < 16 then F1(x, y, z)
    else if i < 32 then F2(x, y, z)
    else if i < 48 then F3(x, y, z)
    else F4(x, y, z)
  }

  // ----- word identities

  lemma SelectIdentity(x: Word, y: Word, z: Word)
    ensures ((x & y) | (!x & z)) == (z ^ (x & (y ^ z)))
  {
  }

  lemma SelectSecondIdentity(x: Word, y: Word, z: Word)
    ensures ((x & z) | (y & !z)) == (y ^ (z & (x ^ y)))
  {
  }

  lemma RewrittenF(x: Word, y: Word, z: Word)
    ensures F1(x, y, z) == F(x, y, z)
  {
    SelectIdentity(x, y, z);
  }

  lemma RewrittenG(x: Word, y: Word, z: Word)
    ensures F2(x, y, z) == G(x, y, z)
  {
    SelectSecondIdentity(x, y, z);
  }

  /** The rewritten F1 to F4 compute the functions F, G, H and I of the standard. */
  lemma RewrittenCoreFunction(i: nat, x: Word, y: Word, z: Word)
    ensures CoreFunction(i, x, y, z) == Auxiliary(i, x, y, z)
  {
    hide F1, F2, F, G;
    RewrittenF(x, y, z);
    RewrittenG(x, y, z);
  }

  lemma AddFlattensLeft(x: Word, y: Word, z: Word)
    ensures Add(Add(x, y), z) == x + (y + z)
  {
    assert Add(x, y) == x + y;
  }

  lemma AddFlattensRight(x: Word, y: Word, z: Word)
    ensures Add(x, Add(y, z)) == x + (y + z)
  {
    assert Add(y, z) == y + z;
  }

  lemma AddAssociates(x: Word, y: Word, z: Word)
    ensures Add(x, Add(y, z)) == Add(Add(x, y), z)
  {
    hide Add;
    AddFlattensLeft(x, y, z);
    AddFlattensRight(x, y, z);
  }

  lemma AddCommutes(x: Word, y: Word)
    ensures Add(x, y) == Add(y, x)
  {
    assert x + y == y + x;
  }

  /** One unrolled step performs one operation; the registers keep their names instead of
      changing roles. */
  lemma StepIsOperation(i: nat, r: Registers, x: seq<Word>, w: Word, p: Word, q: Word, v: Word,
                        k: nat, t: Word, s: nat)
    requires i < 64 && |x| == 16
    requires WordIndex(i) == k && Sine(i) == t && Shift(i) == s
    requires Operations(i, r, x) == Registers(w, p, q, v)
    ensures Operations(i + 1, r, x) == Registers(v, Md5Step(CoreFunction(i, p, q, v), w, p, x[k], t, s), p, q)
  {
    hide Add, RotateLeft, Auxiliary, CoreFunction, Sine, WordIndex, Shift;
    var f := CoreFunction(i, p, q, v);
    RewrittenCoreFunction(i, p, q, v);
    AddAssociates(w, Add(f, x[k]), t);
    AddAssociates(w, f, x[k]);
    AddCommutes(p, RotateLeft(Add(w, Add(Add(f, x[k]), t)), s));
  }

  lemma SineAt(row: nat, column: nat)
    requires row < 4 && column < 16
    ensures Sine(16 * row + column) == SINES[row][column]
  {
    RowAndColumn(row, column);
  }

  lemma RowAndColumn(row: nat, column: nat)
    requires column < 16
    ensures (16 * row + column) / 16 == row && (16 * row + column) % 16 == column
  {
  }

  lemma WordsOfRound1()
    ensures WordIndex(0) == 0 && WordIndex(1) == 1 && WordIndex(2) == 2 && WordIndex(3) == 3
    ensures WordIndex(4) == 4 && WordIndex(5) == 5 && WordIndex(6) == 6 && WordIndex(7) == 7
    ensures WordIndex(8) == 8 && WordIndex(9) == 9 && WordIndex(10) == 10 && WordIndex(11) == 11
    ensures WordIndex(12) == 12 && WordIndex(13) == 13 && WordIndex(14) == 14 && WordIndex(15) == 15
  {
  }

  lemma ConstantsOfRound1()
    ensures Sine(0) == 0xd76aa478
    ensures Sine(1) == 0xe8c7b756
    ensures Sine(2) == 0x242070db
    ensures Sine(3) == 0xc1bdceee
    ensures Sine(4) == 0xf57c0faf
    ensures Sine(5) == 0x4787c62a
    ensures Sine(6) == 0xa8304613
    ensures Sine(7) == 0xfd469501
    ensures Sine(8) == 0x698098d8
    ensures Sine(9) == 0x8b44f7af
    ensures Sine(10) == 0xffff5bb1
    ensures Sine(11) == 0x895cd7be
    ensures Sine(12) == 0x6b901122
    ensures Sine(13) == 0xfd987193
    ensures Sine(14) == 0xa679438e
    ensures Sine(15) == 0x49b40821
  {
    hide Sine;
    SineAt(0, 0); SineAt(0, 1); SineAt(0, 2); SineAt(0, 3); SineAt(0, 4); SineAt(0, 5); SineAt(0, 6); SineAt(0, 7);
    SineAt(0, 8); SineAt(0, 9); SineAt(0, 10); SineAt(0, 11); SineAt(0, 12); SineAt(0, 13); SineAt(0, 14); SineAt(0, 15);
  }

  lemma ShiftsOfRound1()
    ensures Shift(0) == 7 && Shift(1) == 12 && Shift(2) == 17 && Shift(3) == 22
    ensures Shift(4) == 7 && Shift(5) == 12 && Shift(6) == 17 && Shift(7) == 22
    ensures Shift(8) == 7 && Shift(9) == 12 && Shift(10) == 17 && Shift(11) == 22
    ensures Shift(12) == 7 && Shift(13) == 12 && Shift(14) == 17 && Shift(15) == 22
  {
  }

  method Round1(a0: Word, b0: Word, c0: Word, d0: Word, x: seq<Word>, ghost r: Registers, ghost i: nat)
    returns (a: Word, b: Word, c: Word, d: Word)
    requires i == 0 && |x| == 16 && Operations(i, r, x) == Registers(a0, b0, c0, d0)
    ensures Operations(i + 16, r, x) == Registers(a, b, c, d)
  {
    hide Operations, Auxiliary, F1, F2, F3, F4, Md5Step, Add, WordIndex, Sine, Shift;
    a, b, c, d := a0, b0, c0, d0;
    WordsOfRound1();
    ConstantsOfRound1();
    ShiftsOfRound1();
    StepIsOperation(i, r, x, a, b, c, d, 0, 0xd76aa478, 7);  a := Md5Step(F1(b, c, d), a, b, x[0], 0xd76aa478, 7);
    StepIsOperation(i + 1, r, x, d, a, b, c, 1, 0xe8c7b756, 12);  d := Md5Step(F1(a, b, c), d, a, x[1], 0xe8c7b756, 12);
    StepIsOperation(i + 2, r, x, c, d, a, b, 2, 0x242070db, 17);  c := Md5Step(F1(d, a, b), c, d, x[2], 0x242070db, 17);
    StepIsOperation(i + 3, r, x, b, c, d, a, 3, 0xc1bdceee, 22);  b := Md5Step(F1(c, d, a), b, c, x[3], 0xc1bdceee, 22);
    StepIsOperation(i + 4, r, x, a, b, c, d, 4, 0xf57c0faf, 7);  a := Md5Step(F1(b, c, d), a, b, x[4], 0xf57c0faf, 7);
    StepIsOperation(i + 5, r, x, d, a, b, c, 5, 0x4787c62a, 12);  d := Md5Step(F1(a, b, c), d, a, x[5], 0x4787c62a, 12);
    StepIsOperation(i + 6, r, x, c, d, a, b, 6, 0xa8304613, 17);  c := Md5Step(F1(d, a, b), c, d, x[6], 0xa8304613, 17);
    StepIsOperation(i + 7, r, x, b, c, d, a, 7, 0xfd469501, 22);  b := Md5Step(F1(c, d, a), b, c, x[7], 0xfd469501, 22);
    StepIsOperation(i + 8, r, x, a, b, c, d, 8, 0x698098d8, 7);  a := Md5Step(F1(b, c, d), a, b, x[8], 0x698098d8, 7);
    StepIsOperation(i + 9, r, x, d, a, b, c, 9, 0x8b44f7af, 12);  d := Md5Step(F1(a, b, c), d, a, x[9], 0x8b44f7af, 12);
    StepIsOperation(i + 10, r, x, c, d, a, b, 10, 0xffff5bb1, 17);  c := Md5Step(F1(d, a, b), c, d, x[10], 0xffff5bb1, 17);
    StepIsOperation(i + 11, r, x, b, c, d, a, 11, 0x895cd7be, 22);  b := Md5Step(F1(c, d, a), b, c, x[11], 0x895cd7be, 22);
    StepIsOperation(i + 12, r, x, a, b, c, d, 12, 0x6b901122, 7);  a := Md5Step(F1(b, c, d), a, b, x[12], 0x6b901122, 7);
    StepIsOperation(i + 13, r, x, d, a, b, c, 13, 0xfd987193, 12);  d := Md5Step(F1(a, b, c), d, a, x[13], 0xfd987193, 12);
    StepIsOperation(i + 14, r, x, c, d, a, b, 14, 0xa679438e, 17);  c := Md5Step(F1(d, a, b), c, d, x[14], 0xa679438e, 17);
    StepIsOperation(i + 15, r, x, b, c, d, a, 15, 0x49b40821, 22);  b := Md5Step(F1(c, d, a), b, c, x[15], 0x49b40821, 22);
  }

  lemma WordsOfRound2()
    ensures WordIndex(16) == 1 && WordIndex(17) == 6 && WordIndex(18) == 11 && WordIndex(19) == 0
    ensures WordIndex(20) == 5 && WordIndex(21) == 10 && WordIndex(22) == 15 && WordIndex(23) == 4
    ensures WordIndex(24) == 9 && WordIndex(25) == 14 && WordIndex(26) == 3 && WordIndex(27) == 8
    ensures WordIndex(28) == 13 && WordIndex(29) == 2 && WordIndex(30) == 7 && WordIndex(31) == 12
  {
  }

  lemma ConstantsOfRound2()
    ensures Sine(16) == 0xf61e2562
    ensures Sine(17) == 0xc040b340
    ensures Sine(18) == 0x265e5a51
    ensures Sine(19) == 0xe9b6c7aa
    ensures Sine(20) == 0xd62f105d
    ensures Sine(21) == 0x02441453
    ensures Sine(22) == 0xd8a1e681
    ensures Sine(23) == 0xe7d3fbc8
    ensures Sine(24) == 0x21e1cde6
    ensures Sine(25) == 0xc33707d6
    ensures Sine(26) == 0xf4d50d87
    ensures Sine(27) == 0x455a14ed
    ensures Sine(28) == 0xa9e3e905
    ensures Sine(29) == 0xfcefa3f8
    ensures Sine(30) == 0x676f02d9
    ensures Sine(31) == 0x8d2a4c8a
  {
    hide Sine;
    SineAt(1, 0); SineAt(1, 1); SineAt(1, 2); SineAt(1, 3); SineAt(1, 4); SineAt(1, 5); SineAt(1, 6); SineAt(1, 7);
    SineAt(1, 8); SineAt(1, 9); SineAt(1, 10); SineAt(1, 11); SineAt(1, 12); SineAt(1, 13); SineAt(1, 14); SineAt(1, 15);
  }

  lemma ShiftsOfRound2()
    ensures Shift(16) == 5 && Shift(17) == 9 && Shift(18) == 14 && Shift(19) == 20
    ensures Shift(20) == 5 && Shift(21) == 9 && Shift(22) == 14 && Shift(23) == 20
    ensures Shift(24) == 5 && Shift(25) == 9 && Shift(26) == 14 && Shift(27) == 20
    ensures Shift(28) == 5 && Shift(29) == 9 && Shift(30) == 14 && Shift(31) == 20
  {
  }

  method Round2(a0: Word, b0: Word, c0: Word, d0: Word, x: seq<Word>, ghost r: Registers, ghost i: nat)
    returns (a: Word, b: Word, c: Word, d: Word)
    requires i == 16 && |x| == 16 && Operations(i, r, x) == Registers(a0, b0, c0, d0)
    ensures Operations(i + 16, r, x) == Registers(a, b, c, d)
  {
    hide Operations, Auxiliary, F1, F2, F3, F4, Md5Step, Add, WordIndex, Sine, Shift;
    a, b, c, d := a0, b0, c0, d0;
    WordsOfRound2();
    ConstantsOfRound2();
    ShiftsOfRound2();
    StepIsOperation(i, r, x, a, b, c, d, 1, 0xf61e2562, 5);  a := Md5Step(F2(b, c, d), a, b, x[1], 0xf61e2562, 5);
    StepIsOperation(i + 1, r, x, d, a, b, c, 6, 0xc040b340, 9);  d := Md5Step(F2(a, b, c), d, a, x[6], 0xc040b340, 9);
    StepIsOperation(i + 2, r, x, c, d, a, b, 11, 0x265e5a51, 14);  c := Md5Step(F2(d, a, b), c, d, x[11], 0x265e5a51, 14);
    StepIsOperation(i + 3, r, x, b, c, d, a, 0, 0xe9b6c7aa, 20);  b := Md5Step(F2(c, d, a), b, c, x[0], 0xe9b6c7aa, 20);
    StepIsOperation(i + 4, r, x, a, b, c, d, 5, 0xd62f105d, 5);  a := Md5Step(F2(b, c, d), a, b, x[5], 0xd62f105d, 5);
    StepIsOperation(i + 5, r, x, d, a, b, c, 10, 0x02441453, 9);  d := Md5Step(F2(a, b, c), d, a, x[10], 0x02441453, 9);
    StepIsOperation(i + 6, r, x, c, d, a, b, 15, 0xd8a1e681, 14);  c := Md5Step(F2(d, a, b), c, d, x[15], 0xd8a1e681, 14);
    StepIsOperation(i + 7, r, x, b, c, d, a, 4, 0xe7d3fbc8, 20);  b := Md5Step(F2(c, d, a), b, c, x[4], 0xe7d3fbc8, 20);
    StepIsOperation(i + 8, r, x, a, b, c, d, 9, 0x21e1cde6, 5);  a := Md5Step(F2(b, c, d), a, b, x[9], 0x21e1cde6, 5);
    StepIsOperation(i + 9, r, x, d, a, b, c, 14, 0xc33707d6, 9);  d := Md5Step(F2(a, b, c), d, a, x[14], 0xc33707d6, 9);
    StepIsOperation(i + 10, r, x, c, d, a, b, 3, 0xf4d50d87, 14);  c := Md5Step(F2(d, a, b), c, d, x[3], 0xf4d50d87, 14);
    StepIsOperation(i + 11, r, x, b, c, d, a, 8, 0x455a14ed, 20);  b := Md5Step(F2(c, d, a), b, c, x[8], 0x455a14ed, 20);
    StepIsOperation(i + 12, r, x, a, b, c, d, 13, 0xa9e3e905, 5);  a := Md5Step(F2(b, c, d), a, b, x[13], 0xa9e3e905, 5);
    StepIsOperation(i + 13, r, x, d, a, b, c, 2, 0xfcefa3f8, 9);  d := Md5Step(F2(a, b, c), d, a, x[2], 0xfcefa3f8, 9);
    StepIsOperation(i + 14, r, x, c, d, a, b, 7, 0x676f02d9, 14);  c := Md5Step(F2(d, a, b), c, d, x[7], 0x676f02d9, 14);
    StepIsOperation(i + 15, r, x, b, c, d, a, 12, 0x8d2a4c8a, 20);  b := Md5Step(F2(c, d, a), b, c, x[12], 0x8d2a4c8a, 20);
  }

  lemma WordsOfRound3()
    ensures WordIndex(32) == 5 && WordIndex(33) == 8 && WordIndex(34) == 11 && WordIndex(35) == 14
    ensures WordIndex(36) == 1 && WordIndex(37) == 4 && WordIndex(38) == 7 && WordIndex(39) == 10
    ensures WordIndex(40) == 13 && WordIndex(41) == 0 && WordIndex(42) == 3 && WordIndex(43) == 6
    ensures WordIndex(44) == 9 && WordIndex(45) == 12 && WordIndex(46) == 15 && WordIndex(47) == 2
  {
  }

  lemma ConstantsOfRound3()
    ensures Sine(32) == 0xfffa3942
    ensures Sine(33) == 0x8771f681
    ensures Sine(34) == 0x6d9d6122
    ensures Sine(35) == 0xfde5380c
    ensures Sine(36) == 0xa4beea44
    ensures Sine(37) == 0x4bdecfa9
    ensures Sine(38) == 0xf6bb4b60
    ensures Sine(39) == 0xbebfbc70
    ensures Sine(40) == 0x289b7ec6
    ensures Sine(41) == 0xeaa127fa
    ensures Sine(42) == 0xd4ef3085
    ensures Sine(43) == 0x04881d05
    ensures Sine(44) == 0xd9d4d039
    ensures Sine(45) == 0xe6db99e5
    ensures Sine(46) == 0x1fa27cf8
    ensures Sine(47) == 0xc4ac5665
  {
    hide Sine;
    SineAt(2, 0); SineAt(2, 1); SineAt(2, 2); SineAt(2, 3); SineAt(2, 4); SineAt(2, 5); SineAt(2, 6); SineAt(2, 7);
    SineAt(2, 8); SineAt(2, 9); SineAt(2, 10); SineAt(2, 11); SineAt(2, 12); SineAt(2, 13); SineAt(2, 14); SineAt(2, 15);
  }

  lemma ShiftsOfRound3()
    ensures Shift(32) == 4 && Shift(33) == 11 && Shift(34) == 16 && Shift(35) == 23
    ensures Shift(36) == 4 && Shift(37) == 11 && Shift(38) == 16 && Shift(39) == 23
    ensures Shift(40) == 4 && Shift(41) == 11 && Shift(42) == 16 && Shift(43) == 23
    ensures Shift(44) == 4 && Shift(45) == 11 && Shift(46) == 16 && Shift(47) == 23
  {
  }

  method Round3(a0: Word, b0: Word, c0: Word, d0: Word, x: seq<Word>, ghost r: Registers, ghost i: nat)
    returns (a: Word, b: Word, c: Word, d: Word)
    requires i == 32 && |x| == 16 && Operations(i, r, x) == Registers(a0, b0, c0, d0)
    ensures Operations(i + 16, r, x) == Registers(a, b, c, d)
  {
    hide Operations, Auxiliary, F1, F2, F3, F4, Md5Step, Add, WordIndex, Sine, Shift;
    a, b, c, d := a0, b0, c0, d0;
    WordsOfRound3();
    ConstantsOfRound3();
    ShiftsOfRound3();
    StepIsOperation(i, r, x, a, b, c, d, 5, 0xfffa3942, 4);  a := Md5Step(F3(b, c, d), a, b, x[5], 0xfffa3942, 4);
    StepIsOperation(i + 1, r, x, d, a, b, c, 8, 0x8771f681, 11);  d := Md5Step(F3(a, b, c), d, a, x[8], 0x8771f681, 11);
    StepIsOperation(i + 2, r, x, c, d, a, b, 11, 0x6d9d6122, 16);  c := Md5Step(F3(d, a, b), c, d, x[11], 0x6d9d6122, 16);
    StepIsOperation(i + 3, r, x, b, c, d, a, 14, 0xfde5380c, 23);  b := Md5Step(F3(c, d, a), b, c, x[14], 0xfde5380c, 23);
    StepIsOperation(i + 4, r, x, a, b, c, d, 1, 0xa4beea44, 4);  a := Md5Step(F3(b, c, d), a, b, x[1], 0xa4beea44, 4);
    StepIsOperation(i + 5, r, x, d, a, b, c, 4, 0x4bdecfa9, 11);  d := Md5Step(F3(a, b, c), d, a, x[4], 0x4bdecfa9, 11);
    StepIsOperation(i + 6, r, x, c, d, a, b, 7, 0xf6bb4b60, 16);  c := Md5Step(F3(d, a, b), c, d, x[7], 0xf6bb4b60, 16);
    StepIsOperation(i + 7, r, x, b, c, d, a, 10, 0xbebfbc70, 23);  b := Md5Step(F3(c, d, a), b, c, x[10], 0xbebfbc70, 23);
    StepIsOperation(i + 8, r, x, a, b, c, d, 13, 0x289b7ec6, 4);  a := Md5Step(F3(b, c, d), a, b, x[13], 0x289b7ec6, 4);
    StepIsOperation(i + 9, r, x, d, a, b, c, 0, 0xeaa127fa, 11);  d := Md5Step(F3(a, b, c), d, a, x[0], 0xeaa127fa, 11);
    StepIsOperation(i + 10, r, x, c, d, a, b, 3, 0xd4ef3085, 16);  c := Md5Step(F3(d, a, b), c, d, x[3], 0xd4ef3085, 16);
    StepIsOperation(i + 11, r, x, b, c, d, a, 6, 0x04881d05, 23);  b := Md5Step(F3(c, d, a), b, c, x[6], 0x04881d05, 23);
    StepIsOperation(i + 12, r, x, a, b, c, d, 9, 0xd9d4d039, 4);  a := Md5Step(F3(b, c, d), a, b, x[9], 0xd9d4d039, 4);
    StepIsOperation(i + 13, r, x, d, a, b, c, 12, 0xe6db99e5, 11);  d := Md5Step(F3(a, b, c), d, a, x[12], 0xe6db99e5, 11);
    StepIsOperation(i + 14, r, x, c, d, a, b, 15, 0x1fa27cf8, 16);  c := Md5Step(F3(d, a, b), c, d, x[15], 0x1fa27cf8, 16);
    StepIsOperation(i + 15, r, x, b, c, d, a, 2, 0xc4ac5665, 23);  b := Md5Step(F3(c, d, a), b, c, x[2], 0xc4ac5665, 23);
  }

  lemma WordsOfRound4()
    ensures WordIndex(48) == 0 && WordIndex(49) == 7 && WordIndex(50) == 14 && WordIndex(51) == 5
    ensures WordIndex(52) == 12 && WordIndex(53) == 3 && WordIndex(54) == 10 && WordIndex(55) == 1
    ensures WordIndex(56) == 8 && WordIndex(57) == 15 && WordIndex(58) == 6 && WordIndex(59) == 13
    ensures WordIndex(60) == 4 && WordIndex(61) == 11 && WordIndex(62) == 2 && WordIndex(63) == 9
  {
  }

  lemma ConstantsOfRound4()
    ensures Sine(48) == 0xf4292244
    ensures Sine(49) == 0x432aff97
    ensures Sine(50) == 0xab9423a7
    ensures Sine(51) == 0xfc93a039
    ensures Sine(52) == 0x655b59c3
    ensures Sine(53) == 0x8f0ccc92
    ensures Sine(54) == 0xffeff47d
    ensures Sine(55) == 0x85845dd1
    ensures Sine(56) == 0x6fa87e4f
    ensures Sine(57) == 0xfe2ce6e0
    ensures Sine(58) == 0xa3014314
    ensures Sine(59) == 0x4e0811a1
    ensures Sine(60) == 0xf7537e82
    ensures Sine(61) == 0xbd3af235
    ensures Sine(62) == 0x2ad7d2bb
    ensures Sine(63) == 0xeb86d391
  {
    hide Sine;
    SineAt(3, 0); SineAt(3, 1); SineAt(3, 2); SineAt(3, 3); SineAt(3, 4); SineAt(3, 5); SineAt(3, 6); SineAt(3, 7);
    SineAt(3, 8); SineAt(3, 9); SineAt(3, 10); SineAt(3, 11); SineAt(3, 12); SineAt(3, 13); SineAt(3, 14); SineAt(3, 15);
  }

  lemma ShiftsOfRound4()
    ensures Shift(48) == 6 && Shift(49) == 10 && Shift(50) == 15 && Shift(51) == 21
    ensures Shift(52) == 6 && Shift(53) == 10 && Shift(54) == 15 && Shift(55) == 21
    ensures Shift(56) == 6 && Shift(57) == 10 && Shift(58) == 15 && Shift(59) == 21
    ensures Shift(60) == 6 && Shift(61) == 10 && Shift(62) == 15 && Shift(63) == 21
  {
  }

  method Round4(a0: Word, b0: Word, c0: Word, d0: Word, x: seq<Word>, ghost r: Registers, ghost i: nat)
    returns (a: Word, b: Word, c: Word, d: Word)
    requires i == 48 && |x| == 16 && Operations(i, r, x) == Registers(a0, b0, c0, d0)
    ensures Operations(i + 16, r, x) == Registers(a, b, c, d)
  {
    hide Operations, Auxiliary, F1, F2, F3, F4, Md5Step, Add, WordIndex, Sine, Shift;
    a, b, c, d := a0, b0, c0, d0;
    WordsOfRound4();
    ConstantsOfRound4();
    ShiftsOfRound4();
    StepIsOperation(i, r, x, a, b, c, d, 0, 0xf4292244, 6);  a := Md5Step(F4(b, c, d), a, b, x[0], 0xf4292244, 6);
    StepIsOperation(i + 1, r, x, d, a, b, c, 7, 0x432aff97, 10);  d := Md5Step(F4(a, b, c), d, a, x[7], 0x432aff97, 10);
    StepIsOperation(i + 2, r, x, c, d, a, b, 14, 0xab9423a7, 15);  c := Md5Step(F4(d, a, b), c, d, x[14], 0xab9423a7, 15);
    StepIsOperation(i + 3, r, x, b, c, d, a, 5, 0xfc93a039, 21);  b := Md5Step(F4(c, d, a), b, c, x[5], 0xfc93a039, 21);
    StepIsOperation(i + 4, r, x, a, b, c, d, 12, 0x655b59c3, 6);  a := Md5Step(F4(b, c, d), a, b, x[12], 0x655b59c3, 6);
    StepIsOperation(i + 5, r, x, d, a, b, c, 3, 0x8f0ccc92, 10);  d := Md5Step(F4(a, b, c), d, a, x[3], 0x8f0ccc92, 10);
    StepIsOperation(i + 6, r, x, c, d, a, b, 10, 0xffeff47d, 15);  c := Md5Step(F4(d, a, b), c, d, x[10], 0xffeff47d, 15);
    StepIsOperation(i + 7, r, x, b, c, d, a, 1, 0x85845dd1, 21);  b := Md5Step(F4(c, d, a), b, c, x[1], 0x85845dd1, 21);
    StepIsOperation(i + 8, r, x, a, b, c, d, 8, 0x6fa87e4f, 6);  a := Md5Step(F4(b, c, d), a, b, x[8], 0x6fa87e4f, 6);
    StepIsOperation(i + 9, r, x, d, a, b, c, 15, 0xfe2ce6e0, 10);  d := Md5Step(F4(a, b, c), d, a, x[15], 0xfe2ce6e0, 10);
    StepIsOperation(i + 10, r, x, c, d, a, b, 6, 0xa3014314, 15);  c := Md5Step(F4(d, a, b), c, d, x[6], 0xa3014314, 15);
    StepIsOperation(i + 11, r, x, b, c, d, a, 13, 0x4e0811a1, 21);  b := Md5Step(F4(c, d, a), b, c, x[13], 0x4e0811a1, 21);
    StepIsOperation(i + 12, r, x, a, b, c, d, 4, 0xf7537e82, 6);  a := Md5Step(F4(b, c, d), a, b, x[4], 0xf7537e82, 6);
    StepIsOperation(i + 13, r, x, d, a, b, c, 11, 0xbd3af235, 10);  d := Md5Step(F4(a, b, c), d, a, x[11], 0xbd3af235, 10);
    StepIsOperation(i + 14, r, x, c, d, a, b, 2, 0x2ad7d2bb, 15);  c := Md5Step(F4(d, a, b), c, d, x[2], 0x2ad7d2bb, 15);
    StepIsOperation(i + 15, r, x, b, c, d, a, 9, 0xeb86d391, 21);  b := Md5Step(F4(c, d, a), b, c, x[9], 0xeb86d391, 21);
  }

  /** Alters an existing hash to reflect sixteen more words of data. */
  method Transform(buf: array<Word>, x: seq<Word>)
    requires buf.Length == 4 && |x| == 16
    modifies buf
    ensures var r := old(Registers(buf[0], buf[1], buf[2], buf[3]));
            var s := Operations(64, r, x);
            Registers(buf[0], buf[1], buf[2], buf[3])
            == Registers(Add(r.a, s.a), Add(r.b, s.b), Add(r.c, s.c), Add(r.d, s.d))
  {
    hide Operations, Add;
    ghost var r := Registers(buf[0], buf[1], buf[2], buf[3]);
    assert Operations(0, r, x) == r by { Start(r, x); }
    var a, b, c, d := Round1(buf[0], buf[1], buf[2], buf[3], x, r, 0);
    a, b, c, d := Round2(a, b, c, d, x, r, 16);
    a, b, c, d := Round3(a, b, c, d, x, r, 32);
    a, b, c, d := Round4(a, b, c, d, x, r, 48);
    buf[0] := Add(buf[0], a);
    buf[1] := Add(buf[1], b);
    buf[2] := Add(buf[2], c);
    buf[3] := Add(buf[3], d);
  }

  lemma Start(r: Registers, x: seq<Word>)
    requires |x| == 16
    ensures Operations(0, r, x) == r
  {
  }
}
