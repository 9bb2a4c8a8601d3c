/** Escaping and unescaping of the strings that go through a translation catalogue. */
module Catkeys {
  import opened Option

  /** One character of a Python string. */
  type Code = x: int | 0 <= x < 0x11_0000

  type Text = seq<Code>

  function C(c: char): Code { c as int }

  const BACKSLASH: Code := 92
  const QUOTE: Code := 34
  const TAB: Code := 9
  const NEWLINE: Code := 10
  const RETURN: Code := 13

  // ----- unescaping

  function DigitOf(c: Code): (v: nat)
    ensures v <= 16
  {
    if C('0') <= c <= C('9') then c - C('0')
    else if C('a') <= c <= C('f') then c - C('a') + 10
    else if C('A') <= c <= C('F') then c - C('A') + 10
    else 16
  }

  predicate IsDigit(c: Code, radix: nat) { DigitOf(c) < radix }

  /** The number of digits at the head of s, at most `limit` of them. */
  function Run(s: Text, radix: nat, limit: nat): (n: nat)
    requires radix <= 16
    ensures n <= |s| && n <= limit && forall i :: 0 <= i < n ==> IsDigit(s[i], radix)
    ensures n < |s| && n < limit ==> !IsDigit(s[n], radix)
  {
    if limit == 0 || s == [] || !IsDigit(s[0], radix) then 0 else 1 + Run(s[1..], radix, limit - 1)
  }

  function Value(digits: Text, radix: nat): nat {
    if digits == [] then 0
    else Value(digits[..|digits| - 1], radix) * radix + DigitOf(digits[|digits| - 1])
  }

  /** The character named by a letter after a backslash. */
  function Simple(e: Code): Code {
    if e == C('n') then NEWLINE
    else if e == C('t') then TAB
    else if e == C('r') then RETURN
    else if e == C('0') then 0
    else if e == C('a') then 7
    else if e == C('b') then 8
    else if e == C('f') then 12
    else if e == C('v') then 11
    else e
  }

  /** The character that one escape denotes, and how much of s, the text after its backslash, it
      takes. None where Python raises ValueError: no hex digit, or a number past the last
      character. */
  function Escape(s: Text): (r: Option<(Code, nat)>)
    requires s != []
    ensures r.Some? ==> 0 < r.value.1 <= |s|
  {
    if IsDigit(s[0], 8) then
      var n := Run(s, 8, 3);
      OctalIsSmall(s[..n]);
      Some((Value(s[..n], 8), n))
    else if s[0] == C('x') then
      var n := Run(s[1..], 16, |s|);
      var v := Value(s[1..][..n], 16);
      if n == 0 || v >= 0x11_0000 then None else Some((v, 1 + n))
    else
      Some((Simple(s[0]), 1))
  }

  lemma OctalIsSmall(digits: Text)
    requires |digits| <= 3 && forall i :: 0 <= i < |digits| ==> IsDigit(digits[i], 8)
    ensures Value(digits, 8) < 512
  {
    if digits != [] {
      var s := digits[..|digits| - 1];
      if s != [] {
        assert Value(s[..|s| - 1], 8) < 8;
      }
    }
  }

  function Prepended(head: Text, tail: Option<Text>): Option<Text> {
    if tail.None? then None else Some(head + tail.value)
  }

  function Unescape(lit: Text): Option<Text> {
    if lit == [] then Some([])
    else if lit[0] != BACKSLASH then Prepended([lit[0]], Unescape(lit[1..]))
    else if |lit| == 1 then Some([])
    else
      match Escape(lit[1..])
      case None => None
      case Some((c, n)) => Prepended([c], Unescape(lit[1 + n..]))
  }

  lemma RunStep(s: Text, radix: nat, limit: nat)
    requires radix <= 16
    ensures limit == 0 || s == [] || !IsDigit(s[0], radix) ==> Run(s, radix, limit) == 0
    ensures limit > 0 && s != [] && IsDigit(s[0], radix) ==>
              Run(s, radix, limit) == 1 + Run(s[1..], radix, limit - 1)
  {
  }

  lemma PrependedJoins(head: Text, more: Text, tail: Option<Text>)
    ensures Prepended(head, Prepended(more, tail)) == Prepended(head + more, tail)
    ensures Prepended([], tail) == tail
    ensures tail == Some([]) ==> Prepended(head, tail) == Some(head)
  {
    if tail.Some? {
      assert head + (more + tail.value) == head + more + tail.value;
      assert [] + tail.value == tail.value && head + [] == head;
    }
  }

  lemma NoneStays(head: Text)
    ensures Prepended(head, None).None?
  {
  }

  /** The loop that gathers the digits of an escape. */
  method TakeRun(lit: Text, start: nat, radix: nat, limit: nat) returns (digits: Text, i: nat)
    requires start <= |lit| && radix <= 16
    ensures digits == lit[start..][..Run(lit[start..], radix, limit)]
    ensures i == start + |digits|
  {
    hide Run, IsDigit;
    digits, i := [], start;
    while i < |lit| && IsDigit(lit[i], radix) && |digits| < limit
      invariant start <= i <= |lit| && digits == lit[start..i] && |digits| <= limit
      invariant Run(lit[start..], radix, limit) == |digits| + Run(lit[i..], radix, limit - |digits|)
    {
      RunStep(lit[i..], radix, limit - |digits|);
      SlicesMove(lit, start, i);
      digits := digits + [lit[i]];
      i := i + 1;
    }
    RunStep(lit[i..], radix, limit - |digits|);
    assert lit[start..][..i - start] == lit[start..i];
  }

  lemma SlicesMove(lit: Text, start: nat, i: nat)
    requires start <= i < |lit|
    ensures lit[i..][1..] == lit[i + 1..] && lit[start..i] + [lit[i]] == lit[start..i + 1] && lit[i..][0] == lit[i]
  {
  }

  method UnescapeC(lit: Text) returns (result: Option<Text>)
    ensures result == Unescape(lit)
  {
    hide Escape, Run, Value, IsDigit, Prepended;
    var out: Text, i := [], 0;
    assert lit[0..] == lit;
    PrependedJoins([], [], Unescape(lit));
    while i < |lit|
      invariant i <= |lit|
      invariant Unescape(lit) == Prepended(out, Unescape(lit[i..]))
      decreases |lit| - i
    {
      ghost var rest := lit[i..];
      var c := lit[i];
      if c != BACKSLASH {
        assert rest[1..] == lit[i + 1..];
        PrependedJoins(out, [c], Unescape(lit[i + 1..]));
        out := out + [c];
        i := i + 1;
        continue;
      }
      i := i + 1;
      if i >= |lit| {
        PrependedJoins(out, [], Some([]));
        return Some(out);
      }
      assert rest[1..] == lit[i..];
      var escaped, next := OneEscape(lit, i);
      if escaped.None? {
        assert Prepended(out, None).None? by { NoneStays(out); }
        return None;
      }
      assert rest[1 + (next - i)..] == lit[next..];
      PrependedJoins(out, [escaped.value], Unescape(lit[next..]));
      out := out + [escaped.value];
      i := next;
    }
    PrependedJoins(out, [], Some([]));
    return Some(out);
  }

  method OneEscape(lit: Text, at: nat) returns (c: Option<Code>, i: nat)
    requires at < |lit|
    ensures c.None? <==> Escape(lit[at..]).None?
    ensures c.Some? ==> at < i <= |lit| && Escape(lit[at..]) == Some((c.value, i - at))
  {
    hide Run, Value;
    i := at;
    var e := lit[i];
    if IsDigit(e, 8) {
      var oct;
      oct, i := TakeRun(lit, i, 8, 3);
      OctalIsSmall(oct);
      return Some(Value(oct, 8)), i;
    }
    if e == C('x') {
      var hx;
      assert lit[at..][1..] == lit[i + 1..];
      hx, i := TakeRun(lit, i + 1, 16, |lit[at..]|);
      if hx == [] || Value(hx, 16) >= 0x11_0000 { return None, i; }
      return Some(Value(hx, 16)), i;
    }
    return Some(Simple(e)), i + 1;
  }

  // ----- escaping

  /** str.replace of a single character. */
  function Replace(s: Text, from: Code, into: Text): Text {
    if s == [] then [] else (if s[0] == from then into else [s[0]]) + Replace(s[1..], from, into)
  }

  function CatkeysEscape(s: Text): Text {
    Replace(Replace(Replace(Replace(s, BACKSLASH, [BACKSLASH, BACKSLASH]),
                            TAB, [BACKSLASH, C('t')]),
                    NEWLINE, [BACKSLASH, C('n')]),
            RETURN, [BACKSLASH, C('r')])
  }

  function LiteralEscape(s: Text): Text {
    Replace(Replace(Replace(Replace(Replace(s, BACKSLASH, [BACKSLASH, BACKSLASH]),
                                    QUOTE, [BACKSLASH, QUOTE]),
                            NEWLINE, [BACKSLASH, C('n')]),
                    TAB, [BACKSLASH, C('t')]),
            RETURN, [BACKSLASH, C('r')])
  }

  /** One pass over s: every character replaced by its own text. */
  function Expand(s: Text, image: Code -> Text): Text {
    if s == [] then [] else image(s[0]) + Expand(s[1..], image)
  }

  function CatkeysImage(c: Code): Text {
    if c == BACKSLASH then [BACKSLASH, BACKSLASH]
    else if c == TAB then [BACKSLASH, C('t')]
    else if c == NEWLINE then [BACKSLASH, C('n')]
    else if c == RETURN then [BACKSLASH, C('r')]
    else [c]
  }

  function LiteralImage(c: Code): Text {
    if c == QUOTE then [BACKSLASH, QUOTE] else CatkeysImage(c)
  }

  lemma {:induction false} ReplaceJoins(s: Text, t: Text, from: Code, into: Text)
    ensures Replace(s + t, from, into) == Replace(s, from, into) + Replace(t, from, into)
  {
    if s == [] {
      assert s + t == t;
    } else {
      assert (s + t)[1..] == s[1..] + t;
      ReplaceJoins(s[1..], t, from, into);
    }
  }

  /** A replace that follows a one-pass map is a one-pass map. */
  lemma {:induction false} ReplaceAfterExpand(s: Text, image: Code -> Text, from: Code, into: Text)
    ensures Replace(Expand(s, image), from, into) == Expand(s, c => Replace(image(c), from, into))
  {
    if s != [] {
      ReplaceJoins(image(s[0]), Expand(s[1..], image), from, into);
      ReplaceAfterExpand(s[1..], image, from, into);
    }
  }

  lemma {:induction false} SameImages(s: Text, image: Code -> Text, image': Code -> Text)
    requires forall c: Code :: image(c) == image'(c)
    ensures Expand(s, image) == Expand(s, image')
  {
    if s != [] {
      SameImages(s[1..], image, image');
    }
  }

  lemma {:induction false} ExpandsToItself(s: Text)
    ensures Expand(s, c => [c]) == s
  {
    if s != [] {
      ExpandsToItself(s[1..]);
    }
  }

  lemma ReplaceOfShort(t: Text, from: Code, into: Text)
    ensures t == [] ==> Replace(t, from, into) == []
    ensures |t| == 1 ==> Replace(t, from, into) == if t[0] == from then into else t
    ensures |t| == 2 && t[0] != from && t[1] != from ==> Replace(t, from, into) == t
  {
    if |t| == 2 {
      assert Replace(t[1..], from, into) == if t[1] == from then into else [t[1]];
    }
  }

  /** The chain of replaces is one pass, because no later replace meets what an earlier one
      put in. */
  lemma CatkeysEscapeIsOnePass(s: Text)
    ensures CatkeysEscape(s) == Expand(s, CatkeysImage)
  {
    hide Replace;
    ExpandsToItself(s);
    var i0 := (c: Code) => [c];
    var i1 := (c: Code) => Replace(i0(c), BACKSLASH, [BACKSLASH, BACKSLASH]);
    var i2 := (c: Code) => Replace(i1(c), TAB, [BACKSLASH, C('t')]);
    var i3 := (c: Code) => Replace(i2(c), NEWLINE, [BACKSLASH, C('n')]);
    var i4 := (c: Code) => Replace(i3(c), RETURN, [BACKSLASH, C('r')]);
    ReplaceAfterExpand(s, i0, BACKSLASH, [BACKSLASH, BACKSLASH]);
    ReplaceAfterExpand(s, i1, TAB, [BACKSLASH, C('t')]);
    ReplaceAfterExpand(s, i2, NEWLINE, [BACKSLASH, C('n')]);
    ReplaceAfterExpand(s, i3, RETURN, [BACKSLASH, C('r')]);
    forall c: Code ensures i4(c) == CatkeysImage(c) {
      ReplaceOfShort(i0(c), BACKSLASH, [BACKSLASH, BACKSLASH]);
      ReplaceOfShort(i1(c), TAB, [BACKSLASH, C('t')]);
      ReplaceOfShort(i2(c), NEWLINE, [BACKSLASH, C('n')]);
      ReplaceOfShort(i3(c), RETURN, [BACKSLASH, C('r')]);
    }
    SameImages(s, i4, CatkeysImage);
  }

  lemma LiteralEscapeIsOnePass(s: Text)
    ensures LiteralEscape(s) == Expand(s, LiteralImage)
  {
    hide Replace;
    ExpandsToItself(s);
    var i0 := (c: Code) => [c];
    var i1 := (c: Code) => Replace(i0(c), BACKSLASH, [BACKSLASH, BACKSLASH]);
    var i2 := (c: Code) => Replace(i1(c), QUOTE, [BACKSLASH, QUOTE]);
    var i3 := (c: Code) => Replace(i2(c), NEWLINE, [BACKSLASH, C('n')]);
    var i4 := (c: Code) => Replace(i3(c), TAB, [BACKSLASH, C('t')]);
    var i5 := (c: Code) => Replace(i4(c), RETURN, [BACKSLASH, C('r')]);
    ReplaceAfterExpand(s, i0, BACKSLASH, [BACKSLASH, BACKSLASH]);
    ReplaceAfterExpand(s, i1, QUOTE, [BACKSLASH, QUOTE]);
    ReplaceAfterExpand(s, i2, NEWLINE, [BACKSLASH, C('n')]);
    ReplaceAfterExpand(s, i3, TAB, [BACKSLASH, C('t')]);
    ReplaceAfterExpand(s, i4, RETURN, [BACKSLASH, C('r')]);
    forall c: Code ensures i5(c) == LiteralImage(c) {
      ReplaceOfShort(i0(c), BACKSLASH, [BACKSLASH, BACKSLASH]);
      ReplaceOfShort(i1(c), QUOTE, [BACKSLASH, QUOTE]);
      ReplaceOfShort(i2(c), NEWLINE, [BACKSLASH, C('n')]);
      ReplaceOfShort(i3(c), TAB, [BACKSLASH, C('t')]);
      ReplaceOfShort(i4(c), RETURN, [BACKSLASH, C('r')]);
    }
    SameImages(s, i5, LiteralImage);
  }

  // ----- round trips

  /** What an image of c unescapes to, whatever follows it. */
  ghost predicate Decodes(image: Code -> Text) {
    forall c: Code, rest: Text :: Unescape(image(c) + rest) == Prepended([c], Unescape(rest))
  }

  lemma ImagesDecode()
    ensures Decodes(CatkeysImage) && Decodes(LiteralImage)
  {
    hide Run, Value;
    forall c: Code, rest: Text
      ensures Unescape(CatkeysImage(c) + rest) == Prepended([c], Unescape(rest))
      ensures Unescape(LiteralImage(c) + rest) == Prepended([c], Unescape(rest))
    {
      var s := CatkeysImage(c) + rest;
      assert s[|CatkeysImage(c)|..] == rest;
      var t := LiteralImage(c) + rest;
      assert t[|LiteralImage(c)|..] == rest;
    }
  }

  lemma {:induction false} ExpansionUnescapes(s: Text, image: Code -> Text)
    requires Decodes(image)
    ensures Unescape(Expand(s, image)) == Some(s)
  {
    if s != [] {
      hide Unescape;
      ExpansionUnescapes(s[1..], image);
      var c, rest := s[0], Expand(s[1..], image);
      assert Unescape(image(c) + rest) == Prepended([c], Unescape(rest));
      hide Decodes;
      assert [s[0]] + s[1..] == s;
    }
  }

  lemma CatkeysRoundTrip(s: Text)
    ensures Unescape(CatkeysEscape(s)) == Some(s)
  {
    hide Unescape, CatkeysEscape, Decodes;
    CatkeysEscapeIsOnePass(s);
    ImagesDecode();
    ExpansionUnescapes(s, CatkeysImage);
  }

  lemma LiteralRoundTrip(s: Text)
    ensures Unescape(LiteralEscape(s)) == Some(s)
  {
    hide Unescape, LiteralEscape, Decodes;
    LiteralEscapeIsOnePass(s);
    ImagesDecode();
    ExpansionUnescapes(s, LiteralImage);
  }

  // ----- the places the escaped text is put in

  /** The text up to the closing quote, and what follows it: (?:\\.|[^"\\])*" */
  function LiteralBody(s: Text): Option<(Text, Text)> {
    if s == [] then None
    else if s[0] == QUOTE then Some(([], s[1..]))
    else if s[0] != BACKSLASH then Longer(s[..1], LiteralBody(s[1..]))
    else if |s| == 1 || s[1] == NEWLINE then None
    else Longer(s[..2], LiteralBody(s[2..]))
  }

  function Longer(head: Text, found: Option<(Text, Text)>): Option<(Text, Text)> {
    match found
    case None => None
    case Some((body, rest)) => Some((head + body, rest))
  }

  /** An escaped string written between quotes is the literal that the scan takes out of the
      file, wherever the string itself has quotes or backslashes. */
  lemma LiteralIsScannedWhole(s: Text, rest: Text)
    ensures LiteralBody(LiteralEscape(s) + [QUOTE] + rest) == Some((LiteralEscape(s), rest))
  {
    hide LiteralEscape;
    LiteralEscapeIsOnePass(s);
    ExpansionIsScannedWhole(s, rest);
  }

  lemma {:induction false} ExpansionIsScannedWhole(s: Text, rest: Text)
    ensures LiteralBody(Expand(s, LiteralImage) + [QUOTE] + rest) == Some((Expand(s, LiteralImage), rest))
  {
    if s == [] {
      assert ([QUOTE] + rest)[1..] == rest;
      assert Expand(s, LiteralImage) + [QUOTE] + rest == [QUOTE] + rest;
    } else {
      var head, more := LiteralImage(s[0]), Expand(s[1..], LiteralImage) + [QUOTE] + rest;
      var all := Expand(s, LiteralImage) + [QUOTE] + rest;
      assert all == head + more;
      assert all[..|head|] == head && all[|head|..] == more;
      ExpansionIsScannedWhole(s[1..], rest);
    }
  }

  /** str.split at a single character. */
  function Split(s: Text, at: Code): (parts: seq<Text>)
    ensures parts != []
  {
    if s == [] then [[]]
    else
      var parts := Split(s[1..], at);
      if s[0] == at then [[]] + parts else [[s[0]] + parts[0]] + parts[1..]
  }

  lemma {:induction false} SplitTakesField(field: Text, at: Code, rest: Text)
    requires at !in field
    ensures Split(field + [at] + rest, at) == [field] + Split(rest, at)
  {
    var s := field + [at] + rest;
    if field == [] {
      assert s[1..] == rest;
    } else {
      assert s[1..] == field[1..] + [at] + rest;
      assert field == [field[0]] + field[1..];
      SplitTakesField(field[1..], at, rest);
    }
  }

  lemma {:induction false} SplitLeavesWhole(field: Text, at: Code)
    requires at !in field
    ensures Split(field, at) == [field]
  {
    if field != [] {
      assert field == [field[0]] + field[1..];
      SplitLeavesWhole(field[1..], at);
    }
  }

  /** An escaped translation holds no character that ends a field or a line. */
  lemma {:induction false} ExpansionIsOneField(s: Text)
    ensures var e := Expand(s, CatkeysImage); TAB !in e && NEWLINE !in e && RETURN !in e
  {
    if s != [] {
      ExpansionIsOneField(s[1..]);
    }
  }

  function Line(source: Text, context: Text, comment: Text, translation: Text): Text {
    source + [TAB] + context + [TAB] + comment + [TAB] + CatkeysEscape(translation)
  }

  /** A written line is one line of four fields, whatever the translation holds, and its last
      field unescapes to the translation. */
  lemma WrittenLineParsesBack(source: Text, context: Text, comment: Text, translation: Text)
    requires forall s <- [source, context, comment] :: TAB !in s && NEWLINE !in s
    ensures var parts := Split(Line(source, context, comment, translation), TAB);
            |parts| == 4 && parts[..3] == [source, context, comment] && Unescape(parts[3]) == Some(translation)
    ensures NEWLINE !in Line(source, context, comment, translation)
  {
    hide CatkeysEscape, Unescape, Split;
    CatkeysEscapeIsOnePass(translation);
    ExpansionIsOneField(translation);
    CatkeysRoundTrip(translation);
    var last := CatkeysEscape(translation);
    assert TAB !in source && TAB !in context && TAB !in comment by {
      assert source in [source, context, comment] && context in [source, context, comment]
          && comment in [source, context, comment];
    }
    SplitLeavesWhole(last, TAB);
    SplitTakesField(comment, TAB, last);
    SplitTakesField(context, TAB, comment + [TAB] + last);
    SplitTakesField(source, TAB, context + [TAB] + (comment + [TAB] + last));
    assert Line(source, context, comment, translation)
        == source + [TAB] + (context + [TAB] + (comment + [TAB] + last));
  }

  // ----- what each escape denotes

  /** v in the given radix, with capital or small letters for digits past 9. */
  function Numeral(v: nat, radix: nat, capital: bool): (s: Text)
    requires 2 <= radix <= 16
    ensures s != []
    decreases v
  {
    if v < radix then [NumeralDigit(v, capital)] else Numeral(v / radix, radix, capital) + [NumeralDigit(v % radix, capital)]
  }

  function NumeralDigit(v: nat, capital: bool): Code
    requires v < 16
  {
    if v < 10 then 48 + v else if capital then 65 + v - 10 else 97 + v - 10
  }

  lemma {:induction false} NumeralReadBack(v: nat, radix: nat, capital: bool)
    requires 2 <= radix <= 16
    ensures Value(Numeral(v, radix, capital), radix) == v
    ensures forall i :: 0 <= i < |Numeral(v, radix, capital)| ==> IsDigit(Numeral(v, radix, capital)[i], radix)
    decreases v
  {
    hide Value, IsDigit;
    if v < radix {
      DigitReadBack(v, radix, capital);
      ValueAppend([], NumeralDigit(v, capital), radix);
      ValueOfNothing(radix);
      assert [] + [NumeralDigit(v, capital)] == [NumeralDigit(v, capital)];
    } else {
      NumeralReadBack(v / radix, radix, capital);
      DigitReadBack(v % radix, radix, capital);
      ValueAppend(Numeral(v / radix, radix, capital), NumeralDigit(v % radix, capital), radix);
      DivideAndMultiply(v, radix);
    }
  }

  lemma DigitReadBack(v: nat, radix: nat, capital: bool)
    requires v < radix <= 16
    ensures DigitOf(NumeralDigit(v, capital)) == v && IsDigit(NumeralDigit(v, capital), radix)
  {
  }

  lemma ValueAppend(s: Text, d: Code, radix: nat)
    ensures Value(s + [d], radix) == Value(s, radix) * radix + DigitOf(d)
  {
    assert (s + [d])[..|s|] == s;
  }

  lemma ValueOfNothing(radix: nat)
    ensures Value([], radix) == 0
  {
  }

  lemma DivideAndMultiply(v: nat, radix: nat)
    requires radix > 0
    ensures v / radix * radix + v % radix == v
  {
  }

  lemma {:induction false} RunTakesAll(digits: Text, rest: Text, radix: nat, limit: nat)
    requires radix <= 16 && |digits| <= limit && forall i :: 0 <= i < |digits| ==> IsDigit(digits[i], radix)
    requires |digits| == limit || rest == [] || !IsDigit(rest[0], radix)
    ensures Run(digits + rest, radix, limit) == |digits|
  {
    hide IsDigit;
    if digits == [] {
      assert digits + rest == rest;
    } else {
      assert (digits + rest)[1..] == digits[1..] + rest;
      RunTakesAll(digits[1..], rest, radix, limit - 1);
    }
  }

  /** A backslash and up to three octal digits denote the character of that number, if no further
      octal digit could belong to them. */
  lemma OctalDenotes(v: nat, rest: Text)
    requires |Numeral(v, 8, false)| <= 3
    requires |Numeral(v, 8, false)| == 3 || rest == [] || !(48 <= rest[0] <= 55)
    ensures v < 512 && Unescape([BACKSLASH] + Numeral(v, 8, false) + rest) == Prepended([v], Unescape(rest))
  {
    hide Unescape, Value, Numeral;
    var digits := Numeral(v, 8, false);
    NumeralReadBack(v, 8, false);
    OctalIsSmall(digits);
    RunTakesAll(digits, rest, 8, 3);
    assert (digits + rest)[..|digits|] == digits;
    EscapeFollows([BACKSLASH] + digits + rest, digits + rest, v, |digits|, rest);
  }

  lemma EscapeFollows(s: Text, after: Text, c: Code, n: nat, rest: Text)
    requires s == [BACKSLASH] + after && after != [] && Escape(after) == Some((c, n)) && after[n..] == rest
    ensures Unescape(s) == Prepended([c], Unescape(rest))
  {
    assert s[1..] == after && s[1 + n..] == rest;
  }

  /** A backslash, x and hexadecimal digits, capital or small, denote the character of that number; there is an error
      if it is past the last character, or if there is no digit. */
  lemma HexDenotes(v: nat, capital: bool, rest: Text)
    requires rest == [] || !IsDigit(rest[0], 16)
    ensures var s := [BACKSLASH, 120] + Numeral(v, 16, capital) + rest;
            Unescape(s) == if v < 0x11_0000 then Prepended([v], Unescape(rest)) else None
    ensures Unescape([BACKSLASH, 120] + rest) == None
  {
    hide Unescape, Value, Numeral, Escape, Run, IsDigit;
    var digits := Numeral(v, 16, capital);
    NumeralReadBack(v, 16, capital);
    var after := [120] + digits + rest;
    HexEscape(digits, rest);
    assert [BACKSLASH, 120] + digits + rest == [BACKSLASH] + after;
    assert after[1 + |digits|..] == rest;
    if v < 0x11_0000 {
      EscapeFollows([BACKSLASH] + after, after, v, 1 + |digits|, rest);
    } else {
      EscapeFails([BACKSLASH] + after, after);
    }
    HexEscape([], rest);
    assert [120] + [] + rest == [120] + rest;
    assert [BACKSLASH, 120] + rest == [BACKSLASH] + ([120] + rest);
    EscapeFails([BACKSLASH] + ([120] + rest), [120] + rest);
  }

  lemma HexEscape(digits: Text, rest: Text)
    requires forall i :: 0 <= i < |digits| ==> IsDigit(digits[i], 16)
    requires rest == [] || !IsDigit(rest[0], 16)
    ensures Escape([120] + digits + rest)
         == if digits == [] || Value(digits, 16) >= 0x11_0000 then None else Some((Value(digits, 16), 1 + |digits|))
  {
    hide Escape, Value, Run, IsDigit;
    var after := [120] + digits + rest;
    assert after[1..] == digits + rest;
    RunTakesAll(digits, rest, 16, |after|);
    assert after[1..][..|digits|] == digits;
    HexUnfolds(after);
  }

  lemma HexUnfolds(s: Text)
    requires s != [] && s[0] == 120
    ensures var n := Run(s[1..], 16, |s|);
            var v := Value(s[1..][..n], 16);
            Escape(s) == if n == 0 || v >= 0x11_0000 then None else Some((v, 1 + n))
  {
    hide Value, Run;
  }

  lemma EscapeFails(s: Text, after: Text)
    requires s == [BACKSLASH] + after && after != [] && Escape(after) == None
    ensures Unescape(s) == None
  {
    assert s[1..] == after;
  }

  /** The letters n, t, r, a, b, f and v denote control characters; any other character that begins
      no number denotes itself. */
  lemma LettersDenote(e: Code, rest: Text)
    requires !(48 <= e <= 55) && e != 120
    ensures Unescape([BACKSLASH, e] + rest)
         == Prepended([if e == C('n') then 10 else if e == C('t') then 9 else if e == C('r') then 13
                       else if e == C('a') then 7 else if e == C('b') then 8 else if e == C('f') then 12
                       else if e == C('v') then 11 else e], Unescape(rest))
  {
    hide Unescape, Run, Value;
    var after := [e] + rest;
    assert [BACKSLASH, e] + rest == [BACKSLASH] + after && after[1..] == rest;
    EscapeFollows([BACKSLASH] + after, after, Simple(e), 1, rest);
  }

  /** Anything else stands for itself, and a backslash at the very end for nothing. */
  lemma PlainDenotesItself(c: Code, rest: Text)
    requires c != BACKSLASH
    ensures Unescape([c] + rest) == Prepended([c], Unescape(rest))
    ensures Unescape([BACKSLASH]) == Some([])
  {
    assert ([c] + rest)[1..] == rest;
  }
}
