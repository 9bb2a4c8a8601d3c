/** Printing an IPv4 address, and finding one in a page of text. */
module Ipv4Text {
  import opened Option

  predicate IsDigit(c: char) { '0' <= c <= '9' }

  predicate IsBlank(c: char) { c == ' ' || '\t' <= c <= '\r' }

  function DigitValue(c: char): (v: nat)
    requires IsDigit(c)
    ensures v < 10
  {
    (c as int) - ('0' as int)
  }

  function DigitOf(v: nat): (c: char)
    requires v < 10
    ensures IsDigit(c) && DigitValue(c) == v
  {
    (('0' as int) + v) as char
  }

  /** %u and, for a number that is not negative, %d. */
  function Decimal(n: nat): (s: string)
    ensures s != [] && forall c <- s :: IsDigit(c)
  {
    if n < 10 then [DigitOf(n)] else Decimal(n / 10) + [DigitOf(n % 10)]
  }

  function Dotted(a: nat, b: nat, c: nat, d: nat): string {
    Decimal(a) + "." + Decimal(b) + "." + Decimal(c) + "." + Decimal(d)
  }

  /** What snprintf leaves in a buffer of the given size. */
  function Printed(s: string, size: nat): string
    requires size > 0
  {
    if |s| < size then s else s[..size - 1]
  }

  /** An address as uint32; shifting it by 24 and masking a byte are division and remainder. */
  type Ip = x: int | 0 <= x < 0x1_0000_0000

  /** The four octets, from the high end. */
  function Octets(ip: Ip): (nat, nat, nat, nat) {
    (ip / 0x100_0000 % 0x100, ip / 0x1_0000 % 0x100, ip / 0x100 % 0x100, ip % 0x100)
  }

  function IpToString(ip: Ip): string {
    var (a, b, c, d) := Octets(ip);
    Printed(Dotted(a, b, c, d), 24)
  }

  // ----- scanning

  /** The digits at the head of s, appended to the number read so far, and what follows them. */
  function Digits(s: string, read: nat): (r: (nat, string))
    ensures |r.1| <= |s|
  {
    if s != [] && IsDigit(s[0]) then Digits(s[1..], 10 * read + DigitValue(s[0])) else (read, s)
  }

  function SkipBlanks(s: string): (r: string)
    ensures |r| <= |s|
  {
    if s != [] && IsBlank(s[0]) then SkipBlanks(s[1..]) else s
  }

  /** A conversion by %d: blanks, a sign, and at least one digit. */
  function ScanInt(s: string): (r: Option<(int, string)>)
    ensures r.Some? ==> |r.value.1| < |s|
  {
    var t := SkipBlanks(s);
    var negative := t != [] && t[0] == '-';
    var u := if t != [] && (t[0] == '-' || t[0] == '+') then t[1..] else t;
    if u == [] || !IsDigit(u[0]) then None
    else
      var (n, rest) := Digits(u[1..], DigitValue(u[0]));
      Some((if negative then -(n as int) else n, rest))
  }

  /** A literal dot, then a conversion. */
  function ScanDotInt(s: string): Option<(int, string)> {
    if s == [] || s[0] != '.' then None else ScanInt(s[1..])
  }

  /** The four numbers of the pattern %d.%d.%d.%d, and what follows. */
  function ScanDotted(s: string): Option<(int, int, int, int, string)> {
    match ScanInt(s)
    case None => None
    case Some((a, s1)) =>
      match ScanDotInt(s1)
      case None => None
      case Some((b, s2)) =>
        match ScanDotInt(s2)
        case None => None
        case Some((c, s3)) =>
          match ScanDotInt(s3)
          case None => None
          case Some((d, s4)) => Some((a, b, c, d, s4))
  }

  predicate IsByte(n: int) { 0 <= n <= 255 }

  predicate IsNumeral(c: char) { IsDigit(c) || c == '.' }

  /** The address that s begins with, if one ends before any further digit or dot. */
  function AddressAtHead(s: string): Option<string> {
    match ScanDotted(s)
    case None => None
    case Some((a, b, c, d, rest)) =>
      if IsByte(a) && IsByte(b) && IsByte(c) && IsByte(d) && !(rest != [] && IsNumeral(rest[0]))
      then Some(Printed(Dotted(a, b, c, d), 16))
      else None
  }

  /** The address that starts at p: p holds a digit and the text before p is not mid-number. */
  function AddressAt(text: string, p: nat): Option<string>
    requires p < |text|
  {
    if !IsDigit(text[p]) || (p > 0 && IsNumeral(text[p - 1])) then None else AddressAtHead(text[p..])
  }

  /** The first address at or after p, before the end of the C string. */
  function Extract(text: string, p: nat): Option<string>
    requires p <= |text|
    decreases |text| - p
  {
    if p == |text| || text[p] == '\0' then None
    else if AddressAt(text, p).Some? then AddressAt(text, p)
    else Extract(text, p + 1)
  }

  method ExtractIPv4(text: string, previous: string) returns (found: bool, outIP: string)
    ensures found == Extract(text, 0).Some?
    ensures outIP == if found then Extract(text, 0).value else previous
  {
    hide AddressAtHead;
    outIP := previous;
    var p := 0;
    while p < |text| && text[p] != '\0'
      invariant p <= |text|
      invariant Extract(text, 0) == Extract(text, p)
    {
      if IsDigit(text[p]) && !(p > 0 && IsNumeral(text[p - 1])) {
        var address := AddressAtHead(text[p..]);
        if address.Some? {
          return true, address.value;
        }
      }
      p := p + 1;
    }
    return false, previous;
  }

  // ----- printing then scanning

  lemma {:induction false} DigitsReadBack(n: nat, rest: string)
    ensures Digits(Decimal(n) + rest, 0) == Digits(rest, n)
    decreases n
  {
    if n < 10 {
      assert (Decimal(n) + rest)[1..] == rest;
    } else {
      var last := [DigitOf(n % 10)];
      assert Decimal(n) + rest == Decimal(n / 10) + (last + rest);
      DigitsReadBack(n / 10, last + rest);
      assert (last + rest)[1..] == rest;
    }
  }

  predicate EndsNumber(rest: string) { rest == [] || !IsDigit(rest[0]) }

  lemma IntReadBack(n: nat, rest: string)
    requires EndsNumber(rest)
    ensures ScanInt(Decimal(n) + rest) == Some((n as int, rest))
  {
    DigitsReadBack(n, rest);
    assert (Decimal(n) + rest)[0] == Decimal(n)[0];
  }

  lemma DotIntReadBack(n: nat, rest: string)
    requires EndsNumber(rest)
    ensures ScanDotInt("." + Decimal(n) + rest) == Some((n as int, rest))
  {
    IntReadBack(n, rest);
    assert ("." + Decimal(n) + rest)[1..] == Decimal(n) + rest;
  }

  lemma DottedReadBack(a: nat, b: nat, c: nat, d: nat, rest: string)
    requires EndsNumber(rest)
    ensures ScanDotted(Dotted(a, b, c, d) + rest) == Some((a as int, b as int, c as int, d as int, rest))
  {
    var s3 := "." + Decimal(d) + rest;
    var s2 := "." + Decimal(c) + s3;
    var s1 := "." + Decimal(b) + s2;
    assert Dotted(a, b, c, d) + rest == Decimal(a) + s1;
    hide Decimal, Dotted, ScanInt, ScanDotInt;
    IntReadBack(a, s1);
    DotIntReadBack(b, s2);
    DotIntReadBack(c, s3);
    DotIntReadBack(d, rest);
  }

  /** Neither buffer is ever too small for an address. */
  lemma BuffersSuffice(a: nat, b: nat, c: nat, d: nat)
    requires IsByte(a) && IsByte(b) && IsByte(c) && IsByte(d)
    ensures Printed(Dotted(a, b, c, d), 16) == Printed(Dotted(a, b, c, d), 24) == Dotted(a, b, c, d)
  {
    ByteIsShort(a);
    ByteIsShort(b);
    ByteIsShort(c);
    ByteIsShort(d);
  }

  lemma ByteIsShort(n: nat)
    requires n <= 255
    ensures |Decimal(n)| <= 3
  {
    if n >= 10 {
      assert |Decimal(n)| == |Decimal(n / 10)| + 1;
      if n >= 100 {
        assert |Decimal(n / 10)| == |Decimal(n / 10 / 10)| + 1;
      }
    }
  }

  lemma AddressAtHeadReadBack(ip: Ip, rest: string)
    requires rest != [] ==> !IsNumeral(rest[0])
    ensures AddressAtHead(IpToString(ip) + rest) == Some(IpToString(ip))
    ensures IpToString(ip) != [] && IsDigit(IpToString(ip)[0])
  {
    var (a, b, c, d) := Octets(ip);
    DottedStartsWithDigit(a, b, c, d);
    hide Dotted, Printed, ScanDotted;
    BuffersSuffice(a, b, c, d);
    DottedReadBack(a, b, c, d, rest);
  }

  lemma DottedStartsWithDigit(a: nat, b: nat, c: nat, d: nat)
    ensures Dotted(a, b, c, d) != [] && IsDigit(Dotted(a, b, c, d)[0])
  {
    assert Dotted(a, b, c, d)[0] == Decimal(a)[0];
  }

  /** An address printed into any text is found again, character for character, if no digit
      comes before it and the characters around it do not run into it. */
  lemma PrintedAddressIsFound(ip: Ip, before: string, after: string)
    requires forall c <- before :: !IsDigit(c) && c != '\0'
    requires before != [] ==> before[|before| - 1] != '.'
    requires after != [] ==> !IsNumeral(after[0])
    ensures Extract(before + IpToString(ip) + after, 0) == Some(IpToString(ip))
  {
    hide IpToString, AddressAtHead, Extract;
    var text := before + IpToString(ip) + after;
    AddressAtHeadReadBack(ip, after);
    assert text[|before|..] == IpToString(ip) + after;
    assert text[|before|] == IpToString(ip)[0];
    assert |before| > 0 ==> text[|before| - 1] == before[|before| - 1];
    assert AddressAt(text, |before|) == Some(IpToString(ip));
    forall i | 0 <= i < |before| ensures text[i] in before {
      assert text[i] == before[i];
    }
    SkipsTo(text, |before|, 0);
    FoundHere(text, |before|);
  }

  lemma FoundHere(text: string, p: nat)
    requires p < |text| && AddressAt(text, p).Some?
    ensures Extract(text, p) == AddressAt(text, p)
  {
  }

  lemma {:induction false} SkipsTo(text: string, start: nat, p: nat)
    requires p <= start < |text| && (forall i :: p <= i < start ==> !IsDigit(text[i]) && text[i] != '\0')
    ensures Extract(text, p) == Extract(text, start)
    decreases start - p
  {
    if p < start {
      SkipsTo(text, start, p + 1);
    }
  }

  // ----- whatever is found is an address

  lemma OctetsOf(a: nat, b: nat, c: nat, d: nat)
    requires IsByte(a) && IsByte(b) && IsByte(c) && IsByte(d)
    ensures var ip := a * 0x100_0000 + b * 0x1_0000 + c * 0x100 + d;
            ip < 0x1_0000_0000 && Octets(ip) == (a, b, c, d)
  {
    var ip: Ip := a * 0x100_0000 + b * 0x1_0000 + c * 0x100 + d;
    assert ip / 0x100_0000 == a;
    assert ip / 0x1_0000 == a * 0x100 + b;
    assert ip / 0x100 == (a * 0x100 + b) * 0x100 + c;
    assert (a * 0x100 + b) % 0x100 == b;
    assert ((a * 0x100 + b) * 0x100 + c) % 0x100 == c;
    assert ip % 0x100 == d;
  }

  lemma DottedIsPrinted(a: nat, b: nat, c: nat, d: nat) returns (ip: Ip)
    requires IsByte(a) && IsByte(b) && IsByte(c) && IsByte(d)
    ensures IpToString(ip) == Printed(Dotted(a, b, c, d), 16)
  {
    OctetsOf(a, b, c, d);
    ip := a * 0x100_0000 + b * 0x1_0000 + c * 0x100 + d;
    hide Octets, Dotted, Printed;
    BuffersSuffice(a, b, c, d);
  }

  /** Every text that the scan yields is the printed form of some 32-bit address. */
  lemma {:induction false} FoundTextIsAnAddress(text: string, p: nat) returns (ip: Ip)
    requires p <= |text| && Extract(text, p).Some?
    ensures Extract(text, p) == Some(IpToString(ip))
    decreases |text| - p
  {
    hide IpToString, Printed, Dotted, ScanDotted;
    if AddressAt(text, p).Some? {
      var (a, b, c, d, rest) := ScanDotted(text[p..]).value;
      ip := DottedIsPrinted(a, b, c, d);
    } else {
      ip := FoundTextIsAnAddress(text, p + 1);
    }
  }

  /** Scanning is idempotent: a found address, scanned again, yields itself. */
  lemma FoundTextIsFoundAgain(text: string)
    requires Extract(text, 0).Some?
    ensures Extract(Extract(text, 0).value, 0) == Extract(text, 0)
  {
    hide Extract, IpToString;
    var ip := FoundTextIsAnAddress(text, 0);
    PrintedAddressIsFound(ip, "", "");
    assert "" + IpToString(ip) + "" == IpToString(ip);
  }

  /** The high octet comes first, in decimal. */
  lemma OctetsReadHighToLow(a: nat, b: nat, c: nat, d: nat)
    requires IsByte(a) && IsByte(b) && IsByte(c) && IsByte(d)
    ensures var ip := a * 0x100_0000 + b * 0x1_0000 + c * 0x100 + d;
            ip < 0x1_0000_0000
            && IpToString(ip) == Decimal(a) + "." + Decimal(b) + "." + Decimal(c) + "." + Decimal(d)
  {
    OctetsOf(a, b, c, d);
    hide Octets, Decimal, Printed;
    BuffersSuffice(a, b, c, d);
  }

  lemma KnownAddresses()
    ensures IpToString(0x7F00_0001) == "127.0.0.1" && IpToString(0xC0A8_01FE) == "192.168.1.254"
  {
    hide Decimal, IpToString;
    KnownDecimals();
    OctetsReadHighToLow(127, 0, 0, 1);
    OctetsReadHighToLow(192, 168, 1, 254);
  }

  lemma KnownDecimals()
    ensures Decimal(0) == "0" && Decimal(1) == "1" && Decimal(127) == "127"
    ensures Decimal(192) == "192" && Decimal(168) == "168" && Decimal(254) == "254"
  {
    TwoDigits(12);
    TwoDigits(19);
    TwoDigits(16);
    TwoDigits(25);
  }

  lemma TwoDigits(n: nat)
    requires 10 <= n < 100
    ensures Decimal(n) == [DigitOf(n / 10), DigitOf(n % 10)]
  {
  }

  // ----- where an address is found

  /** A found address stands alone: it starts at a digit that neither a digit nor a dot precedes, and
      ends, after its fourth number, where neither a digit nor a dot follows. */
  lemma {:induction false} FoundAddressStandsAlone(text: string, p: nat) returns (at: nat, rest: string)
    requires p <= |text| && Extract(text, p).Some?
    ensures p <= at < |text| && IsDigit(text[at])
    ensures at > 0 ==> !IsDigit(text[at - 1]) && text[at - 1] != '.'
    ensures rest != "" ==> !IsDigit(rest[0]) && rest[0] != '.'
    ensures exists a, b, c, d :: ScanDotted(text[at..]) == Some((a, b, c, d, rest))
    decreases |text| - p
  {
    if AddressAt(text, p).Some? {
      at := p;
      var (a, b, c, d, r) := ScanDotted(text[p..]).value;
      rest := r;
    } else {
      at, rest := FoundAddressStandsAlone(text, p + 1);
    }
  }

  /** Between a dot and its number there may be blanks, and a sign, as the pattern's %d allows. */
  lemma BlanksAndSignsAreSkipped(blanks: string, sign: string, n: nat, rest: string)
    requires forall c <- blanks :: c == ' ' || c == '\t' || c == '\n' || c == '\r'
    requires sign == "" || sign == "+" || sign == "-"
    requires EndsNumber(rest)
    ensures ScanDotInt("." + blanks + sign + Decimal(n) + rest) == Some((if sign == "-" then -(n as int) else n, rest))
  {
    hide Decimal, Digits;
    var signed := sign + Decimal(n) + rest;
    var s := "." + blanks + sign + Decimal(n) + rest;
    assert s[1..] == blanks + signed;
    assert Decimal(n)[0] in Decimal(n);
    NoDigits(rest, n);
    assert signed != "" && signed[0] == if sign == "" then Decimal(n)[0] else sign[0];
    BlanksSkipped(blanks, signed);
    DigitsReadBack(n, rest);
    var u := Decimal(n) + rest;
    assert sign != "" ==> signed[1..] == u;
    assert sign == "" ==> signed == u;
    assert u[0] == Decimal(n)[0] && IsDigit(u[0]);
    FirstDigit(u);
  }

  lemma NoDigits(rest: string, read: nat)
    requires EndsNumber(rest)
    ensures Digits(rest, read) == (read, rest)
  {
  }

  lemma FirstDigit(u: string)
    requires u != "" && IsDigit(u[0])
    ensures Digits(u, 0) == Digits(u[1..], DigitValue(u[0]))
  {
  }

  lemma {:induction false} BlanksSkipped(blanks: string, s: string)
    requires forall c <- blanks :: IsBlank(c)
    requires s != "" && !IsBlank(s[0])
    ensures SkipBlanks(blanks + s) == s
  {
    if blanks == "" {
      assert blanks + s == s;
    } else {
      assert (blanks + s)[1..] == blanks[1..] + s;
      BlanksSkipped(blanks[1..], s);
    }
  }
}
