/** IPv4 addresses as text: the printing and parsing loops that both engines and the rule manager share. */
module IpText {
  import opened Types
  import opened Text

  // ---------------------------------------------------------------- bitwise or on numbers

  function BitOr(a: nat, b: nat): (r: nat)
    decreases a + b
  {
    if a == 0 && b == 0 then 0
    else 2 * BitOr(a / 2, b / 2) + if a % 2 == 1 || b % 2 == 1 then 1 else 0
  }

  function Pow2(n: nat): (p: nat)
    ensures p > 0
  {
    if n == 0 then 1 else 2 * Pow2(n - 1)
  }

  lemma {:induction false} BitOrZero(b: nat)
    ensures BitOr(0, b) == b
  {
    if b > 0 {
      BitOrZero(b / 2);
    }
  }

  /** Shifted above the other operand, the second operand is added. */
  lemma {:induction false} BitOrAdds(a: nat, b: nat, shift: nat)
    requires a < Pow2(shift)
    ensures BitOr(a, b * Pow2(shift)) == a + b * Pow2(shift)
    decreases shift
  {
    if shift == 0 {
      BitOrZero(b);
    } else {
      var high := b * Pow2(shift - 1);
      assert b * Pow2(shift) == 2 * high;
      BitOrAdds(a / 2, b, shift - 1);
    }
  }

  // ---------------------------------------------------------------- parsing

  /**
   The locals of the parsing loop. C++ leaves the result undefined once the octet overflows an `int`
   or the shift exceeds the width; here that is `Undefined`.
   */
  datatype Parsing = Parsing(result: nat, octet: nat, shift: nat) | Undefined

  const INT_MAX := 0x7fff_ffff
  const START := Parsing(0, 0, 0)

  /** `result |= octet << shift`, defined as long as the shifted value has at most 32 bits. */
  function Merge(p: Parsing): Option<nat> {
    if p.Undefined? || p.shift >= 32 || p.octet * Pow2(p.shift) >= 0x1_0000_0000 then None
    else Some(BitOr(p.result, p.octet * Pow2(p.shift)))
  }

  function Step(p: Parsing, c: char): Parsing {
    if p.Undefined? then Undefined
    else if c == '.' then
      var merged := Merge(p);
      if merged.None? then Undefined else Parsing(merged.value, 0, p.shift + 8)
    else if IsDigit(c) then
      var octet := p.octet * 10 + DigitValue(c);
      if octet > INT_MAX then Undefined else p.(octet := octet)
    else p
  }

  function Scan(p: Parsing, text: string): Parsing {
    if text == "" then p else Step(Scan(p, text[..|text| - 1]), text[|text| - 1])
  }

  /** The address that a text denotes; on texts whose parse C++ leaves undefined, none. */
  function ParseIP(text: string): Option<uint32> {
    ScanStaysInWord(text);
    var merged := Merge(Scan(START, text));
    if merged.None? then None else Some(merged.value)
  }

  lemma {:induction false} BitOrStaysBelow(a: nat, b: nat, n: nat)
    requires a < Pow2(n) && b < Pow2(n)
    ensures BitOr(a, b) < Pow2(n)
    decreases n
  {
    if n > 0 && (a > 0 || b > 0) {
      BitOrStaysBelow(a / 2, b / 2, n - 1);
    }
  }

  lemma MergeStaysInWord(p: Parsing)
    requires p.Parsing? && p.result < 0x1_0000_0000
    ensures Merge(p).Some? ==> Merge(p).value < 0x1_0000_0000
  {
    if Merge(p).Some? {
      Pow2Of32();
      BitOrStaysBelow(p.result, p.octet * Pow2(p.shift), 32);
    }
  }

  lemma {:induction false} ScanStaysInWord(text: string)
    ensures var p := Scan(START, text); p.Parsing? ==> p.result < 0x1_0000_0000
    ensures Merge(Scan(START, text)).Some? ==> Merge(Scan(START, text)).value < 0x1_0000_0000
  {
    if text != "" {
      var before := text[..|text| - 1];
      ScanStaysInWord(before);
      if Scan(START, before).Parsing? {
        MergeStaysInWord(Scan(START, before));
      }
    }
    if Scan(START, text).Parsing? {
      MergeStaysInWord(Scan(START, text));
    }
  }

  /** The loop itself. */
  method ParseIPLoop(text: string) returns (result: Option<uint32>)
    ensures result == ParseIP(text)
  {
    var p := START;
    var i := 0;
    while i < |text|
      invariant 0 <= i <= |text|
      invariant p == Scan(START, text[..i])
    {
      p := Step(p, text[i]);
      i := i + 1;
      assert text[..i][..i - 1] == text[..i - 1];
    }
    assert text[..i] == text;
    ScanStaysInWord(text);
    var merged := Merge(p);
    result := if merged.None? then None else Some(merged.value);
  }

  lemma {:induction false} ScanAppend(p: Parsing, a: string, b: string)
    ensures Scan(p, a + b) == Scan(Scan(p, a), b)
    decreases |b|
  {
    if b == "" {
      assert a + b == a;
    } else {
      var front := b[..|b| - 1];
      ScanAppend(p, a, front);
      assert (a + b)[..|a + b| - 1] == a + front;
    }
  }

  /** One more digit. */
  lemma ScanDigit(p: Parsing, front: string, n: nat)
    requires Scan(p, front).Parsing? && Scan(p, front).octet == n / 10 && n <= INT_MAX
    ensures Scan(p, front + ['0' + (n % 10) as char]) == Scan(p, front).(octet := n)
  {
  }

  lemma {:induction false} ScanDecimal(p: Parsing, n: nat)
    requires p.Parsing? && p.octet == 0 && n <= INT_MAX
    ensures Scan(p, Decimal(n)) == p.(octet := n)
  {
    if n < 10 {
      ScanDigit(p, "", n);
      assert "" + ['0' + (n % 10) as char] == ['0' + (n % 10) as char];
    } else {
      ScanDecimal(p, n / 10);
      ScanDigit(p, Decimal(n / 10), n);
    }
  }

  // ---------------------------------------------------------------- printing

  /** The number whose lowest byte is the first byte in memory. */
  function LittleEndian(b0: byte, b1: byte, b2: byte, b3: byte): uint32 {
    b0 as int + 0x100 * b1 as int + 0x1_0000 * b2 as int + 0x100_0000 * b3 as int
  }

  /** Octets in decimal with dots between them. */
  function Dotted(octets: seq<byte>): string
    requires |octets| >= 1
  {
    if |octets| == 1 then Decimal(octets[0]) else Decimal(octets[0]) + "." + Dotted(octets[1..])
  }

  /** The four bytes, lowest first. */
  function Octets(ip: uint32): (octets: seq<byte>)
    ensures |octets| == 4
  {
    [ip % 0x100, ip / 0x100 % 0x100, ip / 0x1_0000 % 0x100, ip / 0x100_0000 % 0x100]
  }

  function IpToString(ip: uint32): string {
    Dotted(Octets(ip))
  }

  lemma MergeAdds(p: Parsing)
    requires p.Parsing? && p.shift <= 24 && p.result < Pow2(p.shift) && p.octet * Pow2(p.shift) < 0x1_0000_0000
    ensures Merge(p) == Some(p.result + p.octet * Pow2(p.shift))
  {
    BitOrAdds(p.result, p.octet, p.shift);
  }

  /** One octet with its dot moves the parse eight bits on. */
  lemma ScanField(p: Parsing, b: nat)
    requires p.Parsing? && p.octet == 0 && p.shift <= 16 && p.result < Pow2(p.shift) && b < 0x100
    requires b * Pow2(p.shift) < 0x1_0000_0000
    ensures Scan(p, Decimal(b) + ".") == Parsing(p.result + b * Pow2(p.shift), 0, p.shift + 8)
  {
    ScanDecimal(p, b);
    MergeAdds(p.(octet := b));
    var text := Decimal(b) + ".";
    assert text[..|text| - 1] == Decimal(b);
  }

  lemma {:induction false} Pow2Grows(m: nat, n: nat)
    requires m <= n
    ensures Pow2(m) <= Pow2(n)
    decreases n - m
  {
    if m < n {
      Pow2Grows(m + 1, n);
    }
  }

  lemma Pow2OfByte(n: nat)
    ensures Pow2(n + 8) == 0x100 * Pow2(n)
  {
    assert Pow2(n + 2) == 4 * Pow2(n);
    assert Pow2(n + 4) == 4 * Pow2(n + 2);
    assert Pow2(n + 6) == 4 * Pow2(n + 4);
    assert Pow2(n + 8) == 4 * Pow2(n + 6);
  }

  lemma Pow2Of32()
    ensures Pow2(32) == 0x1_0000_0000
  {
    Pow2OfByte(0);
    Pow2OfByte(8);
    Pow2OfByte(16);
    Pow2OfByte(24);
  }

  lemma BelowNextByte(r: nat, b: nat, w: nat)
    requires r < w && b < 0x100
    ensures r + b * w < 0x100 * w
  {
  }

  lemma OctetFits(p: Parsing, b: nat)
    requires p.Parsing? && p.shift <= 24 && p.result < Pow2(p.shift) && b < 0x100
    ensures p.result + b * Pow2(p.shift) < Pow2(p.shift + 8) <= 0x1_0000_0000
  {
    Pow2OfByte(p.shift);
    Pow2Grows(p.shift + 8, 32);
    Pow2Of32();
    BelowNextByte(p.result, b, Pow2(p.shift));
  }

  /** The number of octets given lowest first. */
  function Number(octets: seq<byte>): nat {
    if octets == [] then 0 else octets[0] as nat + 0x100 * Number(octets[1..])
  }

  lemma ParseLast(p: Parsing, b: nat)
    requires p.Parsing? && p.octet == 0 && p.shift <= 24 && p.result < Pow2(p.shift) && b < 0x100
    ensures Merge(Scan(p, Decimal(b))) == Some(p.result + b * Pow2(p.shift))
  {
    OctetFits(p, b);
    ScanDecimal(p, b);
    MergeAdds(p.(octet := b));
  }

  lemma ParseFirst(p: Parsing, b: nat, rest: string)
    requires p.Parsing? && p.octet == 0 && p.shift <= 16 && p.result < Pow2(p.shift) && b < 0x100
    ensures p.result + b * Pow2(p.shift) < Pow2(p.shift + 8)
    ensures Scan(p, Decimal(b) + "." + rest) == Scan(Parsing(p.result + b * Pow2(p.shift), 0, p.shift + 8), rest)
  {
    OctetFits(p, b);
    ScanField(p, b);
    ScanAppend(p, Decimal(b) + ".", rest);
  }

  lemma NumberSplits(octets: seq<byte>, shift: nat)
    requires octets != []
    ensures Pow2(shift) * Number(octets) == octets[0] as nat * Pow2(shift) + Pow2(shift + 8) * Number(octets[1..])
  {
    var w, n := Pow2(shift), Number(octets[1..]);
    Pow2OfByte(shift);
    assert w * (0x100 * n) == 0x100 * w * n;
  }

  /** The whole text is read as the octets' number, shifted to where the parse stands. */
  predicate IsRead(p: Parsing, octets: seq<byte>)
    requires p.Parsing? && |octets| >= 1
  {
    Merge(Scan(p, Dotted(octets))) == Some(p.result + Pow2(p.shift) * Number(octets))
  }

  lemma LastIsRead(p: Parsing, octets: seq<byte>)
    requires p.Parsing? && p.octet == 0 && p.shift <= 24 && p.result < Pow2(p.shift) && |octets| == 1
    ensures IsRead(p, octets)
  {
    NumberSplits(octets, p.shift);
    ParseLast(p, octets[0]);
    assert Pow2(p.shift + 8) * Number(octets[1..]) == 0;
  }

  lemma FirstIsRead(p: Parsing, octets: seq<byte>, next: Parsing)
    requires p.Parsing? && p.octet == 0 && p.shift <= 16 && p.result < Pow2(p.shift) && |octets| > 1
    requires next == Parsing(p.result + octets[0] as nat * Pow2(p.shift), 0, p.shift + 8) && IsRead(next, octets[1..])
    ensures IsRead(p, octets)
  {
    NumberSplits(octets, p.shift);
    ParseFirst(p, octets[0], Dotted(octets[1..]));
  }

  lemma {:induction false} ParseDotted(p: Parsing, octets: seq<byte>)
    requires p.Parsing? && p.octet == 0 && p.result < Pow2(p.shift)
    requires |octets| >= 1 && p.shift + 8 * |octets| <= 32
    ensures IsRead(p, octets)
    decreases |octets|
  {
    if |octets| == 1 {
      LastIsRead(p, octets);
    } else {
      OctetFits(p, octets[0]);
      var next := Parsing(p.result + octets[0] as nat * Pow2(p.shift), 0, p.shift + 8);
      ParseDotted(next, octets[1..]);
      FirstIsRead(p, octets, next);
    }
  }

  lemma NumberOfBytes(ip: uint32)
    ensures LittleEndian(ip % 0x100, ip / 0x100 % 0x100, ip / 0x1_0000 % 0x100, ip / 0x100_0000 % 0x100) == ip
  {
    var q1 := ip / 0x100;
    var q2 := q1 / 0x100;
    var q3 := q2 / 0x100;
    assert ip == 0x100 * q1 + ip % 0x100 && q1 == 0x100 * q2 + q1 % 0x100 && q2 == 0x100 * q3 + q2 % 0x100;
    assert ip / 0x1_0000 == q2;
    assert ip / 0x100_0000 == q3 < 0x100;
  }

  /** Four printed octets are read back as the number they have in memory. */
  lemma FourOctets(b0: byte, b1: byte, b2: byte, b3: byte)
    ensures ParseIP(Dotted([b0, b1, b2, b3])) == Some(LittleEndian(b0, b1, b2, b3))
  {
    var bs: seq<byte> := [b0, b1, b2, b3];
    assert bs[1..] == [b1, b2, b3] && bs[1..][1..] == [b2, b3] && bs[1..][1..][1..] == [b3];
    assert Number(bs) == LittleEndian(b0, b1, b2, b3) by {
      assert Number([b3]) == b3;
      assert Number([b2, b3]) == b2 + 0x100 * b3;
      assert Number([b1, b2, b3]) == b1 + 0x100 * b2 + 0x1_0000 * b3;
    }
    ParseDotted(START, bs);
  }

  /** Every 32-bit address is read back from its printed form. */
  lemma AddressRoundTrip(ip: uint32)
    ensures ParseIP(IpToString(ip)) == Some(ip)
  {
    NumberOfBytes(ip);
    FourOctets(ip % 0x100, ip / 0x100 % 0x100, ip / 0x1_0000 % 0x100, ip / 0x100_0000 % 0x100);
  }

  lemma BytesOfNumber(b0: byte, b1: byte, b2: byte, b3: byte)
    ensures var ip := LittleEndian(b0, b1, b2, b3);
      ip % 0x100 == b0 && ip / 0x100 % 0x100 == b1 && ip / 0x1_0000 % 0x100 == b2 && ip / 0x100_0000 % 0x100 == b3
  {
    var ip := LittleEndian(b0, b1, b2, b3);
    assert ip / 0x100 == b1 as int + 0x100 * b2 as int + 0x1_0000 * b3 as int;
    assert ip / 0x1_0000 == b2 as int + 0x100 * b3 as int;
    assert ip / 0x100_0000 == b3;
  }

  lemma OctetsOfNumber(octets: seq<byte>)
    requires |octets| == 4
    ensures Octets(LittleEndian(octets[0], octets[1], octets[2], octets[3])) == octets
  {
    BytesOfNumber(octets[0], octets[1], octets[2], octets[3]);
  }

  /** The address whose bytes in memory are these prints them in that order. */
  lemma BytesOfAddress(octets: seq<byte>)
    requires |octets| == 4
    ensures IpToString(LittleEndian(octets[0], octets[1], octets[2], octets[3])) == Dotted(octets)
  {
    OctetsOfNumber(octets);
  }

  /** Addresses print alike only when they are alike, in numbers and in bytes. */
  lemma PrintingIsInjective(a: uint32, b: uint32)
    ensures IpToString(a) == IpToString(b) <==> a == b
  {
    AddressRoundTrip(a);
    AddressRoundTrip(b);
  }
}
