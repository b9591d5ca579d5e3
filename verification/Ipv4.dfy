/** IPv4 addresses and prefixes, as numbers and as the text that net/netip and the PAC script
    exchange. */
module Ipv4 {
  import opened Wrappers

  type Ip = bv32

  /** A prefix length. */
  type Bits = b: bv32 | b <= 32

  // ----- decimal -----

  function Digit(d: bv16): char
    requires d < 10
  {
    if d == 0 then '0' else if d == 1 then '1' else if d == 2 then '2' else if d == 3 then '3' else if d == 4 then '4'
    else if d == 5 then '5' else if d == 6 then '6' else if d == 7 then '7' else if d == 8 then '8' else '9'
  }

  predicate IsDigit(c: char) {
    '0' <= c <= '9'
  }

  function DigitValue(c: char): (d: bv16)
    requires IsDigit(c)
    ensures d < 10
  {
    if c == '0' then 0 else if c == '1' then 1 else if c == '2' then 2 else if c == '3' then 3 else if c == '4' then 4
    else if c == '5' then 5 else if c == '6' then 6 else if c == '7' then 7 else if c == '8' then 8 else 9
  }

  lemma DigitCharacters()
    ensures Digit(0) == '0' && Digit(1) == '1' && Digit(2) == '2' && Digit(3) == '3' && Digit(4) == '4'
    ensures Digit(5) == '5' && Digit(6) == '6' && Digit(7) == '7' && Digit(8) == '8' && Digit(9) == '9'
  {
  }

  lemma DigitRoundTrip(d: bv16)
    requires d < 10
    ensures IsDigit(Digit(d)) && DigitValue(Digit(d)) == d
  {
  }

  /** A number of at most three digits, without leading zeros. */
  function Decimal(n: bv16): string
    requires n < 1000
  {
    if n < 10 then [Digit(n)]
    else if n < 100 then [Digit(n / 10), Digit(n % 10)]
    else [Digit(n / 100), Digit(n / 10 % 10), Digit(n % 10)]
  }

  /** Ten times what was read so far, plus the next digit. */
  function AddDigit(acc: bv16, d: bv16): bv16 {
    acc * 10 + d
  }

  /** Reads at most k digits. */
  function ReadDigits(t: string, k: nat, acc: bv16): (bv16, string) {
    if k == 0 || t == "" || !IsDigit(t[0]) then (acc, t)
    else ReadDigits(t[1..], k - 1, AddDigit(acc, DigitValue(t[0])))
  }

  function ReadNumber(t: string): Option<(bv16, string)> {
    if t == "" || !IsDigit(t[0]) then None else Some(ReadDigits(t, 3, 0))
  }

  lemma DecimalDigits(n: bv16)
    requires n < 1000
    ensures n / 100 < 10 && n / 10 % 10 < 10 && n % 10 < 10
    ensures n < 10 ==> AddDigit(0, n) == n
    ensures n < 100 ==> n / 10 < 10 && AddDigit(AddDigit(0, n / 10), n % 10) == n
    ensures AddDigit(AddDigit(AddDigit(0, n / 100), n / 10 % 10), n % 10) == n
  {
  }

  lemma ReadStep(d: bv16, t: string, k: nat, acc: bv16)
    requires d < 10 && k > 0
    ensures ReadDigits([Digit(d)] + t, k, acc) == ReadDigits(t, k - 1, AddDigit(acc, d))
  {
    DigitRoundTrip(d);
    assert ([Digit(d)] + t)[1..] == t;
  }

  lemma StopsAt(rest: string, k: nat, n: bv16)
    requires rest != "" ==> !IsDigit(rest[0])
    ensures ReadDigits(rest, k, n) == (n, rest)
  {
  }

  /** Reading a digit in front of what is read as its continuation. */
  lemma ReadFirst(d: bv16, t: string)
    requires d < 10
    ensures ReadNumber([Digit(d)] + t) == Some(ReadDigits(t, 2, AddDigit(0, d)))
  {
    DigitRoundTrip(d);
    ReadStep(d, t, 3, 0);
    hide Digit, AddDigit, ReadDigits;
  }

  lemma OneDigit(c: bv16, rest: string)
    requires c < 10
    requires rest != "" ==> !IsDigit(rest[0])
    ensures ReadNumber([Digit(c)] + rest) == Some((AddDigit(0, c), rest))
  {
    hide Digit, AddDigit, ReadDigits, ReadNumber;
    ReadFirst(c, rest);
    StopsAt(rest, 2, AddDigit(0, c));
  }

  lemma TwoDigits(b: bv16, c: bv16, rest: string)
    requires b < 10 && c < 10
    requires rest != "" ==> !IsDigit(rest[0])
    ensures ReadNumber([Digit(b), Digit(c)] + rest) == Some((AddDigit(AddDigit(0, b), c), rest))
  {
    hide Digit, AddDigit, ReadDigits, ReadNumber;
    var t1 := [Digit(c)] + rest;
    assert [Digit(b), Digit(c)] + rest == [Digit(b)] + t1;
    ReadFirst(b, t1);
    ReadStep(c, rest, 2, AddDigit(0, b));
    StopsAt(rest, 1, AddDigit(AddDigit(0, b), c));
  }

  lemma ThreeDigits(a: bv16, b: bv16, c: bv16, rest: string)
    requires a < 10 && b < 10 && c < 10
    requires rest != "" ==> !IsDigit(rest[0])
    ensures ReadNumber([Digit(a), Digit(b), Digit(c)] + rest) == Some((AddDigit(AddDigit(AddDigit(0, a), b), c), rest))
  {
    hide Digit, AddDigit, ReadDigits, ReadNumber;
    var t1 := [Digit(c)] + rest;
    var t2 := [Digit(b)] + t1;
    assert [Digit(a), Digit(b), Digit(c)] + rest == [Digit(a)] + t2;
    ReadFirst(a, t2);
    ReadStep(b, t1, 2, AddDigit(0, a));
    ReadStep(c, rest, 1, AddDigit(AddDigit(0, a), b));
    StopsAt(rest, 0, AddDigit(AddDigit(AddDigit(0, a), b), c));
  }

  lemma DecimalRoundTrip(n: bv16, rest: string)
    requires n < 1000
    requires rest != "" ==> !IsDigit(rest[0])
    ensures ReadNumber(Decimal(n) + rest) == Some((n, rest))
  {
    DecimalDigits(n);
    hide Digit, AddDigit, ReadNumber;
    if n < 10 {
      OneDigit(n, rest);
    } else if n < 100 {
      TwoDigits(n / 10, n % 10, rest);
    } else {
      ThreeDigits(n / 100, n / 10 % 10, n % 10, rest);
    }
  }

  // ----- dotted quads -----

  function Octet(ip: Ip, shift: bv32): (o: bv16)
    requires shift <= 24
    ensures o < 256
  {
    ((ip >> shift) & 0xff) as bv16
  }

  function Dotted(ip: Ip): string {
    Decimal(Octet(ip, 24)) + ("." +
    (Decimal(Octet(ip, 16)) + ("." +
    (Decimal(Octet(ip, 8)) + ("." + Decimal(Octet(ip, 0)))))))
  }

  /** Four numbers joined as the script's address conversion does, each cut to a byte. */
  function Join(a: bv16, b: bv16, c: bv16, d: bv16): Ip {
    (((a & 0xff) as bv32) << 24) | (((b & 0xff) as bv32) << 16) | (((c & 0xff) as bv32) << 8) | ((d & 0xff) as bv32)
  }

  function ReadDot(t: string): Option<string> {
    if t != "" && t[0] == '.' then Some(t[1..]) else None
  }

  /** Four numbers of one to three digits separated by dots, and what follows them. */
  function ReadQuad(t: string): Option<(Ip, string)> {
    var (a, ta) :- ReadNumber(t);
    var sa :- ReadDot(ta);
    var (b, tb) :- ReadNumber(sa);
    var sb :- ReadDot(tb);
    var (c, tc) :- ReadNumber(sb);
    var sc :- ReadDot(tc);
    var (d, rest) :- ReadNumber(sc);
    Some((Join(a, b, c, d), rest))
  }

  lemma JoinOctets(ip: Ip)
    ensures Join(Octet(ip, 24), Octet(ip, 16), Octet(ip, 8), Octet(ip, 0)) == ip
  {
  }

  lemma DotThen(n: bv16, rest: string)
    requires n < 256
    ensures ReadNumber(Decimal(n) + ("." + rest)) == Some((n, "." + rest)) && ReadDot("." + rest) == Some(rest)
  {
    DecimalRoundTrip(n, "." + rest);
  }

  lemma DottedRoundTrip(ip: Ip, rest: string)
    requires rest != "" ==> !IsDigit(rest[0])
    ensures ReadQuad(Dotted(ip) + rest) == Some((ip, rest))
  {
    hide Decimal, ReadNumber, Octet, Join;
    var a, b, c, d := Octet(ip, 24), Octet(ip, 16), Octet(ip, 8), Octet(ip, 0);
    var t3 := Decimal(d) + rest;
    var t2 := Decimal(c) + ("." + t3);
    var t1 := Decimal(b) + ("." + t2);
    assert Dotted(ip) + rest == Decimal(a) + ("." + t1);
    DotThen(a, t1);
    DotThen(b, t2);
    DotThen(c, t3);
    DecimalRoundTrip(d, rest);
    JoinOctets(ip);
  }

  // ----- prefixes -----

  /** v4Mask's number: the top `bits` bits set. */
  function Mask(bits: Bits): Ip
  {
    if bits == 0 then 0 else 0xffff_ffff << (32 - bits)
  }

  function TopBits(ip: Ip, bits: Bits): bv32
  {
    ip >> (32 - bits)
  }

  /** ip lies in addr/bits. */
  predicate InPrefix(ip: Ip, addr: Ip, bits: Bits)
  {
    TopBits(ip, bits) == TopBits(addr, bits)
  }

  /** The address with its host bits cleared. */
  function Masked(ip: Ip, bits: Bits): Ip
  {
    ip & Mask(bits)
  }

  function ShiftUp(top: bv32, bits: Bits): Ip
  {
    top << (32 - bits)
  }

  lemma MaskedIsShift(ip: Ip, bits: Bits)
    ensures Masked(ip, bits) == ShiftUp(TopBits(ip, bits), bits)
  {
  }

  lemma MaskedTopBits(ip: Ip, bits: Bits)
    ensures TopBits(Masked(ip, bits), bits) == TopBits(ip, bits)
  {
  }

  /** Masking compares exactly the top bits, for every prefix length from 0 to 32. */
  lemma MaskComparesTopBits(ip: Ip, addr: Ip, bits: Bits)
    ensures Masked(ip, bits) == Masked(addr, bits) <==> InPrefix(ip, addr, bits)
  {
    hide Masked, TopBits, ShiftUp;
    MaskedIsShift(ip, bits);
    MaskedIsShift(addr, bits);
    MaskedTopBits(ip, bits);
    MaskedTopBits(addr, bits);
  }

  /** Clearing the host bits keeps what the prefix covers, and doing it twice changes nothing. */
  lemma MaskedCoversSame(ip: Ip, addr: Ip, bits: Bits)
    ensures InPrefix(ip, Masked(addr, bits), bits) <==> InPrefix(ip, addr, bits)
    ensures Masked(Masked(addr, bits), bits) == Masked(addr, bits)
  {
    hide Masked, TopBits, ShiftUp;
    MaskedIsShift(addr, bits);
    MaskedTopBits(addr, bits);
    MaskedIsShift(Masked(addr, bits), bits);
  }

  // ----- prefixes as text -----

  function PrefixText(addr: Ip, bits: Bits): string {
    Dotted(addr) + ("/" + Decimal(bits as bv16))
  }

  /** netip.ParsePrefix on IPv4 text. It refuses leading zeros and numbers out of range, which is to
      accept only what printing the result gives back. */
  function ParsePrefix(t: string): (p: Option<(Ip, Bits)>)
    ensures p.Some? ==> PrefixText(p.value.0, p.value.1) == t
  {
    var (addr, rest) :- ReadQuad(t);
    if rest == "" || rest[0] != '/' then None else
    var (bits, end) :- ReadNumber(rest[1..]);
    if end == "" && bits <= 32 && PrefixText(addr, bits as bv32) == t then Some((addr, bits as bv32)) else None
  }

  lemma PrefixRoundTrip(addr: Ip, bits: Bits)
    ensures ParsePrefix(PrefixText(addr, bits)) == Some((addr, bits))
  {
    hide Dotted, Decimal, ReadNumber, ReadQuad;
    var n := bits as bv16;
    var tail := "/" + Decimal(n);
    assert n <= 32 && n as bv32 == bits;
    DottedRoundTrip(addr, tail);
    DecimalRoundTrip(n, "");
    assert tail[1..] == Decimal(n) == Decimal(n) + "";
  }

  // ----- what dotted text looks like -----

  predicate IsNumeric(t: string) {
    forall i :: 0 <= i < |t| ==> IsDigit(t[i]) || t[i] == '.'
  }

  lemma DecimalIsDigits(n: bv16)
    requires n < 1000
    ensures Decimal(n) != "" && forall i :: 0 <= i < |Decimal(n)| ==> IsDigit(Decimal(n)[i])
  {
    DecimalDigits(n);
    if n < 10 {
      DigitRoundTrip(n);
    } else if n < 100 {
      DigitRoundTrip(n / 10);
      DigitRoundTrip(n % 10);
    } else {
      DigitRoundTrip(n / 100);
      DigitRoundTrip(n / 10 % 10);
      DigitRoundTrip(n % 10);
    }
  }

  lemma DottedShape(ip: Ip)
    ensures IsNumeric(Dotted(ip)) && '.' in Dotted(ip)
    ensures Dotted(ip) != "" && IsDigit(Dotted(ip)[0]) && IsDigit(Dotted(ip)[|Dotted(ip)| - 1])
  {
    hide Decimal, Octet;
    var a, b, c, d := Octet(ip, 24), Octet(ip, 16), Octet(ip, 8), Octet(ip, 0);
    DecimalIsDigits(a);
    DecimalIsDigits(b);
    DecimalIsDigits(c);
    DecimalIsDigits(d);
    var t2 := Decimal(c) + ("." + Decimal(d));
    var t1 := Decimal(b) + ("." + t2);
    assert IsNumeric(t2) && t2[|t2| - 1] == Decimal(d)[|Decimal(d)| - 1];
    assert IsNumeric(t1) && t1[|t1| - 1] == t2[|t2| - 1];
    assert Dotted(ip) == Decimal(a) + ("." + t1);
    assert Dotted(ip)[|Decimal(a)|] == '.';
    assert Dotted(ip)[0] == Decimal(a)[0];
    assert Dotted(ip)[|Dotted(ip)| - 1] == t1[|t1| - 1];
  }

  const LOOPBACK: Ip := 0x7f00_0000

  lemma LoopbackOctet(ip: Ip)
    ensures InPrefix(ip, LOOPBACK, 8) <==> Octet(ip, 24) == 127
  {
  }

  lemma Decimal127()
    ensures Decimal(127) == "127"
  {
    assert Decimal(127) == [Digit(1), Digit(2), Digit(7)];
  }

  /** Text that starts with 127 and a dot is exactly the text of the loopback range. */
  lemma LoopbackText(ip: Ip)
    ensures "127." <= Dotted(ip) <==> InPrefix(ip, LOOPBACK, 8)
  {
    LoopbackOctet(ip);
    Decimal127();
    hide Decimal, ReadNumber, Octet, InPrefix, ReadDot;
    var a := Octet(ip, 24);
    var t1 := Decimal(Octet(ip, 16)) + ("." + (Decimal(Octet(ip, 8)) + ("." + Decimal(Octet(ip, 0)))));
    var text := Dotted(ip);
    assert text == Decimal(a) + ("." + t1);
    hide Dotted;
    DotThen(a, t1);
    if "127." <= text {
      var r := text[4..];
      assert text == "127" + ("." + r);
      DotThen(127, r);
    }
    assert a == 127 ==> "127." <= text by {
      assert "127" + ("." + t1) == "127." + t1;
    }
  }
}
