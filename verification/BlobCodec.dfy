/** One way to pack a connection into bytes, to show that the law ProxySystem asks of WinINet's own
    packing can be met. */
module BlobCodec {
  import opened Wrappers
  import opened ProxySettings
  import opened ProxySystem

  /** Three bytes for a character, each character announced by a 1 and the end by a 0. */
  function Pack(s: string): seq<byte> {
    if s == "" then [0] else
    var n := s[0] as int;
    [1, n / 0x1_0000, n / 0x100 % 0x100, n % 0x100] + Pack(s[1..])
  }

  /** The character with this number, where there is one. */
  function CharOf(n: nat): char {
    if n < 0xd800 || 0xe000 <= n < 0x11_0000 then n as char else ' '
  }

  function Unpack(b: seq<byte>): (r: (string, seq<byte>))
    ensures |r.1| <= |b|
  {
    if |b| == 0 then ("", [])
    else if b[0] == 0 || |b| < 4 then ("", b[1..])
    else
      var (s, rest) := Unpack(b[4..]);
      var hi: int, mid: int, lo: int := b[1], b[2], b[3];
      ([CharOf(hi * 0x1_0000 + mid * 0x100 + lo)] + s, rest)
  }

  lemma CharRoundTrip(c: char)
    ensures var n := c as int; CharOf(n / 0x1_0000 * 0x1_0000 + n / 0x100 % 0x100 * 0x100 + n % 0x100) == c
  {
  }

  lemma {:induction false} PackRoundTrip(s: string, rest: seq<byte>)
    ensures Unpack(Pack(s) + rest) == (s, rest)
  {
    var b := Pack(s) + rest;
    if s == "" {
      assert b[1..] == rest;
    } else {
      CharRoundTrip(s[0]);
      hide CharOf;
      PackRoundTrip(s[1..], rest);
      assert b[4..] == Pack(s[1..]) + rest;
      assert [s[0]] + s[1..] == s;
    }
  }

  /** The flags as that many ones and a zero. */
  function PackFlags(n: nat): seq<byte> {
    seq(n, _ => 1) + [0]
  }

  function UnpackFlags(b: seq<byte>): (nat, seq<byte>) {
    if b == [] then (0, [])
    else if b[0] == 0 then (0, b[1..])
    else var (n, rest) := UnpackFlags(b[1..]); (n + 1, rest)
  }

  lemma {:induction false} FlagsRoundTrip(n: nat, rest: seq<byte>)
    ensures UnpackFlags(PackFlags(n) + rest) == (n, rest)
  {
    var b := PackFlags(n) + rest;
    if n == 0 {
      assert b[1..] == rest;
    } else {
      FlagsRoundTrip(n - 1, rest);
      assert b[1..] == PackFlags(n - 1) + rest;
    }
  }

  lemma FlagsFit(flags: bv32)
    ensures FlagsOf(flags as nat) == flags
  {
  }

  function Encode(c: Conn): seq<byte> {
    PackFlags(c.flags as nat) + (Pack(c.server) + (Pack(c.bypass) + Pack(c.pac)))
  }

  function Decode(b: seq<byte>): Conn {
    var (flags, b1) := UnpackFlags(b);
    var (server, b2) := Unpack(b1);
    var (bypass, b3) := Unpack(b2);
    var (pac, _) := Unpack(b3);
    Conn(FlagsOf(flags), server, bypass, pac)
  }

  function FlagsOf(n: nat): bv32 {
    if n < 0x1_0000_0000 then n as bv32 else 0
  }

  lemma EncodeRoundTrip(c: Conn)
    ensures Decode(Encode(c)) == c
  {
    hide Pack, Unpack, PackFlags, UnpackFlags, FlagsOf;
    FlagsFit(c.flags);
    FlagsRoundTrip(c.flags as nat, Pack(c.server) + (Pack(c.bypass) + Pack(c.pac)));
    PackRoundTrip(c.server, Pack(c.bypass) + Pack(c.pac));
    PackRoundTrip(c.bypass, Pack(c.pac));
    PackRoundTrip(c.pac, []);
    assert Pack(c.pac) + [] == Pack(c.pac);
  }

  /** Some codec is lawful. */
  lemma LawfulCodecExists()
    ensures Lawful(Codec(Encode, Decode))
  {
    hide Encode, Decode;
    forall c: Conn ensures Decode(Encode(c)) == c {
      EncodeRoundTrip(c);
    }
  }
}
