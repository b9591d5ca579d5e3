/** The restore .reg file of winproxy_restore.go: its printer, and a parser that says what
    importing the printed text means. */
module RegFile {
  import opened Wrappers
  import opened ProxySettings

  // ----- documents -----

  type dword = n: int | 0 <= n < 0x1_0000_0000

  datatype RegValue = Dword(n: dword) | Sz(s: string) | Binary(bytes: seq<byte>) | Delete

  datatype Line = Line(name: string, value: RegValue)

  datatype Section = Section(key: string, lines: seq<Line>)

  /** One assignment of a parsed file. */
  datatype Entry = Entry(key: string, name: string, value: RegValue)

  const HEADER := "Windows Registry Editor Version 5.00\r\n\r\n"
  const HKCU := "HKEY_CURRENT_USER\\"
  const KEY_INTERNET := HKCU + "Software\\Microsoft\\" + "Windows\\CurrentVersion\\" + "Internet Settings"
  const KEY_CONNECTIONS := KEY_INTERNET + "\\Connections"
  const KEY_ENVIRONMENT := HKCU + "Environment"
  const CONNECTION_BLOB := "DefaultConnectionSettings"

  // ----- escaping -----

  /** strings.ReplaceAll for a one-character pattern. */
  function ReplaceAll(s: string, old_: char, with: string): string {
    if s == "" then "" else (if s[0] == old_ then with else [s[0]]) + ReplaceAll(s[1..], old_, with)
  }

  /** The source's escape: backslashes in a first pass, quotes in a second one. */
  function RegEscape(s: string): string {
    ReplaceAll(ReplaceAll(s, '\\', "\\\\"), '"', "\\\"")
  }

  predicate Special(c: char) {
    c == '\\' || c == '"'
  }

  /** One pass, one character at a time. */
  function EscapeChars(s: string): string {
    if s == "" then "" else (if Special(s[0]) then ['\\', s[0]] else [s[0]]) + EscapeChars(s[1..])
  }

  /** Reads up to the closing quote, undoing escapes; also returns what follows the quote. */
  function ReadQuoted(t: string): (r: Option<(string, string)>)
    ensures r.Some? ==> |r.value.1| < |t|
  {
    if t == "" then None
    else if t[0] == '"' then Some(("", t[1..]))
    else if t[0] == '\\' then
      if |t| < 2 then None else
      var (s, rest) :- ReadQuoted(t[2..]);
      Some(([t[1]] + s, rest))
    else
      var (s, rest) :- ReadQuoted(t[1..]);
      Some(([t[0]] + s, rest))
  }

  lemma {:induction false} ReplaceAllConcat(a: string, b: string, c: char, w: string)
    ensures ReplaceAll(a + b, c, w) == ReplaceAll(a, c, w) + ReplaceAll(b, c, w)
  {
    if a == "" {
      assert a + b == b;
    } else {
      assert (a + b)[1..] == a[1..] + b;
      ReplaceAllConcat(a[1..], b, c, w);
    }
  }

  /** The two passes do not disturb each other: no backslash of the second is doubled. */
  lemma {:induction false} RegEscapeIsPerCharacter(s: string)
    ensures RegEscape(s) == EscapeChars(s)
  {
    if s != "" {
      RegEscapeIsPerCharacter(s[1..]);
      var first := if s[0] == '\\' then "\\\\" else [s[0]];
      ReplaceAllConcat(first, ReplaceAll(s[1..], '\\', "\\\\"), '"', "\\\"");
      assert ReplaceAll(s, '\\', "\\\\") == first + ReplaceAll(s[1..], '\\', "\\\\");
      if s[0] == '\\' {
        assert first[1..] == "\\" && first[1..][1..] == "";
        assert ReplaceAll(first, '"', "\\\"") == first;
      } else {
        assert first[1..] == "";
      }
    }
  }

  /** Unescaping inverts the source's escape, for every string and whatever follows it. */
  lemma {:induction false} EscapeRoundTrip(s: string, rest: string)
    ensures ReadQuoted(RegEscape(s) + "\"" + rest) == Some((s, rest))
    decreases |s|
  {
    RegEscapeIsPerCharacter(s);
    var t := EscapeChars(s) + "\"" + rest;
    if s == "" {
      assert t == "\"" + rest;
    } else {
      EscapeRoundTrip(s[1..], rest);
      RegEscapeIsPerCharacter(s[1..]);
      var tail := EscapeChars(s[1..]) + "\"" + rest;
      if Special(s[0]) {
        assert t == ['\\', s[0]] + tail;
        assert t[2..] == tail;
      } else {
        assert t == [s[0]] + tail;
        assert t[1..] == tail;
      }
      assert [s[0]] + s[1..] == s;
    }
  }

  /** Value names are printed without escaping; these need none. */
  ghost predicate PlainName(name: string) {
    forall i :: 0 <= i < |name| ==> !Special(name[i])
  }

  lemma {:induction false} PlainNameEscape(name: string)
    requires PlainName(name)
    ensures EscapeChars(name) == name
  {
    if name != "" {
      PlainNameEscape(name[1..]);
      assert [name[0]] + name[1..] == name;
    }
  }

  // ----- hexadecimal -----

  function HexDigit(n: nat): (c: char)
    requires n < 16
    ensures c == "0123456789abcdef"[n]
  {
    if n < 10 then '0' + n as char else 'a' + (n - 10) as char
  }

  function HexValue(c: char): Option<nat> {
    if '0' <= c <= '9' then Some((c - '0') as nat)
    else if 'a' <= c <= 'f' then Some((c - 'a') as nat + 10)
    else None
  }

  /** n has at most k hexadecimal digits. */
  predicate Fits(n: nat, k: nat) {
    if k == 0 then n == 0 else Fits(n / 16, k - 1)
  }

  /** The `%0kx` format. */
  function HexPad(n: nat, k: nat): (t: string)
    requires Fits(n, k)
    ensures |t| == k
  {
    if k == 0 then "" else HexPad(n / 16, k - 1) + [HexDigit(n % 16)]
  }

  /** Reads exactly k digits, most significant first. */
  function ReadHex(t: string, k: nat, acc: nat): (r: Option<(nat, string)>)
    ensures r.Some? ==> |r.value.1| + k == |t|
    decreases k
  {
    if k == 0 then Some((acc, t))
    else if t == "" then None
    else
      var d :- HexValue(t[0]);
      ReadHex(t[1..], k - 1, acc * 16 + d)
  }

  lemma {:induction false} ReadPaddedPrefix(n: nat, k: nat, j: nat, rest: string)
    requires Fits(n, k)
    ensures ReadHex(HexPad(n, k) + rest, k + j, 0) == ReadHex(rest, j, n)
    decreases k
  {
    if k == 0 {
      assert HexPad(n, k) + rest == rest;
    } else {
      var d := HexDigit(n % 16);
      assert HexPad(n, k) + rest == HexPad(n / 16, k - 1) + ([d] + rest);
      ReadPaddedPrefix(n / 16, k - 1, j + 1, [d] + rest);
      assert ([d] + rest)[1..] == rest;
    }
  }

  /** Reading k digits gives back the number printed with k digits. */
  lemma HexRoundTrip(n: nat, k: nat, rest: string)
    requires Fits(n, k)
    ensures ReadHex(HexPad(n, k) + rest, k, 0) == Some((n, rest))
  {
    ReadPaddedPrefix(n, k, 0, rest);
  }

  /** The `%02x` format. */
  function HexByte(b: byte): string {
    [HexDigit(b / 16), HexDigit(b % 16)]
  }

  function ReadHexByte(t: string): Option<byte> {
    if |t| < 2 then None else
    var hi :- HexValue(t[0]);
    var lo :- HexValue(t[1]);
    Some(hi * 16 + lo)
  }

  lemma HexByteRoundTrip(b: byte, rest: string)
    ensures ReadHexByte(HexByte(b) + rest) == Some(b)
    ensures (HexByte(b) + rest)[2..] == rest
  {
    assert HexValue(HexDigit(b / 16)) == Some(b / 16);
    assert HexValue(HexDigit(b % 16)) == Some(b % 16);
  }

  const CONTINUATION := ",\\\r\n  "

  /** What separates byte i from byte i - 1: a line continuation before every 24th. */
  function Separator(i: nat): string {
    if i == 0 then "" else if i % 24 == 0 then CONTINUATION else ","
  }

  /** The bytes from index i on, as the source prints them. */
  function BytesFrom(blob: seq<byte>, i: nat): string
    requires i <= |blob|
    decreases |blob| - i
  {
    if i == |blob| then "" else Separator(i) + HexByte(blob[i]) + BytesFrom(blob, i + 1)
  }

  /** How much of t separates two bytes: a comma, or a comma and a line continuation. */
  function SeparatorLength(t: string): (n: nat)
    ensures n <= |t|
  {
    if t == "" || t[0] != ',' then 0
    else if |t| < 6 || t[1] != '\\' then 1
    else if t[2] == '\r' && t[3] == '\n' && t[4] == ' ' && t[5] == ' ' then 6 else 1
  }

  function ReadBytes(t: string): (r: Option<(seq<byte>, string)>)
    ensures r.Some? ==> |r.value.1| < |t|
    decreases |t|
  {
    var b :- ReadHexByte(t);
    var r := t[2..];
    if SeparatorLength(r) == 0 then Some(([b], r))
    else
      var (bs, rest) :- ReadBytes(r[SeparatorLength(r)..]);
      Some(([b] + bs, rest))
  }

  /** The bytes from index i on without the separator in front of them. */
  function BytesText(blob: seq<byte>, i: nat): string
    requires i < |blob|
  {
    HexByte(blob[i]) + BytesFrom(blob, i + 1)
  }

  lemma BytesFromUnfold(blob: seq<byte>, i: nat)
    requires i < |blob|
    ensures BytesFrom(blob, i) == Separator(i) + BytesText(blob, i)
  {
    assert Separator(i) + HexByte(blob[i]) + BytesFrom(blob, i + 1)
        == Separator(i) + (HexByte(blob[i]) + BytesFrom(blob, i + 1));
  }

  lemma Reassociate<T>(a: seq<T>, b: seq<T>, c: seq<T>)
    ensures a + b + c == a + (b + c)
  {
  }

  /** A plain comma is never mistaken for a continuation: a digit follows it. */
  lemma SeparatorRead(i: nat, more: string)
    requires i > 0 && more != "" && more[0] != '\\'
    ensures SeparatorLength(Separator(i) + more) == |Separator(i)| > 0
    ensures (Separator(i) + more)[|Separator(i)|..] == more
  {
    if i % 24 != 0 {
      assert (Separator(i) + more)[1] == more[0];
    }
  }

  /** After a byte the reader sees the end, or one separator and then the next byte. */
  lemma TailRead(blob: seq<byte>, i: nat, rest: string)
    requires 0 < i <= |blob|
    requires rest != "" && rest[0] != ','
    ensures i == |blob| ==> BytesFrom(blob, i) + rest == rest && SeparatorLength(rest) == 0
    ensures i < |blob| ==>
      var tail := BytesFrom(blob, i) + rest;
      SeparatorLength(tail) > 0 && tail[SeparatorLength(tail)..] == BytesText(blob, i) + rest
  {
    if i == |blob| {
    } else {
      BytesFromUnfold(blob, i);
      Reassociate(Separator(i), BytesText(blob, i), rest);
      SeparatorRead(i, BytesText(blob, i) + rest);
    }
  }

  lemma ReadBytesStep(b: byte, tail: string)
    ensures SeparatorLength(tail) == 0 ==> ReadBytes(HexByte(b) + tail) == Some(([b], tail))
    ensures SeparatorLength(tail) != 0 && ReadBytes(tail[SeparatorLength(tail)..]).Some? ==>
      var (bs, rest) := ReadBytes(tail[SeparatorLength(tail)..]).value;
      ReadBytes(HexByte(b) + tail) == Some(([b] + bs, rest))
  {
    HexByteRoundTrip(b, tail);
  }

  /** Every blob is read back byte for byte, whatever its length. */
  lemma {:induction false} BytesRoundTrip(blob: seq<byte>, i: nat, rest: string)
    requires i < |blob|
    requires rest != "" && rest[0] != ','
    ensures ReadBytes(BytesText(blob, i) + rest) == Some((blob[i..], rest))
    decreases |blob| - i
  {
    var tail := BytesFrom(blob, i + 1) + rest;
    Reassociate(HexByte(blob[i]), BytesFrom(blob, i + 1), rest);
    TailRead(blob, i + 1, rest);
    if i + 1 == |blob| {
      assert blob[i..] == [blob[i]];
    } else {
      BytesRoundTrip(blob, i + 1, rest);
      assert blob[i..] == [blob[i]] + blob[i + 1..];
    }
    ReadBytesStep(blob[i], tail);
  }

  // ----- values, lines, sections -----

  const CRLF := "\r\n"

  /** The rest of t after the prefix p. */
  function Strip(t: string, p: string): Option<string> {
    if p <= t then Some(t[|p|..]) else None
  }

  lemma StripPrefix(p: string, rest: string)
    ensures Strip(p + rest, p) == Some(rest)
  {
  }

  function Pow16(k: nat): nat {
    if k == 0 then 1 else 16 * Pow16(k - 1)
  }

  lemma {:induction false} BelowPowerFits(n: nat, k: nat)
    requires n < Pow16(k)
    ensures Fits(n, k)
  {
    if k > 0 {
      BelowPowerFits(n / 16, k - 1);
    }
  }

  lemma DwordFits(n: dword)
    ensures Fits(n, 8)
  {
    assert Pow16(4) == 0x1_0000;
    assert Pow16(8) == 0x1_0000_0000;
    BelowPowerFits(n, 8);
  }

  function ValueText(v: RegValue): string
  {
    match v
    case Delete => "-"
    case Sz(s) => "\"" + (RegEscape(s) + "\"")
    case Dword(n) => DwordFits(n); "dword:" + HexPad(n, 8)
    case Binary(bytes) => "hex:" + BytesFrom(bytes, 0)
  }

  function ReadValue(t: string): (r: Option<(RegValue, string)>)
    ensures r.Some? ==> |r.value.1| < |t|
  {
    if t == "" then None
    else if t[0] == '-' then Some((Delete, t[1..]))
    else if t[0] == '"' then
      var (s, rest) :- ReadQuoted(t[1..]);
      Some((Sz(s), rest))
    else if t[0] == 'd' then
      var digits :- Strip(t, "dword:");
      var (n, rest) :- ReadHex(digits, 8, 0);
      if n >= 0x1_0000_0000 then None else Some((Dword(n), rest))
    else
      var digits :- Strip(t, "hex:");
      if digits != "" && digits[0] == '\r' then Some((Binary([]), digits)) else
      var (bytes, rest) :- ReadBytes(digits);
      Some((Binary(bytes), rest))
  }

  lemma ValueRoundTrip(v: RegValue, rest: string)
    requires rest != "" && rest[0] == '\r'
    ensures ReadValue(ValueText(v) + rest) == Some((v, rest))
  {
    match v
    case Delete =>
      assert ("-" + rest)[1..] == rest;
    case Sz(s) =>
      EscapeRoundTrip(s, rest);
      Reassociate("\"", RegEscape(s) + "\"", rest);
      assert ("\"" + (RegEscape(s) + "\"" + rest))[1..] == RegEscape(s) + "\"" + rest;
    case Dword(n) =>
      DwordRoundTrip(n, rest);
    case Binary(bytes) =>
      hide ReadBytes, BytesFrom;
      Reassociate("hex:", BytesFrom(bytes, 0), rest);
      StripPrefix("hex:", BytesFrom(bytes, 0) + rest);
      BlobRoundTrip(bytes, rest);
  }

  lemma DwordRoundTrip(n: dword, rest: string)
    ensures ReadValue(ValueText(Dword(n)) + rest) == Some((Dword(n), rest))
  {
    hide ReadHex, HexPad;
    DwordFits(n);
    HexRoundTrip(n, 8, rest);
    Reassociate("dword:", HexPad(n, 8), rest);
    StripPrefix("dword:", HexPad(n, 8) + rest);
  }

  lemma BlobRoundTrip(bytes: seq<byte>, rest: string)
    requires rest != "" && rest[0] == '\r'
    ensures bytes == [] ==> BytesFrom(bytes, 0) + rest == rest
    ensures bytes != [] ==>
      var t := BytesFrom(bytes, 0) + rest;
      t != "" && t[0] != '\r' && ReadBytes(t) == Some((bytes, rest))
  {
    if bytes != [] {
      BytesFromUnfold(bytes, 0);
      assert Separator(0) + BytesText(bytes, 0) == BytesText(bytes, 0);
      BytesRoundTrip(bytes, 0, rest);
      assert bytes[0..] == bytes;
    }
  }

  function LineText(l: Line): string
  {
    "\"" + l.name + "\"=" + ValueText(l.value) + CRLF
  }

  function ReadLine(t: string): (r: Option<(Line, string)>)
    ensures r.Some? ==> |r.value.1| < |t|
  {
    if t == "" || t[0] != '"' then None else
    var (name, afterName) :- ReadQuoted(t[1..]);
    var valueText :- Strip(afterName, "=");
    var (value, afterValue) :- ReadValue(valueText);
    var rest :- Strip(afterValue, CRLF);
    Some((Line(name, value), rest))
  }

  lemma NameRoundTrip(name: string, rest: string)
    requires PlainName(name)
    ensures ReadQuoted(name + "\"" + rest) == Some((name, rest))
  {
    PlainNameEscape(name);
    RegEscapeIsPerCharacter(name);
    EscapeRoundTrip(name, rest);
  }

  lemma LineShape(l: Line, rest: string)
    ensures LineText(l) + rest == "\"" + (l.name + "\"" + ("=" + (ValueText(l.value) + (CRLF + rest))))
  {
    assert "\"=" == "\"" + "=";
  }

  lemma LineRoundTrip(l: Line, rest: string)
    requires PlainName(l.name)
    ensures ReadLine(LineText(l) + rest) == Some((l, rest))
  {
    var afterValue := CRLF + rest;
    var afterName := "=" + (ValueText(l.value) + afterValue);
    LineShape(l, rest);
    assert (LineText(l) + rest)[1..] == l.name + "\"" + afterName;
    NameRoundTrip(l.name, afterName);
    StripPrefix("=", ValueText(l.value) + afterValue);
    ValueRoundTrip(l.value, afterValue);
    StripPrefix(CRLF, rest);
  }

  function LinesText(ls: seq<Line>): string
  {
    if ls == [] then "" else LineText(ls[0]) + LinesText(ls[1..])
  }

  /** Reads a key up to its closing bracket. */
  function ReadKey(t: string): (r: Option<(string, string)>)
    ensures r.Some? ==> |r.value.1| < |t|
  {
    if t == "" then None
    else if t[0] == ']' then Some(("", t[1..]))
    else
      var (key, rest) :- ReadKey(t[1..]);
      Some(([t[0]] + key, rest))
  }

  ghost predicate PlainKey(key: string) {
    ']' !in key
  }

  lemma {:induction false} KeyRoundTrip(key: string, rest: string)
    requires PlainKey(key)
    ensures ReadKey(key + "]" + rest) == Some((key, rest))
  {
    var t := key + "]" + rest;
    if key == "" {
      assert t == "]" + rest;
    } else {
      KeyRoundTrip(key[1..], rest);
      assert t[1..] == key[1..] + "]" + rest;
      assert [key[0]] + key[1..] == key;
    }
  }

  ghost predicate SectionOk(sec: Section) {
    PlainKey(sec.key) && forall l <- sec.lines :: PlainName(l.name)
  }

  function SectionText(sec: Section): string
  {
    "[" + sec.key + "]" + CRLF + LinesText(sec.lines) + CRLF
  }

  function SectionsText(secs: seq<Section>): string
  {
    if secs == [] then "" else SectionText(secs[0]) + SectionsText(secs[1..])
  }

  function LineEntries(key: string, ls: seq<Line>): seq<Entry> {
    if ls == [] then [] else [Entry(key, ls[0].name, ls[0].value)] + LineEntries(key, ls[1..])
  }

  function SectionEntries(secs: seq<Section>): seq<Entry> {
    if secs == [] then [] else LineEntries(secs[0].key, secs[0].lines) + SectionEntries(secs[1..])
  }

  /** Reads sections from t on; `key` is the section the next line belongs to. */
  function ParseBody(t: string, key: string): Option<seq<Entry>>
    decreases |t|
  {
    if t == "" then Some([])
    else if t[0] == '\r' then
      var rest :- Strip(t, CRLF);
      ParseBody(rest, key)
    else if t[0] == '[' then
      var (newKey, afterKey) :- ReadKey(t[1..]);
      var rest :- Strip(afterKey, CRLF);
      ParseBody(rest, newKey)
    else
      var (line, rest) :- ReadLine(t);
      var more :- ParseBody(rest, key);
      Some([Entry(key, line.name, line.value)] + more)
  }

  /** What `reg import` makes of a file: the list of its assignments, or nothing. */
  function ParseReg(text: string): Option<seq<Entry>> {
    var body :- Strip(text, HEADER);
    ParseBody(body, "")
  }

  lemma {:induction false} LinesRoundTrip(ls: seq<Line>, key: string, rest: string)
    requires forall l <- ls :: PlainName(l.name)
    requires ParseBody(rest, key).Some?
    ensures ParseBody(LinesText(ls) + rest, key) == Some(LineEntries(key, ls) + ParseBody(rest, key).value)
  {
    if ls == [] {
      assert LinesText(ls) + rest == rest;
      assert LineEntries(key, ls) + ParseBody(rest, key).value == ParseBody(rest, key).value;
    } else {
      LinesRoundTrip(ls[1..], key, rest);
      OneLine(ls[0], key, LinesText(ls[1..]) + rest);
      Reassociate([Entry(key, ls[0].name, ls[0].value)], LineEntries(key, ls[1..]), ParseBody(rest, key).value);
      Reassociate(LineText(ls[0]), LinesText(ls[1..]), rest);
    }
  }

  lemma OneLine(l: Line, key: string, rest: string)
    requires PlainName(l.name)
    requires ParseBody(rest, key).Some?
    ensures ParseBody(LineText(l) + rest, key) == Some([Entry(key, l.name, l.value)] + ParseBody(rest, key).value)
  {
    LineRoundTrip(l, rest);
    assert (LineText(l) + rest)[0] == '"';
  }

  lemma SectionRoundTrip(sec: Section, key: string, rest: string)
    requires SectionOk(sec)
    requires ParseBody(rest, sec.key).Some?
    ensures ParseBody(SectionText(sec) + rest, key)
         == Some(LineEntries(sec.key, sec.lines) + ParseBody(rest, sec.key).value)
  {
    BlankLine(rest, sec.key);
    LinesRoundTrip(sec.lines, sec.key, CRLF + rest);
    KeyLine(sec.key, key, LinesText(sec.lines) + (CRLF + rest));
    assert SectionText(sec) + rest == "[" + sec.key + "]" + CRLF + (LinesText(sec.lines) + (CRLF + rest));
  }

  lemma BlankLine(rest: string, key: string)
    ensures ParseBody(CRLF + rest, key) == ParseBody(rest, key)
  {
    StripPrefix(CRLF, rest);
  }

  lemma KeyLine(newKey: string, key: string, rest: string)
    requires PlainKey(newKey)
    ensures ParseBody("[" + newKey + "]" + CRLF + rest, key) == ParseBody(rest, newKey)
  {
    var t := "[" + newKey + "]" + CRLF + rest;
    assert t[1..] == newKey + "]" + (CRLF + rest);
    KeyRoundTrip(newKey, CRLF + rest);
    StripPrefix(CRLF, rest);
  }

  lemma {:induction false} SectionsRoundTrip(secs: seq<Section>, key: string)
    requires forall sec <- secs :: SectionOk(sec)
    ensures ParseBody(SectionsText(secs), key) == Some(SectionEntries(secs))
  {
    if secs != [] {
      SectionsRoundTrip(secs[1..], secs[0].key);
      SectionRoundTrip(secs[0], key, SectionsText(secs[1..]));
    }
  }

  // ----- the restore file -----

  /** An empty string stands for a value that was not there. */
  function StringValue(val: string): RegValue {
    if val == "" then Delete else Sz(val)
  }

  function EnableBit(s: Saved): dword {
    if s.conn.flags & TYPE_PROXY != 0 then 1 else 0
  }

  function InternetLines(s: Saved): seq<Line> {
    [ Line("ProxyEnable", Dword(EnableBit(s))),
      Line("ProxyServer", StringValue(s.conn.server)),
      Line("ProxyOverride", StringValue(s.conn.bypass)),
      Line("AutoConfigURL", StringValue(s.conn.pac)) ]
  }

  function EnvLines(s: Saved): seq<Line> {
    [ Line(HTTP_PROXY, StringValue(Lookup(s.env, HTTP_PROXY))),
      Line(HTTPS_PROXY, StringValue(Lookup(s.env, HTTPS_PROXY))),
      Line(NO_PROXY, StringValue(Lookup(s.env, NO_PROXY))) ]
  }

  function BlobSections(connBlob: Option<seq<byte>>): seq<Section> {
    match connBlob
    case None => []
    case Some(bytes) => [Section(KEY_CONNECTIONS, [Line(CONNECTION_BLOB, Binary(bytes))])]
  }

  function RestoreSections(s: Saved, connBlob: Option<seq<byte>>): seq<Section> {
    [Section(KEY_INTERNET, InternetLines(s))] + BlobSections(connBlob) + [Section(KEY_ENVIRONMENT, EnvLines(s))]
  }

  /** The text of the restore file. */
  function RestoreText(s: Saved, connBlob: Option<seq<byte>>): string {
    HEADER + SectionsText(RestoreSections(s, connBlob))
  }

  /** What the restore file must mean: the old values, a deletion for each one that was not
      set, and the connection blob unless there was none. */
  function RestoreEntries(s: Saved, connBlob: Option<seq<byte>>): seq<Entry> {
    [ Entry(KEY_INTERNET, "ProxyEnable", Dword(EnableBit(s))),
      Entry(KEY_INTERNET, "ProxyServer", StringValue(s.conn.server)),
      Entry(KEY_INTERNET, "ProxyOverride", StringValue(s.conn.bypass)),
      Entry(KEY_INTERNET, "AutoConfigURL", StringValue(s.conn.pac)) ]
    + (match connBlob
       case None => []
       case Some(bytes) => [Entry(KEY_CONNECTIONS, CONNECTION_BLOB, Binary(bytes))])
    + [ Entry(KEY_ENVIRONMENT, HTTP_PROXY, StringValue(Lookup(s.env, HTTP_PROXY))),
        Entry(KEY_ENVIRONMENT, HTTPS_PROXY, StringValue(Lookup(s.env, HTTPS_PROXY))),
        Entry(KEY_ENVIRONMENT, NO_PROXY, StringValue(Lookup(s.env, NO_PROXY))) ]
  }

  lemma KeysArePlain()
    ensures PlainKey(KEY_INTERNET) && PlainKey(KEY_CONNECTIONS) && PlainKey(KEY_ENVIRONMENT)
  {
  }

  lemma NamesArePlain()
    ensures PlainName("ProxyEnable") && PlainName("ProxyServer") && PlainName("ProxyOverride")
    ensures PlainName("AutoConfigURL") && PlainName(CONNECTION_BLOB)
    ensures PlainName(HTTP_PROXY) && PlainName(HTTPS_PROXY) && PlainName(NO_PROXY)
  {
  }

  lemma RestoreSectionsOk(s: Saved, connBlob: Option<seq<byte>>)
    ensures forall sec <- RestoreSections(s, connBlob) :: SectionOk(sec)
  {
    KeysArePlain();
    NamesArePlain();
  }

  lemma ParseRegBody(body: string)
    ensures ParseReg(HEADER + body) == ParseBody(body, "")
  {
    StripPrefix(HEADER, body);
  }

  /** The round trip: parsing the restore file gives back every saved value, for every
      string and every blob. */
  lemma RestoreTextRoundTrip(s: Saved, connBlob: Option<seq<byte>>)
    ensures ParseReg(RestoreText(s, connBlob)) == Some(RestoreEntries(s, connBlob))
  {
    RestoreSectionsOk(s, connBlob);
    SectionsRoundTrip(RestoreSections(s, connBlob), "");
    RestoreSectionEntries(s, connBlob);
    ParseRegBody(SectionsText(RestoreSections(s, connBlob)));
  }

  lemma SectionEntriesCons(sec: Section, secs: seq<Section>)
    ensures SectionEntries([sec] + secs) == LineEntries(sec.key, sec.lines) + SectionEntries(secs)
  {
    assert ([sec] + secs)[1..] == secs;
  }

  lemma OneSectionEntries(sec: Section)
    ensures SectionEntries([sec]) == LineEntries(sec.key, sec.lines)
  {
    assert [sec][1..] == [];
  }

  lemma LineEntriesAt(key: string, ls: seq<Line>)
    ensures |LineEntries(key, ls)| == |ls|
    ensures forall i :: 0 <= i < |ls| ==> LineEntries(key, ls)[i] == Entry(key, ls[i].name, ls[i].value)
  {
  }

  lemma InternetEntries(s: Saved)
    ensures LineEntries(KEY_INTERNET, InternetLines(s)) == RestoreEntries(s, None)[..4]
  {
    LineEntriesAt(KEY_INTERNET, InternetLines(s));
  }

  lemma EnvironmentEntries(s: Saved)
    ensures LineEntries(KEY_ENVIRONMENT, EnvLines(s)) == RestoreEntries(s, None)[4..]
  {
    LineEntriesAt(KEY_ENVIRONMENT, EnvLines(s));
  }

  lemma RestoreSectionEntries(s: Saved, connBlob: Option<seq<byte>>)
    ensures SectionEntries(RestoreSections(s, connBlob)) == RestoreEntries(s, connBlob)
  {
    hide InternetLines, EnvLines, LineEntries, SectionEntries, StringValue, EnableBit;
    var a, c := Section(KEY_INTERNET, InternetLines(s)), Section(KEY_ENVIRONMENT, EnvLines(s));
    var b := BlobSections(connBlob);
    InternetEntries(s);
    EnvironmentEntries(s);
    Reassociate([a], b, [c]);
    SectionEntriesCons(a, b + [c]);
    OneSectionEntries(c);
    if connBlob.Some? {
      SectionEntriesCons(b[0], [c]);
      LineEntriesAt(b[0].key, b[0].lines);
    } else {
      assert b + [c] == [c];
    }
  }

  /** writeRegString: a REG_SZ value, or a deletion for an empty string. */
  method WriteRegString(b: string, name: string, val: string) returns (text: string)
    ensures text == b + LineText(Line(name, StringValue(val)))
  {
    if val == "" {
      text := b + "\"" + name + "\"=-\r\n";
    } else {
      text := b + "\"" + name + "\"=\"" + RegEscape(val) + "\"\r\n";
    }
  }

  method WriteDword(b: string, name: string, n: dword) returns (text: string)
    ensures text == b + LineText(Line(name, Dword(n)))
  {
    DwordFits(n);
    text := b + "\"" + name + "\"=dword:" + HexPad(n, 8) + "\r\n";
    assert "\"=dword:" == "\"=" + "dword:";
  }

  /** The byte loop of restoreRegFile. */
  method WriteBlob(b: string, connBlob: seq<byte>) returns (text: string)
    ensures text == b + BytesFrom(connBlob, 0)
  {
    text := b;
    for i := 0 to |connBlob|
      invariant text + BytesFrom(connBlob, i) == b + BytesFrom(connBlob, 0)
    {
      ghost var before := text;
      BytesFromUnfold(connBlob, i);
      if i > 0 {
        text := text + ",";
        if i % 24 == 0 {
          text := text + "\\\r\n  ";
        }
      }
      text := text + HexByte(connBlob[i]);
      assert text == before + Separator(i) + HexByte(connBlob[i]);
      Reassociate(before + Separator(i), HexByte(connBlob[i]), BytesFrom(connBlob, i + 1));
      Reassociate(before, Separator(i), BytesText(connBlob, i));
    }
  }

  /** The variable loop of restoreRegFile. */
  method WriteEnv(b: string, s: Saved) returns (text: string)
    ensures text == b + LinesText(EnvLines(s))
  {
    text := b;
    ghost var ls := EnvLines(s);
    for i := 0 to |PROXY_ENV_VARS|
      invariant text + LinesText(ls[i..]) == b + LinesText(ls)
    {
      ghost var before := text;
      text := WriteRegString(text, PROXY_ENV_VARS[i], Lookup(s.env, PROXY_ENV_VARS[i]));
      assert ls[i..][1..] == ls[i + 1..];
      Reassociate(before, LineText(ls[i]), LinesText(ls[i + 1..]));
    }
  }

  lemma SectionShape(b: string, key: string, ls: seq<Line>)
    ensures b + "[" + key + "]\r\n" + LinesText(ls) + "\r\n" == b + SectionText(Section(key, ls))
  {
    var head := "[" + key + "]" + CRLF;
    assert "]\r\n" == "]" + CRLF;
    Reassociate("[" + key, "]", CRLF);
    Reassociate(b, "[", key);
    Reassociate(b, "[" + key, "]\r\n");
    Reassociate(b, head, LinesText(ls));
    Reassociate(b, head + LinesText(ls), CRLF);
  }

  lemma FourLines(b: string, ls: seq<Line>)
    requires |ls| == 4
    ensures b + LinesText(ls) == b + LineText(ls[0]) + LineText(ls[1]) + LineText(ls[2]) + LineText(ls[3])
  {
    var t3 := LinesText(ls[3..]);
    OneLineText(ls[3]);
    assert ls[3..] == [ls[3]];
    var t2 := LinesText(ls[2..]);
    assert ls[2..][1..] == ls[3..] && t2 == LineText(ls[2]) + t3;
    var t1 := LinesText(ls[1..]);
    assert ls[1..][1..] == ls[2..] && t1 == LineText(ls[1]) + t2;
    Reassociate(b, LineText(ls[0]), t1);
    Reassociate(b + LineText(ls[0]), LineText(ls[1]), t2);
    Reassociate(b + LineText(ls[0]) + LineText(ls[1]), LineText(ls[2]), t3);
  }

  /** The Internet Settings section of restoreRegFile. */
  method WriteInternet(b: string, s: Saved) returns (text: string)
    ensures text == b + SectionText(Section(KEY_INTERNET, InternetLines(s)))
  {
    text := b + "[" + KEY_INTERNET + "]\r\n";
    FourLines(text, InternetLines(s));
    SectionShape(b, KEY_INTERNET, InternetLines(s));
    var enable: dword := 0;
    if s.conn.flags & TYPE_PROXY != 0 {
      enable := 1;
    }
    text := WriteDword(text, "ProxyEnable", enable);
    text := WriteRegString(text, "ProxyServer", s.conn.server);
    text := WriteRegString(text, "ProxyOverride", s.conn.bypass);
    text := WriteRegString(text, "AutoConfigURL", s.conn.pac);
    text := text + "\r\n";
  }

  /** The Connections section of restoreRegFile; a missing blob leaves it out. */
  method WriteConnections(b: string, connBlob: Option<seq<byte>>) returns (text: string)
    ensures text == b + SectionsText(BlobSections(connBlob))
  {
    text := b;
    if connBlob.Some? {
      text := text + "[" + KEY_CONNECTIONS + "]\r\n";
      ghost var l := Line(CONNECTION_BLOB, Binary(connBlob.value));
      BlobLine(text, connBlob.value);
      text := text + "\"DefaultConnectionSettings\"=hex:";
      text := WriteBlob(text, connBlob.value);
      text := text + "\r\n\r\n";
      OneLineText(l);
      SectionShape(b, KEY_CONNECTIONS, [l]);
      OneSectionText(Section(KEY_CONNECTIONS, [l]));
    }
  }

  lemma BlobLine(b: string, bytes: seq<byte>)
    ensures b + "\"DefaultConnectionSettings\"=hex:" + BytesFrom(bytes, 0) + "\r\n\r\n"
         == b + LineText(Line(CONNECTION_BLOB, Binary(bytes))) + "\r\n"
  {
    var name := "\"" + CONNECTION_BLOB + "\"=";
    var digits := BytesFrom(bytes, 0);
    assert "\"DefaultConnectionSettings\"=hex:" == name + "hex:";
    assert "\r\n\r\n" == CRLF + "\r\n";
    Reassociate(name, "hex:", digits);
    Reassociate(b, name + "hex:", digits);
    Reassociate(b, name + ("hex:" + digits), CRLF);
    Reassociate(b + (name + ("hex:" + digits)), CRLF, "\r\n");
  }

  lemma OneLineText(l: Line)
    ensures LinesText([l]) == LineText(l)
  {
    assert [l][1..] == [];
  }

  lemma OneSectionText(sec: Section)
    ensures SectionsText([sec]) == SectionText(sec)
  {
    assert [sec][1..] == [];
    assert SectionText(sec) + "" == SectionText(sec);
  }

  /** The Environment section of restoreRegFile. */
  method WriteEnvironment(b: string, s: Saved) returns (text: string)
    ensures text == b + SectionText(Section(KEY_ENVIRONMENT, EnvLines(s)))
  {
    text := WriteEnv(b + "[" + KEY_ENVIRONMENT + "]\r\n", s);
    text := text + "\r\n";
    SectionShape(b, KEY_ENVIRONMENT, EnvLines(s));
  }

  lemma SectionsTextCons(sec: Section, secs: seq<Section>)
    ensures SectionsText([sec] + secs) == SectionText(sec) + SectionsText(secs)
  {
    assert ([sec] + secs)[1..] == secs;
  }

  /** restoreRegFile: the builder's text parses back to the values it was given. */
  method RestoreRegFile(s: Saved, connBlob: Option<seq<byte>>) returns (text: string)
    ensures text == RestoreText(s, connBlob)
    ensures ParseReg(text) == Some(RestoreEntries(s, connBlob))
  {
    text := "Windows Registry Editor Version 5.00\r\n\r\n";
    text := WriteInternet(text, s);
    text := WriteConnections(text, connBlob);
    text := WriteEnvironment(text, s);
    RestoreTextRoundTrip(s, connBlob);
    RestoreTextShape(s, connBlob);
  }

  lemma BodyText(a: Section, b: seq<Section>, c: Section)
    requires |b| <= 1
    ensures SectionsText([a] + b + [c]) == SectionText(a) + (SectionsText(b) + SectionText(c))
  {
    Reassociate([a], b, [c]);
    SectionsTextCons(a, b + [c]);
    OneSectionText(c);
    if b == [] {
      assert b + [c] == [c];
      assert "" + SectionText(c) == SectionText(c);
    } else {
      assert b == [b[0]];
      SectionsTextCons(b[0], [c]);
      OneSectionText(b[0]);
    }
  }

  lemma RestoreTextShape(s: Saved, connBlob: Option<seq<byte>>)
    ensures RestoreText(s, connBlob)
         == HEADER + SectionText(Section(KEY_INTERNET, InternetLines(s))) + SectionsText(BlobSections(connBlob))
            + SectionText(Section(KEY_ENVIRONMENT, EnvLines(s)))
  {
    var a, c := Section(KEY_INTERNET, InternetLines(s)), Section(KEY_ENVIRONMENT, EnvLines(s));
    var b := BlobSections(connBlob);
    BodyText(a, b, c);
    Reassociate(HEADER, SectionText(a), SectionsText(b) + SectionText(c));
    Reassociate(HEADER + SectionText(a), SectionsText(b), SectionText(c));
  }
}
