/** How the restore .reg file looks, character by character: reading back what was printed would not
    tell if printer and reader shared a mistake. */
module RegText {
  import opened Wrappers
  import opened RegFile
  import opened ProxySettings

  /** How lines look in the file: strings, deletions, the enable bit. */
  lemma PrintedLines(name: string, val: string)
    ensures LineText(Line(name, StringValue(""))) == "\"" + name + "\"=-\r\n"
    ensures val != "" ==> LineText(Line(name, StringValue(val))) == "\"" + name + "\"=\"" + EscapeChars(val) + "\"\r\n"
  {
    RegEscapeIsPerCharacter(val);
    assert "\"=" + ("-" + CRLF) == "\"=-\r\n";
    hide RegEscape, EscapeChars;
  }

  lemma PrintedEscapes()
    ensures EscapeChars("\\") == "\\\\" && EscapeChars("\"") == "\\\"" && EscapeChars("a") == "a"
  {
    assert "a"[1..] == "" && "\\"[1..] == "" && "\""[1..] == "";
  }

  lemma PrintedBits()
    ensures ValueText(Dword(0)) == "dword:00000000" && ValueText(Dword(1)) == "dword:00000001"
  {
    DwordFits(0);
    DwordFits(1);
    Zeros();
    assert HexPad(1, 8) == HexPad(0, 7) + "1";
    assert HexPad(0, 8) == HexPad(0, 7) + "0";
  }

  lemma Zeros()
    ensures Fits(0, 7) && HexPad(0, 7) == "0000000"
  {
    assert HexPad(0, 3) == "000";
    assert HexPad(0, 5) == "00000";
  }

  /** The line goes on after every 24 bytes. */
  lemma PrintedContinuation(i: nat)
    requires i > 0
    ensures Separator(i) == if i % 24 == 0 then ",\\\r\n  " else ","
  {
  }

  /** The blob of the repository's own test. */
  lemma PrintedBlob()
    ensures BytesFrom([0x46, 0, 0, 0, 9], 0) == "46,00,00,00,09"
  {
    var blob: seq<byte> := [0x46, 0, 0, 0, 9];
    assert HexByte(0x46) == "46" && HexByte(0) == "00" && HexByte(9) == "09";
    hide HexByte;
    assert BytesFrom(blob, 5) == "";
    assert BytesFrom(blob, 4) == ",09";
    assert BytesFrom(blob, 3) == ",00,09";
    assert BytesFrom(blob, 2) == ",00,00,09";
    assert BytesFrom(blob, 1) == ",00,00,00,09";
  }

  lemma PrintedBlobLine(bytes: seq<byte>)
    ensures LineText(Line(CONNECTION_BLOB, Binary(bytes)))
         == "\"DefaultConnectionSettings\"=hex:" + BytesFrom(bytes, 0) + "\r\n"
  {
    var name := "\"" + CONNECTION_BLOB + "\"=";
    assert "\"DefaultConnectionSettings\"=hex:" == name + "hex:";
    Reassociate(name, "hex:", BytesFrom(bytes, 0));
  }

  lemma PrintedHeader(s: Saved, connBlob: Option<seq<byte>>)
    ensures "Windows Registry Editor Version 5.00\r\n\r\n" <= RestoreText(s, connBlob)
  {
    hide SectionsText, RestoreSections;
  }
}
