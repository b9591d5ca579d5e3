/** Where WinINet sends a request, by its connection options and by the older registry values. */
module Routing {
  import opened Wrappers
  import opened ProxySettings
  import opened RegFile
  import opened ProxySystem

  // ----- by the connection options -----

  datatype Route = ByScript(url: string) | ByServer(addr: string) | Straight

  function Cut(t: string, sep: char): (r: (string, string))
    ensures |r.1| <= |t| && (t != "" ==> |r.1| < |t|)
  {
    if t == "" then ("", "")
    else if t[0] == sep then ("", t[1..])
    else var (item, rest) := Cut(t[1..], sep); ([t[0]] + item, rest)
  }

  /** The address for a scheme in a list such as `http=a;https=b`. */
  function ServerFor(servers: string, scheme: string): Option<string>
    decreases |servers|
  {
    if servers == "" then None else
    var (item, rest) := Cut(servers, ';');
    if scheme + "=" <= item then Some(item[|scheme| + 1..]) else ServerFor(rest, scheme)
  }

  /** An item of a bypass list: a host, or a beginning of hosts and an asterisk. */
  predicate Matches(item: string, host: string) {
    if item != "" && item[|item| - 1] == '*' then item[..|item| - 1] <= host else item == host
  }

  predicate Bypassed(list: string, host: string)
    decreases |list|
  {
    list != "" &&
    var (item, rest) := Cut(list, ';');
    Matches(item, host) || Bypassed(rest, host)
  }

  /** A fixed server, for hosts that do not bypass it. */
  function FixedRoute(servers: string, bypass: string, scheme: string, host: string): Route {
    match ServerFor(servers, scheme)
    case Some(addr) => if Bypassed(bypass, host) then Straight else ByServer(addr)
    case None => Straight
  }

  function RouteOf(c: Conn, scheme: string, host: string): Route {
    if c.flags & TYPE_AUTO_PROXY_URL != 0 then ByScript(c.pac)
    else if c.flags & TYPE_PROXY != 0 then FixedRoute(c.server, c.bypass, scheme, host)
    else Straight
  }

  /** What a request does when the script cannot be fetched, or a server not reached. */
  predicate FallsBackToDirect(c: Conn) {
    c.flags & 0x1 != 0
  }

  lemma {:induction false} CutAt(item: string, sep: char, rest: string)
    requires sep !in item
    ensures Cut(item + [sep] + rest, sep) == (item, rest)
  {
    var t := item + [sep] + rest;
    if item == "" {
      assert t == [sep] + rest;
    } else {
      assert t[1..] == item[1..] + [sep] + rest;
      CutAt(item[1..], sep, rest);
      assert [item[0]] + item[1..] == item;
    }
  }

  lemma {:induction false} CutNowhere(item: string, sep: char)
    requires sep !in item
    ensures Cut(item, sep) == (item, "")
  {
    if item != "" {
      CutNowhere(item[1..], sep);
      assert [item[0]] + item[1..] == item;
    }
  }

  /** An item belongs to one scheme only. */
  lemma ItemScheme(name: string, scheme: string, addr: string)
    requires '=' !in name && '=' !in scheme
    ensures scheme + "=" <= name + "=" + addr <==> scheme == name
    ensures (name + "=" + addr)[|name| + 1..] == addr
  {
    var t := name + "=" + addr;
    assert t[..|name|] == name && t[|name|] == '=';
    if scheme + "=" <= t {
      assert t[..|scheme|] == scheme && t[|scheme|] == '=';
      assert |scheme| >= |name| by {
        assert forall i :: 0 <= i < |name| ==> t[..|name|][i] == t[i];
      }
      assert |name| >= |scheme| by {
        assert forall i :: 0 <= i < |scheme| ==> t[..|scheme|][i] == t[i];
      }
    }
  }

  lemma ServerInItem(name: string, addr: string, servers: string, rest: string, scheme: string)
    requires '=' !in name && '=' !in scheme
    requires servers != "" && Cut(servers, ';') == (name + "=" + addr, rest)
    ensures ServerFor(servers, scheme) == if scheme == name then Some(addr) else ServerFor(rest, scheme)
  {
    ItemScheme(name, scheme, addr);
  }

  lemma StaticServer(addr: string, scheme: string)
    requires ';' !in addr && '=' !in scheme
    ensures ServerFor("http=" + addr + ";https=" + addr, scheme)
         == if scheme == "http" || scheme == "https" then Some(addr) else None
  {
    var first, second := "http" + "=" + addr, "https" + "=" + addr;
    var servers := "http=" + addr + ";https=" + addr;
    assert servers == first + [';'] + second;
    CutAt(first, ';', second);
    CutNowhere(second, ';');
    hide Cut;
    ServerInItem("http", addr, servers, second, scheme);
    ServerInItem("https", addr, second, "", scheme);
    assert ServerFor("", scheme) == None;
  }

  /** The hosts of this machine itself. */
  predicate IsLoopbackHost(host: string) {
    host == "localhost" || "127." <= host || host == "[::1]"
  }

  lemma BypassedByItem(item: string, rest: string, host: string)
    requires ';' !in item
    ensures Bypassed(item + [';'] + rest, host) <==> Matches(item, host) || Bypassed(rest, host)
  {
    CutAt(item, ';', rest);
    hide Cut, Matches;
  }

  lemma BypassedByLast(item: string, host: string)
    requires ';' !in item && item != ""
    ensures Bypassed(item, host) <==> Matches(item, host)
  {
    CutNowhere(item, ';');
    assert !Bypassed("", host);
    hide Cut, Matches;
  }

  /** The list used while registered names exactly these. */
  lemma BypassesLoopback(host: string)
    ensures Bypassed("localhost;127.*;[::1]", host) <==> IsLoopbackHost(host)
  {
    hide Bypassed;
    var rest := "127.*;[::1]";
    assert "localhost;127.*;[::1]" == "localhost" + [';'] + rest;
    BypassedByItem("localhost", rest, host);
    assert rest == "127.*" + [';'] + "[::1]";
    BypassedByItem("127.*", "[::1]", host);
    BypassedByLast("[::1]", host);
    assert "127.*"[..4] == "127.";
  }

  /** Restoring flags 0 as a direct connection changes no request's way, and nothing but the flags. */
  lemma NormConnRoutesAlike(c: Conn, scheme: string, host: string)
    ensures RouteOf(NormConn(c), scheme, host) == RouteOf(c, scheme, host)
    ensures NormConn(c).server == c.server && NormConn(c).bypass == c.bypass && NormConn(c).pac == c.pac
    ensures NormConn(c).flags != 0 && (c.flags != 0 ==> NormConn(c) == c)
    ensures c.flags == 0 ==> FallsBackToDirect(NormConn(c))
  {
  }

  // ----- by the older registry values -----

  const INTERNET_SETTINGS :=
    "HKEY_CURRENT_USER\\" + "Software\\Microsoft\\" + "Windows\\CurrentVersion\\" + "Internet Settings"

  /** The last value assigned to a name of the Internet Settings key. */
  function Setting(entries: seq<Entry>, name: string): RegValue {
    if entries == [] then Delete else
    var last := entries[|entries| - 1];
    if last.key == INTERNET_SETTINGS && last.name == name then last.value
    else Setting(entries[..|entries| - 1], name)
  }

  function TextOf(v: RegValue): string {
    if v.Sz? then v.s else ""
  }

  /** How a program decides that reads only ProxyEnable, ProxyServer, ProxyOverride and AutoConfigURL. */
  function OlderRoute(entries: seq<Entry>, scheme: string, host: string): Route {
    if Setting(entries, "AutoConfigURL").Sz? then ByScript(TextOf(Setting(entries, "AutoConfigURL")))
    else if Setting(entries, "ProxyEnable") == Dword(1) then
      FixedRoute(TextOf(Setting(entries, "ProxyServer")), TextOf(Setting(entries, "ProxyOverride")), scheme, host)
    else Straight
  }

  lemma SettingSkips(entries: seq<Entry>, en: Entry, name: string)
    ensures Setting(entries + [en], name)
         == if en.key == INTERNET_SETTINGS && en.name == name then en.value else Setting(entries, name)
  {
    hide INTERNET_SETTINGS;
    assert (entries + [en])[..|entries|] == entries;
  }

  lemma {:induction false} SettingInFront(entries: seq<Entry>, more: seq<Entry>, name: string)
    requires forall i :: 0 <= i < |more| ==> more[i].key != INTERNET_SETTINGS
    ensures Setting(entries + more, name) == Setting(entries, name)
  {
    hide Setting, INTERNET_SETTINGS;
    if more == [] {
      assert entries + more == entries;
    } else {
      var n := |more| - 1;
      assert entries + more == (entries + more[..n]) + [more[n]];
      SettingSkips(entries + more[..n], more[n], name);
      SettingInFront(entries, more[..n], name);
    }
  }

  /** The keys of the restore file, by their full names. */
  lemma InternetKey()
    ensures KEY_INTERNET == INTERNET_SETTINGS && KEY_CONNECTIONS == INTERNET_SETTINGS + "\\Connections"
    ensures KEY_ENVIRONMENT == "HKEY_CURRENT_USER\\" + "Environment"
    ensures KEY_ENVIRONMENT != INTERNET_SETTINGS && KEY_CONNECTIONS != INTERNET_SETTINGS
  {
    assert |KEY_ENVIRONMENT| < |KEY_INTERNET| < |KEY_CONNECTIONS|;
  }

  lemma FourSettings(a: RegValue, b: RegValue, c: RegValue, d: RegValue, name: string)
    ensures Setting([
        Entry(INTERNET_SETTINGS, "ProxyEnable", a), Entry(INTERNET_SETTINGS, "ProxyServer", b),
        Entry(INTERNET_SETTINGS, "ProxyOverride", c), Entry(INTERNET_SETTINGS, "AutoConfigURL", d)], name)
      == if name == "AutoConfigURL" then d else if name == "ProxyOverride" then c
         else if name == "ProxyServer" then b else if name == "ProxyEnable" then a else Delete
  {
    var w, x := Entry(INTERNET_SETTINGS, "ProxyEnable", a), Entry(INTERNET_SETTINGS, "ProxyServer", b);
    var y, z := Entry(INTERNET_SETTINGS, "ProxyOverride", c), Entry(INTERNET_SETTINGS, "AutoConfigURL", d);
    assert Setting([], name) == Delete;
    hide Setting, INTERNET_SETTINGS;
    SettingSkips([], w, name);
    SettingSkips([w], x, name);
    SettingSkips([w, x], y, name);
    SettingSkips([w, x, y], z, name);
    assert [] + [w] == [w] && [w] + [x] == [w, x] && [w, x] + [y] == [w, x, y] && [w, x, y] + [z] == [w, x, y, z];
  }

  lemma RestoredSettings(s: Saved, connBlob: Option<seq<byte>>)
    ensures var entries := RestoreEntries(s, connBlob);
      && Setting(entries, "AutoConfigURL") == StringValue(s.conn.pac)
      && Setting(entries, "ProxyOverride") == StringValue(s.conn.bypass)
      && Setting(entries, "ProxyServer") == StringValue(s.conn.server)
      && Setting(entries, "ProxyEnable") == Dword(EnableBit(s))
  {
    hide StringValue, EnableBit, Lookup, Setting, INTERNET_SETTINGS, KEY_INTERNET, KEY_ENVIRONMENT, KEY_CONNECTIONS;
    InternetKey();
    var all := RestoreEntries(s, connBlob);
    var front, more := all[..4], all[4..];
    assert all == front + more;
    SettingInFront(front, more, "AutoConfigURL");
    SettingInFront(front, more, "ProxyOverride");
    SettingInFront(front, more, "ProxyServer");
    SettingInFront(front, more, "ProxyEnable");
    FourRestored(s, "AutoConfigURL", front);
    FourRestored(s, "ProxyOverride", front);
    FourRestored(s, "ProxyServer", front);
    FourRestored(s, "ProxyEnable", front);
  }

  lemma FourRestored(s: Saved, name: string, front: seq<Entry>)
    requires front == RestoreEntries(s, None)[..4]
    ensures Setting(front, name) ==
      if name == "AutoConfigURL" then StringValue(s.conn.pac)
      else if name == "ProxyOverride" then StringValue(s.conn.bypass)
      else if name == "ProxyServer" then StringValue(s.conn.server)
      else if name == "ProxyEnable" then Dword(EnableBit(s)) else Delete
  {
    hide StringValue, EnableBit, Lookup, Setting, INTERNET_SETTINGS, KEY_INTERNET, KEY_ENVIRONMENT, KEY_CONNECTIONS;
    InternetKey();
    var a, b := Dword(EnableBit(s)), StringValue(s.conn.server);
    var c, d := StringValue(s.conn.bypass), StringValue(s.conn.pac);
    FourSettings(a, b, c, d, name);
    assert front == [
      Entry(INTERNET_SETTINGS, "ProxyEnable", a), Entry(INTERNET_SETTINGS, "ProxyServer", b),
      Entry(INTERNET_SETTINGS, "ProxyOverride", c), Entry(INTERNET_SETTINGS, "AutoConfigURL", d)];
  }

  /** The restore file says ProxyEnable 1 exactly for a saved fixed proxy. */
  lemma EnableBitMeansProxy(s: Saved, connBlob: Option<seq<byte>>)
    ensures ParseReg(RestoreText(s, connBlob)).Some?
    ensures Setting(ParseReg(RestoreText(s, connBlob)).value, "ProxyEnable")
         == Dword(if s.conn.flags & 0x2 != 0 then 1 else 0)
  {
    hide RestoreText, RestoreEntries, ParseReg, Setting;
    RestoreTextRoundTrip(s, connBlob);
    RestoredSettings(s, connBlob);
  }

  /** The older values of the restore file send every request where the saved connection options do,
      exactly if there is a script URL just where the flags ask for a script. */
  lemma OlderValuesAgreeIff(s: Saved, connBlob: Option<seq<byte>>, scheme: string, host: string)
    ensures ParseReg(RestoreText(s, connBlob)).Some?
    ensures OlderRoute(ParseReg(RestoreText(s, connBlob)).value, scheme, host) == RouteOf(s.conn, scheme, host)
        <==> (s.conn.flags & 0x4 != 0 <==> s.conn.pac != "")
  {
    hide RestoreText, RestoreEntries, ParseReg, Setting, Bypassed, ServerFor;
    RestoreTextRoundTrip(s, connBlob);
    RestoredSettings(s, connBlob);
    assert ServerFor("", scheme).None? by {
      NoServers(scheme);
    }
  }

  lemma NoServers(scheme: string)
    ensures ServerFor("", scheme) == None
  {
  }
}
