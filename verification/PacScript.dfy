/** The proxy auto-config script of pac.go: what is generated, and what a browser decides with it. */
module PacScript {
  import opened Wrappers
  import opened Ipv4

  /** What the script depends on. */
  datatype PacInputs = PacInputs(proxyAddr: string, allTraffic: bool, dnsSuffix: string, routes: seq<string>)

  datatype Verdict = Proxy | Direct

  /** One test of the lower-cased host. */
  datatype Test =
    | HostIs(name: string)
    | StartsWith(prefix: string)
    | ShExpMatch(pattern: string)
    | DnsDomainIs(domain: string)
    | PlainHostName
    | TailscaleV6
    | InNet(base: string, mask: string)

  /** `if (t0 || t1 || ...) return verdict;`, or a plain return. */
  datatype Statement = ReturnIf(tests: seq<Test>, verdict: Verdict) | Return(verdict: Verdict)

  // ----- the browser -----

  /** The helpers a browser offers to the script. */
  datatype Browser = Browser(
    toLowerCase: string -> string,
    isInNet: (string, string, string) -> bool,
    dnsDomainIs: (string, string) -> bool,
    shExpMatch: (string, string) -> bool,
    isPlainHostName: string -> bool)

  predicate EndsWith(t: string, suffix: string) {
    |suffix| <= |t| && t[|t| - |suffix|..] == suffix
  }

  lemma DifferentEnds(t: string, s: string)
    requires t != "" && s != "" && t[|t| - 1] != s[|s| - 1]
    ensures !EndsWith(t, s)
  {
    if EndsWith(t, s) {
      assert false;
    }
  }

  /** Text without characters that are special in a shell pattern. */
  predicate NoWildcards(t: string) {
    forall i :: 0 <= i < |t| ==> t[i] != '*' && t[i] != '?' && t[i] != '[' && t[i] != ']' && t[i] != '\\'
  }

  /** Two addresses agree where the mask has ones. */
  predicate SameUnder(mask: Ip, ip: Ip, base: Ip) {
    ip & mask == base & mask
  }

  ghost predicate InNetLaw(b: Browser) {
    forall ip: Ip, base: Ip, mask: Ip ::
      b.isInNet(Dotted(ip), Dotted(base), Dotted(mask)) <==> SameUnder(mask, ip, base)
  }

  /** The laws the script relies on. One browser was seen to ignore dnsDomainIs, so a match is
      never promised. */
  ghost predicate Lawful(b: Browser) {
    && InNetLaw(b)
    && (forall h :: IsNumeric(h) ==> b.toLowerCase(h) == h)
    && (forall h, d :: b.dnsDomainIs(h, d) ==> EndsWith(h, d))
    && (forall h, s :: NoWildcards(s) ==> (b.shExpMatch(h, "*" + s) <==> EndsWith(h, s)))
    && (forall h :: b.isPlainHostName(h) <==> '.' !in h)
  }

  predicate PlainIsInNet(host: string, base: string, mask: string) {
    var x, y, z := ReadQuad(host), ReadQuad(base), ReadQuad(mask);
    x.Some? && y.Some? && z.Some? && SameUnder(z.value.0, x.value.0, y.value.0)
  }

  predicate PlainShExpMatch(host: string, pattern: string) {
    pattern != "" && EndsWith(host, pattern[1..])
  }

  /** A plain reading of the helpers: the laws can be met. */
  function PlainBrowser(): Browser {
    Browser(h => h, PlainIsInNet, EndsWith, PlainShExpMatch, h => '.' !in h)
  }

  lemma PlainNetLaw(ip: Ip, base: Ip, mask: Ip)
    ensures PlainIsInNet(Dotted(ip), Dotted(base), Dotted(mask)) <==> SameUnder(mask, ip, base)
  {
    hide Dotted, ReadQuad, SameUnder;
    QuadOfDotted(ip);
    QuadOfDotted(base);
    QuadOfDotted(mask);
  }

  lemma PlainBrowserIsLawful()
    ensures Lawful(PlainBrowser())
  {
    hide Dotted, PlainIsInNet, SameUnder, EndsWith;
    forall ip: Ip, base: Ip, mask: Ip
      ensures PlainIsInNet(Dotted(ip), Dotted(base), Dotted(mask)) <==> SameUnder(mask, ip, base)
    {
      PlainNetLaw(ip, base, mask);
    }
    forall h: string, s: string ensures PlainShExpMatch(h, "*" + s) <==> EndsWith(h, s) {
      assert ("*" + s)[1..] == s;
    }
  }

  lemma QuadOfDotted(ip: Ip)
    ensures ReadQuad(Dotted(ip)) == Some((ip, ""))
  {
    DottedRoundTrip(ip, "");
    assert Dotted(ip) + "" == Dotted(ip);
  }

  /** The script's own test for an address literal: four groups of one to three digits. */
  predicate IsV4(host: string) {
    ReadQuad(host).Some? && ReadQuad(host).value.1 == ""
  }

  const ULA := "fd7a:115c:a1e0:"

  predicate Holds(b: Browser, test: Test, host: string) {
    match test
    case HostIs(name) => host == name
    case StartsWith(prefix) => prefix <= host
    case ShExpMatch(pattern) => b.shExpMatch(host, pattern)
    case DnsDomainIs(domain) => b.dnsDomainIs(host, domain)
    case PlainHostName => b.isPlainHostName(host)
    case TailscaleV6 => ULA <= host || "[" + ULA <= host
    case InNet(base, mask) => IsV4(host) && b.isInNet(host, base, mask)
  }

  predicate AnyHolds(b: Browser, tests: seq<Test>, host: string) {
    exists i :: 0 <= i < |tests| && Holds(b, tests[i], host)
  }

  /** The first statement that returns decides; None is a script that runs off its end. */
  function Run(b: Browser, script: seq<Statement>, host: string): Option<Verdict> {
    if script == [] then None
    else if script[0].Return? || AnyHolds(b, script[0].tests, host) then Some(script[0].verdict)
    else Run(b, script[1..], host)
  }

  function FindProxyForURL(b: Browser, script: seq<Statement>, host: string): Option<Verdict> {
    Run(b, script, b.toLowerCase(host))
  }

  lemma {:induction false} RunAppend(b: Browser, s: seq<Statement>, t: seq<Statement>, host: string)
    ensures Run(b, s + t, host) == if Run(b, s, host).Some? then Run(b, s, host) else Run(b, t, host)
  {
    if s == [] {
      assert s + t == t;
    } else {
      assert (s + t)[1..] == s[1..] + t;
      RunAppend(b, s[1..], t, host);
    }
  }

  // ----- the generated script -----

  const LOOPBACK_TESTS := [
    HostIs("localhost"), HostIs("localhost.localdomain"), HostIs("127.0.0.1"), HostIs("::1"), HostIs("[::1]"),
    StartsWith("127."), ShExpMatch("*.localhost")]

  const CGNAT_TEST := InNet("100.64.0.0", "255.192.0.0")

  function SuffixTests(suffix: string): seq<Test> {
    [DnsDomainIs("." + suffix), ShExpMatch("*." + suffix), HostIs(suffix)]
  }

  function SuffixRule(suffix: string): seq<Statement> {
    if suffix == "" then [] else [ReturnIf(SuffixTests(suffix), Proxy)]
  }

  /** v4Mask: the dotted netmask of a prefix length. */
  function V4Mask(bits: Bits): string {
    Dotted(Mask(bits))
  }

  function RouteTest(addr: Ip, bits: Bits): Test {
    InNet(Dotted(Masked(addr, bits)), V4Mask(bits))
  }

  /** A route that does not parse is skipped. */
  function RouteRule(route: string): seq<Statement> {
    match ParsePrefix(route)
    case None => []
    case Some(p) => [ReturnIf([RouteTest(p.0, p.1)], Proxy)]
  }

  function RouteRules(routes: seq<string>): seq<Statement> {
    if routes == [] then [] else RouteRules(routes[..|routes| - 1]) + RouteRule(routes[|routes| - 1])
  }

  const TAILNET_RULES :=
    [ReturnIf([CGNAT_TEST], Proxy), ReturnIf([TailscaleV6], Proxy), ReturnIf([PlainHostName], Proxy)]

  function ScriptOf(inputs: PacInputs): seq<Statement> {
    [ReturnIf(LOOPBACK_TESTS, Direct)] +
    if inputs.allTraffic then [Return(Proxy)]
    else TAILNET_RULES + SuffixRule(inputs.dnsSuffix) + RouteRules(inputs.routes) + [Return(Direct)]
  }

  /** pacScript, appending statement after statement. */
  method WriteScript(inputs: PacInputs) returns (script: seq<Statement>)
    ensures script == ScriptOf(inputs)
  {
    hide SuffixTests, ParsePrefix, RouteRules;
    script := [ReturnIf(LOOPBACK_TESTS, Direct)];
    if inputs.allTraffic {
      return script + [Return(Proxy)];
    }
    script := script + TAILNET_RULES;
    if inputs.dnsSuffix != "" {
      script := script + [ReturnIf(SuffixTests(inputs.dnsSuffix), Proxy)];
    }
    ghost var head := script;
    assert head == [ReturnIf(LOOPBACK_TESTS, Direct)] + (TAILNET_RULES + SuffixRule(inputs.dnsSuffix));
    script := WriteRoutes(script, inputs.routes);
    script := script + [Return(Direct)];
    Assembled(inputs, head);
  }

  /** The route loop of pacScript. */
  method WriteRoutes(head: seq<Statement>, routes: seq<string>) returns (script: seq<Statement>)
    ensures script == head + RouteRules(routes)
  {
    hide RouteTest, ParsePrefix;
    script := head;
    for i := 0 to |routes|
      invariant script == head + RouteRules(routes[..i])
    {
      ghost var before := RouteRules(routes[..i]);
      assert routes[..i + 1][..i] == routes[..i];
      assert RouteRules(routes[..i + 1]) == before + RouteRule(routes[i]);
      var p := ParsePrefix(routes[i]);
      if p.Some? {
        script := script + [ReturnIf([RouteTest(p.value.0, p.value.1)], Proxy)];
      }
      assert script == head + (before + RouteRule(routes[i]));
    }
    assert routes[..|routes|] == routes;
  }

  lemma Assembled(inputs: PacInputs, head: seq<Statement>)
    requires !inputs.allTraffic
    requires head == [ReturnIf(LOOPBACK_TESTS, Direct)] + (TAILNET_RULES + SuffixRule(inputs.dnsSuffix))
    ensures head + RouteRules(inputs.routes) + [Return(Direct)] == ScriptOf(inputs)
  {
    hide RouteRules, SuffixRule;
  }

  // ----- what the rules decide -----

  predicate RouteHolds(b: Browser, route: string, host: string) {
    match ParsePrefix(route)
    case None => false
    case Some(p) => Holds(b, RouteTest(p.0, p.1), host)
  }

  predicate IsLoopback(b: Browser, host: string) {
    AnyHolds(b, LOOPBACK_TESTS, host)
  }

  predicate SuffixHolds(b: Browser, suffix: string, host: string) {
    suffix != "" && AnyHolds(b, SuffixTests(suffix), host)
  }

  lemma {:induction false} RouteRulesDecide(b: Browser, routes: seq<string>, host: string)
    ensures Run(b, RouteRules(routes), host) ==
            if exists i :: 0 <= i < |routes| && RouteHolds(b, routes[i], host) then Some(Proxy) else None
  {
    hide RouteHolds, RouteRule;
    if routes != [] {
      var n := |routes| - 1;
      var front := routes[..n];
      RouteRulesDecide(b, front, host);
      RouteRuleDecides(b, routes[n], host);
      hide Run;
      RunAppend(b, RouteRules(front), RouteRule(routes[n]), host);
      assert forall i :: 0 <= i < n ==> front[i] == routes[i];
    }
  }

  lemma RouteRuleDecides(b: Browser, route: string, host: string)
    ensures Run(b, RouteRule(route), host) == if RouteHolds(b, route, host) then Some(Proxy) else None
  {
    hide Holds, RouteTest;
    if ParsePrefix(route).Some? {
      var p := ParsePrefix(route).value;
      One(b, ReturnIf([RouteTest(p.0, p.1)], Proxy), host);
      Single(b, RouteTest(p.0, p.1), host);
    }
  }

  predicate TailnetHolds(b: Browser, host: string) {
    Holds(b, CGNAT_TEST, host) || Holds(b, TailscaleV6, host) || Holds(b, PlainHostName, host)
  }

  lemma TailnetRulesDecide(b: Browser, host: string)
    ensures Run(b, TAILNET_RULES, host) == if TailnetHolds(b, host) then Some(Proxy) else None
  {
    hide Holds;
    var c, v, n := ReturnIf([CGNAT_TEST], Proxy), ReturnIf([TailscaleV6], Proxy), ReturnIf([PlainHostName], Proxy);
    One(b, c, host);
    One(b, v, host);
    One(b, n, host);
    Single(b, CGNAT_TEST, host);
    Single(b, TailscaleV6, host);
    Single(b, PlainHostName, host);
    hide Run;
    assert TAILNET_RULES == [c] + ([v] + [n]);
    RunAppend(b, [c], [v] + [n], host);
    RunAppend(b, [v], [n], host);
  }

  lemma SuffixRuleDecides(b: Browser, suffix: string, host: string)
    ensures Run(b, SuffixRule(suffix), host) == if SuffixHolds(b, suffix, host) then Some(Proxy) else None
  {
    hide SuffixTests, AnyHolds;
    if suffix != "" {
      One(b, ReturnIf(SuffixTests(suffix), Proxy), host);
    }
  }

  /** The decision for every host, rule by rule but without their order: loopback first, and then
      any rule is enough. */
  lemma Decision(b: Browser, inputs: PacInputs, host: string)
    ensures Run(b, ScriptOf(inputs), host) == Some(
      if IsLoopback(b, host) then Direct
      else if || inputs.allTraffic || TailnetHolds(b, host) || SuffixHolds(b, inputs.dnsSuffix, host)
              || exists i :: 0 <= i < |inputs.routes| && RouteHolds(b, inputs.routes[i], host)
      then Proxy else Direct)
  {
    hide RouteHolds, RouteRules, SuffixRule, SuffixHolds, AnyHolds, TailnetHolds, TAILNET_RULES;
    var loop := ReturnIf(LOOPBACK_TESTS, Direct);
    One(b, loop, host);
    if inputs.allTraffic {
      RunAppend(b, [loop], [Return(Proxy)], host);
    } else {
      var suffix, routes := SuffixRule(inputs.dnsSuffix), RouteRules(inputs.routes);
      TailnetRulesDecide(b, host);
      SuffixRuleDecides(b, inputs.dnsSuffix, host);
      RouteRulesDecide(b, inputs.routes, host);
      One(b, Return(Direct), host);
      hide Run;
      var r2 := routes + [Return(Direct)];
      var r1 := suffix + r2;
      assert ScriptOf(inputs) == [loop] + (TAILNET_RULES + r1);
      RunAppend(b, [loop], TAILNET_RULES + r1, host);
      RunAppend(b, TAILNET_RULES, r1, host);
      RunAppend(b, suffix, r2, host);
      RunAppend(b, routes, [Return(Direct)], host);
    }
  }

  lemma One(b: Browser, s: Statement, host: string)
    ensures Run(b, [s], host) == if s.Return? || AnyHolds(b, s.tests, host) then Some(s.verdict) else None
  {
    assert Run(b, [s][1..], host) == None;
  }

  lemma Single(b: Browser, t: Test, host: string)
    ensures AnyHolds(b, [t], host) <==> Holds(b, t, host)
  {
    if Holds(b, t, host) {
      assert Holds(b, [t][0], host);
    }
  }

  // ----- address literals -----

  const CGNAT: Ip := 0x6440_0000

  /** A route, as text, that covers an address. */
  predicate Covers(route: string, ip: Ip) {
    match ParsePrefix(route)
    case None => false
    case Some(p) => InPrefix(ip, p.0, p.1)
  }

  lemma NetLawMasked(b: Browser, ip: Ip, base: Ip, bits: Bits)
    requires Lawful(b)
    ensures b.isInNet(Dotted(ip), Dotted(base), Dotted(Mask(bits))) <==> Masked(ip, bits) == Masked(base, bits)
  {
    hide Dotted, Mask;
  }

  lemma NetTest(b: Browser, ip: Ip, addr: Ip, bits: Bits)
    requires Lawful(b)
    ensures Holds(b, RouteTest(addr, bits), Dotted(ip)) <==> InPrefix(ip, addr, bits)
  {
    hide Dotted, ReadQuad, Mask, Masked, InPrefix, Lawful;
    QuadOfDotted(ip);
    NetLawMasked(b, ip, Masked(addr, bits), bits);
    MaskComparesTopBits(ip, Masked(addr, bits), bits);
    MaskedCoversSame(ip, addr, bits);
  }

  /** The script's literal test of the tailnet range is the one for 100.64.0.0/10. */
  lemma CgnatText()
    ensures CGNAT_TEST == RouteTest(CGNAT, 10)
  {
    assert Masked(CGNAT, 10) == CGNAT && Mask(10) == 0xffc0_0000;
    assert Octet(CGNAT, 24) == 100 && Octet(CGNAT, 16) == 64 && Octet(CGNAT, 8) == 0 && Octet(CGNAT, 0) == 0;
    var mask: Ip := 0xffc0_0000;
    assert Octet(mask, 24) == 255 && Octet(mask, 16) == 192 && Octet(mask, 8) == 0 && Octet(mask, 0) == 0;
    KnownDecimals();
    hide Decimal, Octet, Masked, Mask;
  }

  lemma KnownDecimals()
    ensures Decimal(100) == "100" && Decimal(64) == "64" && Decimal(0) == "0"
    ensures Decimal(255) == "255" && Decimal(192) == "192"
  {
  }

  /** Which address literals count as loopback. */
  lemma LoopbackLiteral(b: Browser, ip: Ip)
    requires Lawful(b)
    ensures IsLoopback(b, Dotted(ip)) <==> InPrefix(ip, LOOPBACK, 8)
  {
    hide Dotted, InPrefix;
    var h := Dotted(ip);
    DottedShape(ip);
    LoopbackText(ip);
    assert !Holds(b, LOOPBACK_TESTS[6], h) by {
      assert "*.localhost" == "*" + ".localhost";
      assert NoWildcards(".localhost");
      DifferentEnds(h, ".localhost");
    }
    if "127." <= h {
      assert Holds(b, LOOPBACK_TESTS[5], h);
    } else {
      assert !("127." <= "127.0.0.1") ==> false;
      assert forall i :: 0 <= i < 7 ==> !Holds(b, LOOPBACK_TESTS[i], h);
    }
  }

  /** The decision on an IPv4 literal: everything in 127/8 goes direct whatever the inputs; outside
      it the proxy is used exactly for the tailnet range, the listed routes, and a MagicDNS suffix
      that itself reads like the end of an address. */
  lemma LiteralDecision(b: Browser, inputs: PacInputs, ip: Ip)
    requires Lawful(b)
    ensures FindProxyForURL(b, ScriptOf(inputs), Dotted(ip)) == Some(
      if InPrefix(ip, LOOPBACK, 8) then Direct
      else if || inputs.allTraffic || InPrefix(ip, CGNAT, 10) || SuffixHolds(b, inputs.dnsSuffix, Dotted(ip))
              || exists i :: 0 <= i < |inputs.routes| && Covers(inputs.routes[i], ip)
      then Proxy else Direct)
  {
    var h := Dotted(ip);
    DottedShape(ip);
    assert !Holds(b, TailscaleV6, h);
    assert !Holds(b, PlainHostName, h);
    CgnatText();
    NetTest(b, ip, CGNAT, 10);
    LoopbackLiteral(b, ip);
    Decision(b, inputs, h);
    forall i | 0 <= i < |inputs.routes| ensures RouteHolds(b, inputs.routes[i], h) <==> Covers(inputs.routes[i], ip) {
      RouteCovers(b, inputs.routes[i], ip);
    }
    hide Dotted, Holds, InPrefix, ScriptOf, Run, RouteHolds, Covers, SuffixHolds, IsLoopback;
  }

  lemma RouteCovers(b: Browser, route: string, ip: Ip)
    requires Lawful(b)
    ensures RouteHolds(b, route, Dotted(ip)) <==> Covers(route, ip)
  {
    hide Holds, InPrefix, Dotted;
    if ParsePrefix(route).Some? {
      var p := ParsePrefix(route).value;
      NetTest(b, ip, p.0, p.1);
    }
  }

  /** A suffix that does not end in a digit never matches an address literal. */
  lemma SuffixNeverNumeric(b: Browser, suffix: string, ip: Ip)
    requires Lawful(b) && NoWildcards(suffix)
    requires suffix != "" ==> !IsDigit(suffix[|suffix| - 1])
    ensures !SuffixHolds(b, suffix, Dotted(ip))
  {
    hide Dotted;
    DottedShape(ip);
    var h := Dotted(ip);
    if suffix != "" {
      var s := "." + suffix;
      assert s[|s| - 1] == suffix[|suffix| - 1];
      assert "*." + suffix == "*" + s;
      assert !EndsWith(h, s) by {
        DifferentEnds(h, s);
      }
      var tests := SuffixTests(suffix);
      assert !Holds(b, tests[0], h);
      assert !Holds(b, tests[1], h);
      assert !Holds(b, tests[2], h);
    }
  }

  // ----- names -----

  /** A name in the tailnet's MagicDNS domain goes through the proxy, even in a browser that ignores
      dnsDomainIs. */
  lemma MagicDnsNames(b: Browser, inputs: PacInputs, host: string)
    requires Lawful(b) && inputs.dnsSuffix != "" && NoWildcards(inputs.dnsSuffix)
    requires !IsLoopback(b, b.toLowerCase(host))
    requires b.toLowerCase(host) == inputs.dnsSuffix || EndsWith(b.toLowerCase(host), "." + inputs.dnsSuffix)
    ensures FindProxyForURL(b, ScriptOf(inputs), host) == Some(Proxy)
  {
    var h := b.toLowerCase(host);
    var tests := SuffixTests(inputs.dnsSuffix);
    assert "*." + inputs.dnsSuffix == "*" + ("." + inputs.dnsSuffix);
    assert Holds(b, tests[1], h) || Holds(b, tests[2], h);
    Decision(b, inputs, h);
    hide Holds, IsLoopback, ScriptOf, Run, RouteHolds;
  }

  /** Any other name goes direct: outside the suffix, with a dot, and no address. */
  lemma OtherNames(b: Browser, inputs: PacInputs, host: string)
    requires Lawful(b) && !inputs.allTraffic && NoWildcards(inputs.dnsSuffix)
    requires var h := b.toLowerCase(host); '.' in h && !IsV4(h) && !(ULA <= h) && !("[" + ULA <= h)
    requires var h := b.toLowerCase(host); h != inputs.dnsSuffix && !EndsWith(h, "." + inputs.dnsSuffix)
    ensures FindProxyForURL(b, ScriptOf(inputs), host) == Some(Direct)
  {
    var h := b.toLowerCase(host);
    var tests := SuffixTests(inputs.dnsSuffix);
    var s := "." + inputs.dnsSuffix;
    assert "*." + inputs.dnsSuffix == "*" + s;
    assert NoWildcards(s);
    assert !Holds(b, tests[0], h) && !Holds(b, tests[1], h) && !Holds(b, tests[2], h);
    forall i | 0 <= i < |inputs.routes| ensures !RouteHolds(b, inputs.routes[i], h) {
    }
    Decision(b, inputs, h);
    hide IsLoopback, ScriptOf, Run, RouteHolds;
  }

  // ----- every name -----

  /** The hosts that never leave this machine. */
  predicate IsLoopbackName(host: string) {
    || host == "localhost" || host == "localhost.localdomain" || host == "127.0.0.1" || host == "::1" || host == "[::1]"
    || "127." <= host || EndsWith(host, ".localhost")
  }

  lemma LoopbackNames(b: Browser, host: string)
    requires Lawful(b)
    ensures IsLoopback(b, host) <==> IsLoopbackName(host)
  {
    hide InNetLaw, EndsWith;
    assert "*.localhost" == "*" + ".localhost" && NoWildcards(".localhost");
    assert Holds(b, LOOPBACK_TESTS[6], host) <==> EndsWith(host, ".localhost");
    var tests := LOOPBACK_TESTS;
    assert host == "localhost" <==> Holds(b, tests[0], host);
    assert host == "localhost.localdomain" <==> Holds(b, tests[1], host);
    assert host == "127.0.0.1" <==> Holds(b, tests[2], host);
    assert host == "::1" <==> Holds(b, tests[3], host);
    assert host == "[::1]" <==> Holds(b, tests[4], host);
    assert "127." <= host <==> Holds(b, tests[5], host);
    assert |tests| == 7;
    hide Holds;
  }

  /** In the MagicDNS domain. */
  predicate InDomain(suffix: string, host: string) {
    suffix != "" && (host == suffix || EndsWith(host, "." + suffix))
  }

  lemma SuffixNames(b: Browser, suffix: string, host: string)
    requires Lawful(b) && NoWildcards(suffix)
    ensures SuffixHolds(b, suffix, host) <==> InDomain(suffix, host)
  {
    hide InNetLaw, EndsWith;
    if suffix != "" {
      var tests := SuffixTests(suffix);
      var s := "." + suffix;
      assert "*." + suffix == "*" + s && NoWildcards(s);
      assert Holds(b, tests[0], host) ==> EndsWith(host, s);
      assert Holds(b, tests[1], host) <==> EndsWith(host, s);
      assert Holds(b, tests[2], host) <==> host == suffix;
      assert |tests| == 3;
      hide Holds;
    }
  }

  /** The decision for every host that is not an address literal, in any lawful browser: direct for
      loopback; otherwise the proxy exactly for all traffic, a Tailscale IPv6 literal, a name without
      dots, or one in the MagicDNS domain. */
  lemma NameDecision(b: Browser, inputs: PacInputs, host: string)
    requires Lawful(b) && NoWildcards(inputs.dnsSuffix) && !IsV4(b.toLowerCase(host))
    ensures var h := b.toLowerCase(host);
      FindProxyForURL(b, ScriptOf(inputs), host) == Some(
        if IsLoopbackName(h) then Direct
        else if || inputs.allTraffic || "fd7a:115c:a1e0:" <= h || "[fd7a:115c:a1e0:" <= h || '.' !in h
                || InDomain(inputs.dnsSuffix, h)
        then Proxy else Direct)
  {
    var h := b.toLowerCase(host);
    LoopbackNames(b, h);
    SuffixNames(b, inputs.dnsSuffix, h);
    Decision(b, inputs, h);
    TailnetNames(b, h);
    forall i | 0 <= i < |inputs.routes| ensures !RouteHolds(b, inputs.routes[i], h) {
      NoRouteForNames(b, inputs.routes[i], h);
    }
    hide TailnetHolds, IsLoopback, IsLoopbackName, SuffixHolds, InDomain, ScriptOf, Run, RouteHolds, Lawful, IsV4;
  }

  lemma TailnetNames(b: Browser, host: string)
    requires Lawful(b) && !IsV4(host)
    ensures TailnetHolds(b, host) <==> "fd7a:115c:a1e0:" <= host || "[fd7a:115c:a1e0:" <= host || '.' !in host
  {
    hide InNetLaw, IsV4;
    assert "[" + ULA == "[fd7a:115c:a1e0:";
  }

  lemma NoRouteForNames(b: Browser, route: string, host: string)
    requires !IsV4(host)
    ensures !RouteHolds(b, route, host)
  {
    hide ParsePrefix, IsV4;
  }

  /** Both forms of the suffix test are tried: either helper's word is enough, lawful or not. */
  lemma EitherSuffixTest(b: Browser, inputs: PacInputs, host: string)
    requires inputs.dnsSuffix != "" && !IsLoopback(b, b.toLowerCase(host))
    requires b.dnsDomainIs(b.toLowerCase(host), "." + inputs.dnsSuffix) ||
             b.shExpMatch(b.toLowerCase(host), "*." + inputs.dnsSuffix)
    ensures FindProxyForURL(b, ScriptOf(inputs), host) == Some(Proxy)
  {
    var h := b.toLowerCase(host);
    var tests := SuffixTests(inputs.dnsSuffix);
    assert Holds(b, tests[0], h) || Holds(b, tests[1], h);
    Decision(b, inputs, h);
    hide Holds, IsLoopback, ScriptOf, Run, RouteHolds;
  }

  // ----- the test for address literals -----

  /** One to three digits. */
  predicate IsGroup(t: string) {
    1 <= |t| <= 3 && forall i :: 0 <= i < |t| ==> '0' <= t[i] <= '9'
  }

  ghost predicate FourGroups(host: string) {
    exists a, b, c, d :: IsFourGroups(host, a, b, c, d)
  }

  ghost predicate IsFourGroups(host: string, a: string, b: string, c: string, d: string) {
    IsGroup(a) && IsGroup(b) && IsGroup(c) && IsGroup(d) && host == a + ("." + (b + ("." + (c + ("." + d)))))
  }

  lemma {:induction false} ReadDigitsTakes(t: string, k: nat, acc: bv16)
    ensures var rest := ReadDigits(t, k, acc).1;
      && |rest| <= |t| && rest == t[|t| - |rest|..] && |t| - |rest| <= k
      && (forall i :: 0 <= i < |t| - |rest| ==> IsDigit(t[i]))
      && (rest != "" && |t| - |rest| < k ==> !IsDigit(rest[0]))
      && (k > 0 && t != "" && IsDigit(t[0]) ==> |rest| < |t|)
    decreases k
  {
    if k > 0 && t != "" && IsDigit(t[0]) {
      ReadDigitsTakes(t[1..], k - 1, AddDigit(acc, DigitValue(t[0])));
    }
  }

  /** A number reads as one group, and one group before a dot or the end reads as a number. */
  lemma NumberIsGroup(t: string)
    ensures var n := ReadNumber(t);
      n.Some? ==> |n.value.1| < |t| && n.value.1 == t[|t| - |n.value.1|..] && IsGroup(t[..|t| - |n.value.1|])
  {
    ReadDigitsTakes(t, 3, 0);
    hide ReadDigits;
  }

  lemma GroupReads(a: string, rest: string)
    requires IsGroup(a) && (rest == "" || rest[0] == '.')
    ensures ReadNumber(a + rest).Some? && ReadNumber(a + rest).value.1 == rest
  {
    var t := a + rest;
    ReadDigitsTakes(t, 3, 0);
    hide ReadDigits;
    assert forall i :: 0 <= i < |a| ==> t[i] == a[i];
    assert rest != "" ==> t[|a|] == '.';
    var left := ReadNumber(t).value.1;
    assert |left| >= |rest| by {
      assert rest != "" ==> !IsDigit(t[|a|]);
    }
    assert forall i :: 0 <= i < |a| ==> IsDigit(t[i]);
    assert |left| <= |rest| by {
      assert left == t[|t| - |left|..];
    }
    assert t[|t| - |rest|..] == rest;
  }

  lemma GroupThenDot(t: string)
    requires ReadNumber(t).Some? && ReadDot(ReadNumber(t).value.1).Some?
    ensures var rest := ReadDot(ReadNumber(t).value.1).value;
      exists a :: IsGroup(a) && t == a + ("." + rest)
  {
    NumberIsGroup(t);
    var after := ReadNumber(t).value.1;
    var a := t[..|t| - |after|];
    hide ReadNumber;
    assert after == "." + after[1..];
    assert t == a + ("." + after[1..]);
  }

  /** isV4 holds exactly for four groups of one to three digits with dots between them. */
  lemma IsV4Means(host: string)
    ensures IsV4(host) <==> FourGroups(host)
  {
    if FourGroups(host) {
      var a, b, c, d :| IsFourGroups(host, a, b, c, d);
      GroupsAreV4(host, a, b, c, d);
    }
    if IsV4(host) {
      V4IsGroups(host);
    }
  }

  lemma GroupsAreV4(host: string, a: string, b: string, c: string, d: string)
    requires IsFourGroups(host, a, b, c, d)
    ensures IsV4(host)
  {
    hide ReadNumber, Join, IsGroup;
    var t3 := "." + d;
    var t2 := "." + (c + t3);
    var t1 := "." + (b + t2);
    GroupReads(a, t1);
    GroupReads(b, t2);
    GroupReads(c, t3);
    GroupReads(d, "");
    assert d + "" == d;
    assert t1[1..] == b + t2 && t2[1..] == c + t3 && t3[1..] == d;
  }

  lemma V4IsGroups(host: string)
    requires IsV4(host)
    ensures FourGroups(host)
  {
    hide ReadNumber, Join, IsGroup;
    GroupThenDot(host);
    var s1 := ReadDot(ReadNumber(host).value.1).value;
    var a :| IsGroup(a) && host == a + ("." + s1);
    GroupThenDot(s1);
    var s2 := ReadDot(ReadNumber(s1).value.1).value;
    var b :| IsGroup(b) && s1 == b + ("." + s2);
    GroupThenDot(s2);
    var s3 := ReadDot(ReadNumber(s2).value.1).value;
    var c :| IsGroup(c) && s2 == c + ("." + s3);
    NumberIsGroup(s3);
    assert ReadNumber(s3).value.1 == "";
    assert s3[..|s3|] == s3;
    assert IsFourGroups(host, a, b, c, s3);
  }
}
