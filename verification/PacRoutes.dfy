/** The inputs of the PAC script, as pacInputsFrom of pac.go derives them from the node's status. */
module PacRoutes {
  import opened Wrappers
  import opened Ipv4
  import opened PacScript

  /** A route a peer advertises. Nothing but the family of an IPv6 route matters here. */
  datatype Route = V4(addr: Ip, bits: Bits) | V6(text: string)

  /** The peers in the order the map happened to be walked; a peer may have no route list. */
  datatype Status = Status(exitNode: bool, magicDNSSuffix: string, peers: seq<Option<seq<Route>>>)

  /** Whether an address is one of the tailnet's own. */
  type TailscaleTest = Ip -> bool

  // ----- the order of strings -----

  predicate Leq(a: string, b: string) {
    a == "" || (b != "" && (a[0] < b[0] || (a[0] == b[0] && Leq(a[1..], b[1..]))))
  }

  lemma {:induction false} LeqTotal(a: string, b: string)
    ensures Leq(a, b) || Leq(b, a)
  {
    if a != "" && b != "" && a[0] == b[0] {
      LeqTotal(a[1..], b[1..]);
    }
  }

  lemma {:induction false} LeqAntisymmetric(a: string, b: string)
    requires Leq(a, b) && Leq(b, a)
    ensures a == b
  {
    if a != "" && b != "" {
      LeqAntisymmetric(a[1..], b[1..]);
      assert a == [a[0]] + a[1..] && b == [b[0]] + b[1..];
    }
  }

  lemma {:induction false} LeqTransitive(a: string, b: string, c: string)
    requires Leq(a, b) && Leq(b, c)
    ensures Leq(a, c)
  {
    if a != "" && a[0] == b[0] == c[0] {
      LeqTransitive(a[1..], b[1..], c[1..]);
    }
  }

  /** The order is that of a dictionary: by the first character that differs, and a beginning comes
      first. */
  lemma {:induction false} LeqIsDictionaryOrder(a: string, b: string, k: nat)
    requires k <= |a| && k <= |b| && a[..k] == b[..k]
    requires k == |a| || (k < |b| && a[k] < b[k])
    ensures Leq(a, b)
    decreases k
  {
    if k > 0 {
      assert a[..k][0] == b[..k][0];
      assert a[1..][..k - 1] == a[..k][1..] && b[1..][..k - 1] == b[..k][1..];
      LeqIsDictionaryOrder(a[1..], b[1..], k - 1);
    }
  }

  ghost predicate Sorted(s: seq<string>) {
    forall i, j :: 0 <= i < j < |s| ==> Leq(s[i], s[j])
  }

  ghost predicate NoRepeats(s: seq<string>) {
    forall i, j :: 0 <= i < j < |s| ==> s[i] != s[j]
  }

  /** A sorted list without repeats is fixed by what it contains. */
  lemma {:induction false} SortedIsUnique(s: seq<string>, t: seq<string>)
    requires Sorted(s) && NoRepeats(s) && Sorted(t) && NoRepeats(t)
    requires forall x :: x in s <==> x in t
    ensures s == t
  {
    assert t == [] || t[0] in t;
    if s != [] {
      assert s[0] in t;
      SameFirst(s, t);
      assert s == [s[0]] + s[1..] && t == [t[0]] + t[1..];
      forall x ensures x in s[1..] <==> x in t[1..] {
        RestContains(s, x);
        RestContains(t, x);
      }
      SortedIsUnique(s[1..], t[1..]);
    }
  }

  lemma SameFirst(s: seq<string>, t: seq<string>)
    requires Sorted(s) && Sorted(t) && s != [] && t != []
    requires s[0] in t && t[0] in s
    ensures s[0] == t[0]
  {
    if s[0] != t[0] {
      assert Leq(t[0], s[0]) && Leq(s[0], t[0]);
      LeqAntisymmetric(s[0], t[0]);
      assert false;
    }
  }

  lemma RestContains(s: seq<string>, x: string)
    requires s != [] && NoRepeats(s)
    ensures x in s[1..] <==> x in s && x != s[0]
  {
    assert s == [s[0]] + s[1..];
  }

  // ----- sort.Strings -----

  function Insert(x: string, s: seq<string>): (r: seq<string>)
    ensures multiset(r) == multiset(s) + multiset{x}
  {
    if s == [] then [x]
    else if Leq(x, s[0]) then [x] + s
    else
      assert s == [s[0]] + s[1..];
      [s[0]] + Insert(x, s[1..])
  }

  /** Stands for sort.Strings, which the uniqueness above leaves no choice. */
  function Sort(s: seq<string>): (r: seq<string>)
    ensures multiset(r) == multiset(s)
  {
    if s == [] then [] else
    assert s == [s[0]] + s[1..];
    Insert(s[0], Sort(s[1..]))
  }

  lemma SameMultisetSameElements(s: seq<string>, t: seq<string>)
    requires multiset(s) == multiset(t)
    ensures forall x :: x in s <==> x in t
  {
    forall x ensures x in s <==> x in t {
      assert x in s <==> x in multiset(s);
      assert x in t <==> x in multiset(t);
    }
  }

  lemma {:induction false} InsertKeepsSorted(x: string, s: seq<string>)
    requires Sorted(s)
    ensures Sorted(Insert(x, s))
  {
    if s != [] {
      if Leq(x, s[0]) {
        forall j | 0 <= j < |s| ensures Leq(x, s[j]) {
          if j > 0 {
            LeqTransitive(x, s[0], s[j]);
          }
        }
      } else {
        LeqTotal(x, s[0]);
        var rest := Insert(x, s[1..]);
        InsertKeepsSorted(x, s[1..]);
        forall j | 0 <= j < |rest| ensures Leq(s[0], rest[j]) {
          assert rest[j] in multiset(rest);
          assert rest[j] == x || rest[j] in s[1..];
        }
      }
    }
  }

  lemma {:induction false} SortSorts(s: seq<string>)
    ensures Sorted(Sort(s))
  {
    if s != [] {
      SortSorts(s[1..]);
      InsertKeepsSorted(s[0], Sort(s[1..]));
    }
  }

  lemma {:induction false} InsertKeepsNoRepeats(x: string, s: seq<string>)
    requires NoRepeats(s) && x !in s
    ensures NoRepeats(Insert(x, s))
  {
    if s != [] && !Leq(x, s[0]) {
      var rest := Insert(x, s[1..]);
      InsertKeepsNoRepeats(x, s[1..]);
      forall j | 0 <= j < |rest| ensures s[0] != rest[j] {
        assert rest[j] in multiset(rest);
        assert rest[j] == x || rest[j] in s[1..];
        RestContains(s, rest[j]);
      }
    }
  }

  lemma {:induction false} SortKeepsNoRepeats(s: seq<string>)
    requires NoRepeats(s)
    ensures NoRepeats(Sort(s))
  {
    if s != [] {
      SortKeepsNoRepeats(s[1..]);
      SameMultisetSameElements(s[1..], Sort(s[1..]));
      RestContains(s, s[0]);
      InsertKeepsNoRepeats(s[0], Sort(s[1..]));
    }
  }

  // ----- which routes are listed -----

  /** Removes the dots around the MagicDNS suffix. */
  function TrimDots(s: string): (r: string)
    ensures r != "" ==> r[0] != '.' && r[|r| - 1] != '.'
    decreases |s|
  {
    if s == "" then ""
    else if s[0] == '.' then TrimDots(s[1..])
    else if s[|s| - 1] == '.' then TrimDots(s[..|s| - 1])
    else s
  }

  /** Only dots go, and all of them at either end. */
  lemma {:induction false} TrimDotsExact(s: string) returns (lo: nat)
    ensures lo + |TrimDots(s)| <= |s| && s[lo..lo + |TrimDots(s)|] == TrimDots(s)
    ensures forall k :: (0 <= k < lo || lo + |TrimDots(s)| <= k < |s|) ==> s[k] == '.'
    decreases |s|
  {
    if s == "" {
      lo := 0;
    } else if s[0] == '.' {
      lo := TrimDotsExact(s[1..]);
      var n := |TrimDots(s[1..])|;
      assert s[1..][lo..lo + n] == s[lo + 1..lo + 1 + n];
      assert forall k :: 1 <= k < |s| ==> s[k] == s[1..][k - 1];
      lo := lo + 1;
    } else if s[|s| - 1] == '.' {
      lo := TrimDotsExact(s[..|s| - 1]);
    } else {
      lo := 0;
    }
  }

  predicate Survives(own: TailscaleTest, r: Route) {
    r.V4? && r.bits != 0 && !own(r.addr)
  }

  /** The text a surviving route is listed under. */
  function TextOf(r: Route): string
    requires r.V4?
  {
    PrefixText(Masked(r.addr, r.bits), r.bits)
  }

  ghost predicate Advertised(peers: seq<Option<seq<Route>>>, r: Route) {
    exists p :: p in peers && p.Some? && r in p.value
  }

  /** The text of a prefix that some peer advertises, other than all of IPv4 or one of the tailnet's own
      addresses, with its host bits cleared. */
  ghost predicate Listed(own: TailscaleTest, peers: seq<Option<seq<Route>>>, t: string) {
    exists a: Ip, n: Bits :: Advertised(peers, V4(a, n)) && n > 0 && !own(a) && PrefixText(Masked(a, n), n) == t
  }

  /** What pacInputsFrom promises about its result. */
  ghost predicate Derived(own: TailscaleTest, st: Option<Status>, pacAllTraffic: bool, proxyAddr: string,
                          inputs: PacInputs) {
    && inputs.proxyAddr == proxyAddr
    && inputs.allTraffic == (pacAllTraffic || (st.Some? && st.value.exitNode))
    && inputs.dnsSuffix == (if st.Some? then TrimDots(st.value.magicDNSSuffix) else "")
    && Sorted(inputs.routes) && NoRepeats(inputs.routes)
    && forall t :: t in inputs.routes <==> st.Some? && Listed(own, st.value.peers, t)
  }

  ghost predicate ListedIn(own: TailscaleTest, routes: seq<Route>, t: string) {
    exists r :: r in routes && Survives(own, r) && TextOf(r) == t
  }

  /** The inner loop of pacInputsFrom: one peer's routes. */
  method AddPeer(own: TailscaleTest, peer: seq<Route>, seen0: set<string>, routes0: seq<string>)
    returns (seen: set<string>, routes: seq<string>)
    requires NoRepeats(routes0) && forall t :: t in seen0 <==> t in routes0
    ensures NoRepeats(routes) && forall t :: t in seen <==> t in routes
    ensures forall t :: t in routes <==> t in routes0 || ListedIn(own, peer, t)
  {
    hide Survives, TextOf;
    seen, routes := seen0, routes0;
    for j := 0 to |peer|
      invariant NoRepeats(routes) && forall t :: t in seen <==> t in routes
      invariant forall t :: t in routes <==> t in routes0 || ListedIn(own, peer[..j], t)
    {
      ListedStep(own, peer[..j], peer[j]);
      assert peer[..j + 1] == peer[..j] + [peer[j]];
      if !Survives(own, peer[j]) {
        continue;
      }
      var s := TextIfV4(own, peer[j]);
      if s !in seen {
        seen := seen + {s};
        routes := routes + [s];
      }
    }
    assert peer[..|peer|] == peer;
  }

  function TextIfV4(own: TailscaleTest, r: Route): (t: string)
    requires Survives(own, r)
    ensures Survives(own, r) && r.V4? && t == TextOf(r)
  {
    TextOf(r)
  }

  lemma ListedStep(own: TailscaleTest, routes: seq<Route>, r: Route)
    ensures forall t ::
      ListedIn(own, routes + [r], t) <==> ListedIn(own, routes, t) || (Survives(own, r) && TextOf(r) == t)
  {
  }

  ghost predicate ListedFrom(own: TailscaleTest, peers: seq<Option<seq<Route>>>, t: string) {
    exists p :: p in peers && p.Some? && ListedIn(own, p.value, t)
  }

  lemma ListedByPeer(own: TailscaleTest, peers: seq<Option<seq<Route>>>, t: string)
    ensures Listed(own, peers, t) <==> ListedFrom(own, peers, t)
  {
    if Listed(own, peers, t) {
      var a: Ip, n: Bits :| Advertised(peers, V4(a, n)) && n > 0 && !own(a) && PrefixText(Masked(a, n), n) == t;
      var r := V4(a, n);
      assert Survives(own, r) && TextOf(r) == t;
      var p :| p in peers && p.Some? && r in p.value;
      assert ListedIn(own, p.value, t);
    }
    if ListedFrom(own, peers, t) {
      var p :| p in peers && p.Some? && ListedIn(own, p.value, t);
      var r :| r in p.value && Survives(own, r) && TextOf(r) == t;
      assert Advertised(peers, V4(r.addr, r.bits));
    }
  }

  lemma PeerStep(own: TailscaleTest, peers: seq<Option<seq<Route>>>, p: Option<seq<Route>>)
    ensures forall t ::
      ListedFrom(own, peers + [p], t) <==> ListedFrom(own, peers, t) || (p.Some? && ListedIn(own, p.value, t))
  {
    hide ListedIn;
  }

  /** pacInputsFrom: gather the surviving routes of every peer once, then sort them. */
  method PacInputsFrom(own: TailscaleTest, st: Option<Status>, pacAllTraffic: bool, proxyAddr: string)
    returns (inputs: PacInputs)
    ensures Derived(own, st, pacAllTraffic, proxyAddr, inputs)
  {
    hide ListedIn;
    var allTraffic := pacAllTraffic;
    if st.None? {
      return PacInputs(proxyAddr, allTraffic, "", []);
    }
    if st.value.exitNode {
      allTraffic := true;
    }
    var suffix := TrimDots(st.value.magicDNSSuffix);
    var peers := st.value.peers;
    var seen: set<string>, routes := {}, [];
    for i := 0 to |peers|
      invariant NoRepeats(routes) && forall t :: t in seen <==> t in routes
      invariant forall t :: t in routes <==> ListedFrom(own, peers[..i], t)
    {
      PeerStep(own, peers[..i], peers[i]);
      assert peers[..i + 1] == peers[..i] + [peers[i]];
      if peers[i].None? {
        continue;
      }
      seen, routes := AddPeer(own, peers[i].value, seen, routes);
    }
    assert peers[..|peers|] == peers;
    forall t ensures t in routes <==> Listed(own, peers, t) {
      ListedByPeer(own, peers, t);
    }
    SortSorts(routes);
    SortKeepsNoRepeats(routes);
    SameMultisetSameElements(routes, Sort(routes));
    inputs := PacInputs(proxyAddr, allTraffic, suffix, Sort(routes));
  }

  // ----- what follows -----

  /** A status, and the PACAllTraffic option at the time. */
  datatype Situation = Situation(st: Status, pacAllTraffic: bool) {
    predicate AllTraffic() {
      pacAllTraffic || st.exitNode
    }
  }

  /** Two situations that differ at most in the order of peers and routes, in repeats, in routes that
      are filtered out anyway, or in which of option and exit node asks for all traffic. */
  ghost predicate SameTraffic(own: TailscaleTest, x: Situation, y: Situation) {
    var a, b := x.st, y.st;
    && x.AllTraffic() == y.AllTraffic()
    && TrimDots(a.magicDNSSuffix) == TrimDots(b.magicDNSSuffix)
    && forall t :: Listed(own, a.peers, t) <==> Listed(own, b.peers, t)
  }

  /** The inputs are a canonical form: they are equal exactly when nothing the script depends on
      differs, so equal statuses never look like a change. */
  lemma InputsAreCanonical(own: TailscaleTest, x: Situation, y: Situation, proxyAddr: string,
                           ia: PacInputs, ib: PacInputs)
    requires Derived(own, Some(x.st), x.pacAllTraffic, proxyAddr, ia)
    requires Derived(own, Some(y.st), y.pacAllTraffic, proxyAddr, ib)
    ensures ia == ib <==> SameTraffic(own, x, y)
  {
    hide Listed, TrimDots;
    if SameTraffic(own, x, y) {
      SortedIsUnique(ia.routes, ib.routes);
    }
  }

  /** Walking the peers, or a peer's routes, in any other order changes nothing. */
  lemma OrderDoesNotMatter(own: TailscaleTest, st: Status, peers: seq<Option<seq<Route>>>, pacAllTraffic: bool,
                           proxyAddr: string, ia: PacInputs, ib: PacInputs)
    requires multiset(peers) == multiset(st.peers)
    requires Derived(own, Some(st), pacAllTraffic, proxyAddr, ia)
    requires Derived(own, Some(st.(peers := peers)), pacAllTraffic, proxyAddr, ib)
    ensures ia == ib
  {
    forall p ensures p in peers <==> p in st.peers {
      assert p in peers <==> p in multiset(peers);
      assert p in st.peers <==> p in multiset(st.peers);
    }
    forall t ensures Listed(own, peers, t) <==> Listed(own, st.peers, t) {
      SamePeersList(own, peers, st.peers, t);
      SamePeersList(own, st.peers, peers, t);
    }
    SortedIsUnique(ia.routes, ib.routes);
  }

  lemma SamePeersList(own: TailscaleTest, a: seq<Option<seq<Route>>>, b: seq<Option<seq<Route>>>, t: string)
    requires forall p :: p in a <==> p in b
    ensures Listed(own, a, t) ==> Listed(own, b, t)
  {
    if Listed(own, a, t) {
      var addr: Ip, n: Bits :| Advertised(a, V4(addr, n)) && n > 0 && !own(addr) && PrefixText(Masked(addr, n), n) == t;
      assert Advertised(b, V4(addr, n));
    }
  }

  /** Listing a route as text loses nothing: the script's rule for it covers the same addresses. */
  lemma TextCovers(r: Route, ip: Ip)
    requires r.V4?
    ensures Covers(TextOf(r), ip) <==> InPrefix(ip, r.addr, r.bits)
  {
    hide InPrefix, PrefixText, Masked;
    PrefixRoundTrip(Masked(r.addr, r.bits), r.bits);
    MaskedCoversSame(ip, r.addr, r.bits);
  }

  /** Some peer advertises a prefix with the address in it, other than all of IPv4 or one of the
      tailnet's own addresses. */
  ghost predicate Routed(own: TailscaleTest, peers: seq<Option<seq<Route>>>, ip: Ip) {
    exists a: Ip, n: Bits :: Advertised(peers, V4(a, n)) && n > 0 && !own(a) && InPrefix(ip, a, n)
  }

  /** The prefix of all addresses is never listed. */
  lemma NeverListsEverything(own: TailscaleTest, st: Option<Status>, pacAllTraffic: bool, proxyAddr: string,
                             inputs: PacInputs)
    requires Derived(own, st, pacAllTraffic, proxyAddr, inputs)
    ensures PrefixText(0, 0) !in inputs.routes
  {
    hide PrefixText, Masked;
    if PrefixText(0, 0) in inputs.routes {
      var a: Ip, n: Bits :| Advertised(st.value.peers, V4(a, n)) && n > 0 && !own(a)
        && PrefixText(Masked(a, n), n) == PrefixText(0, 0);
      PrefixRoundTrip(Masked(a, n), n);
      PrefixRoundTrip(0, 0);
      assert false;
    }
  }

  lemma TextMeans(r: Route)
    requires r.V4?
    ensures TextOf(r) == PrefixText(Masked(r.addr, r.bits), r.bits)
  {
  }

  lemma ListedCoverRouted(own: TailscaleTest, peers: seq<Option<seq<Route>>>, routes: seq<string>, ip: Ip)
    requires forall t :: t in routes <==> Listed(own, peers, t)
    ensures (exists i :: 0 <= i < |routes| && Covers(routes[i], ip)) <==> Routed(own, peers, ip)
  {
    hide Covers, InPrefix, TextOf, PrefixText, Masked;
    if i :| 0 <= i < |routes| && Covers(routes[i], ip) {
      assert routes[i] in routes;
      var a: Ip, n: Bits :| Advertised(peers, V4(a, n)) && n > 0 && !own(a) && PrefixText(Masked(a, n), n) == routes[i];
      TextMeans(V4(a, n));
      TextCovers(V4(a, n), ip);
    }
    if Routed(own, peers, ip) {
      var a: Ip, n: Bits :| Advertised(peers, V4(a, n)) && n > 0 && !own(a) && InPrefix(ip, a, n);
      TextMeans(V4(a, n));
      TextCovers(V4(a, n), ip);
      assert Listed(own, peers, TextOf(V4(a, n)));
      var i :| 0 <= i < |routes| && routes[i] == TextOf(V4(a, n));
    }
  }

  /** From status to decision: with no exit node and a MagicDNS suffix that does not end in a digit,
      the browser sends an IPv4 literal outside 127/8 to the proxy exactly when it lies in
      100.64.0.0/10 or in a route some peer advertises that survives the filter. */
  lemma LiteralFollowsRoutes(b: Browser, own: TailscaleTest, st: Status, proxyAddr: string, inputs: PacInputs, ip: Ip)
    requires Lawful(b) && Derived(own, Some(st), false, proxyAddr, inputs) && !st.exitNode
    requires NoWildcards(inputs.dnsSuffix)
    requires inputs.dnsSuffix != "" ==> !IsDigit(inputs.dnsSuffix[|inputs.dnsSuffix| - 1])
    requires !InPrefix(ip, LOOPBACK, 8)
    ensures FindProxyForURL(b, ScriptOf(inputs), Dotted(ip)) ==
            Some(if InPrefix(ip, CGNAT, 10) || Routed(own, st.peers, ip) then Proxy else Direct)
  {
    LiteralDecision(b, inputs, ip);
    SuffixNeverNumeric(b, inputs.dnsSuffix, ip);
    ListedCoverRouted(own, st.peers, inputs.routes, ip);
    hide Lawful, FindProxyForURL, ScriptOf, InPrefix, Dotted, Covers, Routed, Listed;
  }

  // ----- the fingerprint -----

  /** The strings with a space between them. */
  function Spaced(words: seq<string>): string {
    if words == [] then "" else if |words| == 1 then words[0] else words[0] + (" " + Spaced(words[1..]))
  }

  /** The inputs as the %v verb prints them. */
  function Fingerprint(inputs: PacInputs): (key: string)
    ensures key != ""
  {
    "{" + inputs.proxyAddr + " " +
    ((if inputs.allTraffic then "true " else "false ") +
    ((inputs.dnsSuffix + " ") + ("[" + (Spaced(inputs.routes) + "]}"))))
  }

  predicate IsPlain(t: string) {
    t != "" && ' ' !in t && '[' !in t
  }

  ghost predicate AllPlain(words: seq<string>) {
    forall i :: 0 <= i < |words| ==> IsPlain(words[i])
  }

  /** A string that ends in its only c is told apart from what follows. */
  lemma SplitAtLast(s: string, s': string, c: char, t: string, t': string)
    requires s + ([c] + t) == s' + ([c] + t') && c !in t && c !in t'
    ensures s == s' && t == t'
  {
    var whole := s + ([c] + t);
    assert whole[|s|] == c && whole[|s'|] == c;
    assert |s'| >= |s| by {
      assert forall i :: 0 <= i < |t'| ==> t'[i] == whole[|s'| + 1 + i];
    }
    assert |s| >= |s'| by {
      assert forall i :: 0 <= i < |t| ==> t[i] == whole[|s| + 1 + i];
    }
    assert whole[..|s|] == s && whole[..|s'|] == s';
    assert whole[|s| + 1..] == t && whole[|s'| + 1..] == t';
  }

  /** The first word ends at the first space. */
  lemma SplitAtFirst(s: string, s': string, t: string, t': string)
    requires s + t == s' + t' && ' ' !in s && ' ' !in s'
    requires (t != "" ==> t[0] == ' ') && (t' != "" ==> t'[0] == ' ')
    ensures s == s' && t == t'
  {
    var whole := s + t;
    assert |s| <= |s'| by {
      assert forall i :: 0 <= i < |s| ==> whole[i] == s[i];
      assert t' != "" ==> whole[|s'|] == ' ';
    }
    assert |s'| <= |s| by {
      assert forall i :: 0 <= i < |s'| ==> whole[i] == s'[i];
      assert t != "" ==> whole[|s|] == ' ';
    }
    assert whole[..|s|] == s && whole[..|s'|] == s';
    assert whole[|s|..] == t && whole[|s'|..] == t';
  }

  function AfterFirst(words: seq<string>): string
    requires words != []
  {
    if |words| == 1 then "" else " " + Spaced(words[1..])
  }

  lemma {:induction false} SpacedIsInjective(a: seq<string>, b: seq<string>)
    requires AllPlain(a) && AllPlain(b) && Spaced(a) == Spaced(b)
    ensures a == b
  {
    assert a != [] ==> IsPlain(a[0]) && Spaced(a) == a[0] + AfterFirst(a);
    assert b != [] ==> IsPlain(b[0]) && Spaced(b) == b[0] + AfterFirst(b);
    if a != [] && b != [] {
      SplitAtFirst(a[0], b[0], AfterFirst(a), AfterFirst(b));
      if |a| > 1 {
        assert AfterFirst(a)[1..] == Spaced(a[1..]) && AfterFirst(b)[1..] == Spaced(b[1..]);
        SpacedIsInjective(a[1..], b[1..]);
      }
      assert a == [a[0]] + a[1..] && b == [b[0]] + b[1..];
    }
  }

  lemma {:induction false} SpacedHasNoBracket(words: seq<string>)
    requires AllPlain(words)
    ensures '[' !in Spaced(words)
  {
    if words != [] {
      assert IsPlain(words[0]);
      SpacedHasNoBracket(words[1..]);
    }
  }

  /** For one listening address, printing the inputs loses nothing: not even a suffix with spaces or
      brackets in it can make two different ones look alike. */
  lemma FingerprintIsInjective(a: PacInputs, b: PacInputs)
    requires a.proxyAddr == b.proxyAddr && AllPlain(a.routes) && AllPlain(b.routes)
    ensures Fingerprint(a) == Fingerprint(b) <==> a == b
  {
    if Fingerprint(a) == Fingerprint(b) {
      SpacedHasNoBracket(a.routes);
      SpacedHasNoBracket(b.routes);
      hide Spaced;
      var head := "{" + a.proxyAddr + " ";
      var ta, tb := Spaced(a.routes) + "]}", Spaced(b.routes) + "]}";
      var ra, rb := (a.dnsSuffix + " ") + ("[" + ta), (b.dnsSuffix + " ") + ("[" + tb);
      var ba, bb := if a.allTraffic then "true " else "false ", if b.allTraffic then "true " else "false ";
      assert Fingerprint(a)[|head|..] == ba + ra && Fingerprint(b)[|head|..] == bb + rb;
      assert (ba + ra)[0] == ba[0] && (bb + rb)[0] == bb[0];
      assert (ba + ra)[|ba|..] == ra && (bb + rb)[|bb|..] == rb;
      SplitAtLast(a.dnsSuffix + " ", b.dnsSuffix + " ", '[', ta, tb);
      assert (a.dnsSuffix + " ")[..|a.dnsSuffix|] == a.dnsSuffix && (b.dnsSuffix + " ")[..|b.dnsSuffix|] == b.dnsSuffix;
      assert ta[..|Spaced(a.routes)|] == Spaced(a.routes) && tb[..|Spaced(b.routes)|] == Spaced(b.routes);
      SpacedIsInjective(a.routes, b.routes);
    }
  }

  lemma TextIsPlain(r: Route)
    requires r.V4?
    ensures IsPlain(TextOf(r))
  {
    hide Dotted, Decimal;
    DottedShape(Masked(r.addr, r.bits));
    DecimalIsDigits(r.bits as bv16);
  }

  lemma DerivedIsPlain(own: TailscaleTest, st: Option<Status>, pacAllTraffic: bool, proxyAddr: string,
                       inputs: PacInputs)
    requires Derived(own, st, pacAllTraffic, proxyAddr, inputs)
    ensures AllPlain(inputs.routes)
  {
    hide IsPlain, TextOf;
    forall i | 0 <= i < |inputs.routes| ensures IsPlain(inputs.routes[i]) {
      assert inputs.routes[i] in inputs.routes;
      var a: Ip, n: Bits :| Advertised(st.value.peers, V4(a, n)) && n > 0 && !own(a)
        && PrefixText(Masked(a, n), n) == inputs.routes[i];
      TextMeans(V4(a, n));
      TextIsPlain(V4(a, n));
    }
  }

  // ----- refreshStatus -----

  /** The part of Backend that notices when browsers must fetch the script again. */
  class StatusWatch {
    const own: TailscaleTest
    const proxyAddr: string
    const listening: bool
    var lastPac: string
    ghost var last: Option<Situation>
    ghost var lastInputs: PacInputs

    ghost predicate Valid()
      reads this
    {
      && (lastPac != "" <==> last.Some?)
      && (last.Some? ==>
            && Derived(own, Some(last.value.st), last.value.pacAllTraffic, proxyAddr, lastInputs)
            && lastPac == Fingerprint(lastInputs))
    }

    constructor (own: TailscaleTest, proxyAddr: string, listening: bool)
      ensures Valid() && lastPac == ""
      ensures this.own == own && this.proxyAddr == proxyAddr && this.listening == listening
    {
      this.own, this.proxyAddr, this.listening := own, proxyAddr, listening;
      lastPac, last, lastInputs := "", None, PacInputs("", false, "", []);
    }

    /** With a listening proxy, a change is reported exactly when there was an earlier status whose
        traffic differs; without one, never. */
    method RefreshStatus(st: Status, pacAllTraffic: bool) returns (pacChanged: bool)
      requires Valid()
      modifies this
      ensures Valid() && last == if listening then Some(Situation(st, pacAllTraffic)) else old(last)
      ensures pacChanged <==>
        listening && old(last).Some? && !SameTraffic(own, old(last).value, Situation(st, pacAllTraffic))
    {
      hide Derived, SameTraffic, Fingerprint, AllPlain;
      pacChanged := false;
      if listening {
        ghost var now := Situation(st, pacAllTraffic);
        var inputs := PacInputsFrom(own, Some(st), pacAllTraffic, proxyAddr);
        var key := Fingerprint(inputs);
        pacChanged := lastPac != "" && key != lastPac;
        if last.Some? {
          FingerprintTells(own, last.value, now, proxyAddr, lastInputs, inputs);
        }
        lastPac := key;
        last, lastInputs := Some(now), inputs;
      }
    }
  }

  lemma FingerprintTells(own: TailscaleTest, x: Situation, y: Situation, proxyAddr: string,
                         ix: PacInputs, iy: PacInputs)
    requires Derived(own, Some(x.st), x.pacAllTraffic, proxyAddr, ix)
    requires Derived(own, Some(y.st), y.pacAllTraffic, proxyAddr, iy)
    ensures Fingerprint(ix) == Fingerprint(iy) <==> SameTraffic(own, x, y)
  {
    hide Fingerprint, AllPlain, SameTraffic;
    DerivedIsPlain(own, Some(x.st), x.pacAllTraffic, proxyAddr, ix);
    DerivedIsPlain(own, Some(y.st), y.pacAllTraffic, proxyAddr, iy);
    FingerprintIsInjective(ix, iy);
    InputsAreCanonical(own, x, y, proxyAddr, ix, iy);
  }
}
