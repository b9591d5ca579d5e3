/** From a profile's configuration to where the user's traffic goes: the outbound options of
    profiles.go, applied by ApplyOutbound of backend.go. */
module Outbound {
  import opened Wrappers
  import opened ProxySettings
  import opened ProxySystem
  import opened Routing
  import opened SnapshotSafety
  import opened CrashSafety
  import opened Registrations

  // ----- the configuration -----

  /** The fields about outbound access; a missing one stands for on. */
  datatype Config = Config(
    proxyMode: string,
    registerProxy: Option<bool>,
    setEnvVars: Option<bool>,
    watchdog: Option<bool>,
    runOnceRestore: Option<bool>)

  const PROXY_MODE_STATIC := "static"
  const PAC_PATH := "/proxy.pac"

  function BoolOr(p: Option<bool>, default_: bool): bool {
    match p
    case None => default_
    case Some(b) => b
  }

  function OutboundOptions(cfg: Config, addr: string): Registration {
    Registration(
      addr,
      if cfg.proxyMode == PROXY_MODE_STATIC then Static else Pac,
      "http://" + addr + PAC_PATH,
      BoolOr(cfg.setEnvVars, true),
      BoolOr(cfg.watchdog, true),
      BoolOr(cfg.runOnceRestore, true))
  }

  /** What is registered for a configuration, if anything. */
  function Wanted(cfg: Config, addr: string): Option<Registration> {
    if BoolOr(cfg.registerProxy, true) then Some(OutboundOptions(cfg, addr)) else None
  }

  // ----- where the requests go -----

  /** Static mode sends exactly http and https to the proxy, and the loopback hosts around it; PAC mode
      asks the script, and nothing of a fixed proxy is left. Either way a dead proxy means direct. */
  lemma RegisteredRoute(reg: Registration, scheme: string, host: string)
    requires ';' !in reg.addr && '=' !in scheme
    ensures RouteOf(RegisteredConn(reg), scheme, host) ==
      match reg.mode
      case Pac => ByScript(reg.pacURL)
      case Static =>
        if (scheme == "http" || scheme == "https") && !IsLoopbackHost(host) then ByServer(reg.addr) else Straight
    ensures FallsBackToDirect(RegisteredConn(reg))
    ensures reg.mode.Pac? ==> RegisteredConn(reg).server == "" && RegisteredConn(reg).bypass == ""
    ensures reg.mode.Static? ==> RegisteredConn(reg).pac == ""
  {
    if reg.mode.Static? {
      StaticServer(reg.addr, scheme);
      BypassesLoopback(host);
      hide ServerFor, Bypassed;
    }
  }

  // ----- the configuration decides -----

  ghost predicate RoutesFollow(cfg: Config, addr: string, l: Live) {
    forall scheme: string, host: string :: '=' !in scheme ==>
      RouteOf(l.conn, scheme, host) ==
        if cfg.proxyMode != "static" then ByScript("http://" + addr + "/proxy.pac")
        else if (scheme == "http" || scheme == "https") && !IsLoopbackHost(host) then ByServer(addr) else Straight
  }

  /** The variables are ours unless the configuration says not to, and then they are the user's;
      all other variables are always the user's. */
  ghost predicate EnvFollows(cfg: Config, addr: string, user: Live, l: Live) {
    && SameOutside(l.env, user.env)
    && (cfg.setEnvVars != Some(false) ==>
          && Lookup(l.env, "HTTP_PROXY") == "http://" + addr && Lookup(l.env, "HTTPS_PROXY") == "http://" + addr
          && Lookup(l.env, "NO_PROXY") == "localhost,127.0.0.1,::1")
    && (cfg.setEnvVars == Some(false) ==> SameEnv(l.env, user.env))
  }

  lemma RegisteredLiveFollows(cfg: Config, addr: string, user: Live)
    requires ';' !in addr
    ensures var l := RegisteredLive(user, OutboundOptions(cfg, addr));
      RoutesFollow(cfg, addr, l) && EnvFollows(cfg, addr, user, l)
  {
    var reg := OutboundOptions(cfg, addr);
    var l := RegisteredLive(user, reg);
    assert RoutesFollow(cfg, addr, l) by {
      hide RegisteredConn, RouteOf;
      LiveParts(user, reg);
      forall scheme: string, host: string | '=' !in scheme
        ensures RouteOf(l.conn, scheme, host) ==
          if cfg.proxyMode != "static" then ByScript("http://" + addr + "/proxy.pac")
          else if (scheme == "http" || scheme == "https") && !IsLoopbackHost(host) then ByServer(addr) else Straight
      {
        RegisteredRoute(reg, scheme, host);
      }
    }
    NormIsSame(user);
  }

  /** Applying a configuration without a failure, whatever was registered before, leaves the
      machine as that configuration alone asks: routes, variables, nets; with registration off,
      the user's own settings and nothing left behind that could run. */
  lemma OutboundFollowsConfig(codec: Codec, user: Live, e: Exec, cfg: Config, addr: string)
    requires AllOk(e) && Steady(user, e.sys) && ';' !in addr
    ensures var r := Reapply(codec, e, Wanted(cfg, addr)).0;
      r.alive ==>
        if cfg.registerProxy == Some(false) then
          Same(r.sys.live, user) && r.sys.snapshot.None? && !r.sys.runOnce && r.sys.watchdogs == 0
        else
          && RoutesFollow(cfg, addr, r.sys.live) && EnvFollows(cfg, addr, user, r.sys.live)
          && r.sys.snapshot.Some? && Holds(user, r.sys.snapshot.value)
          && (r.sys.runOnce <==> cfg.runOnceRestore != Some(false))
          && r.sys.watchdogs == (if cfg.watchdog != Some(false) then 1 else 0)
  {
    hide Unregister, Register, RoutesFollow, EnvFollows, Same, Holds, RegisteredLive, Steady;
    var e1 := Unregister(e).0;
    UnregisterResult(user, e);
    UnregisterReports(e);
    if BoolOr(cfg.registerProxy, true) {
      var reg := OutboundOptions(cfg, addr);
      RegisteredLiveFollows(cfg, addr, user);
      if e1.alive {
        RegisterResult(codec, user, e1, reg);
      } else {
        CallDead(codec, e1, Some(reg));
      }
    }
  }

  /** Without failures, only a process that died reports an error. */
  lemma UnregisterReports(e: Exec)
    requires AllOk(e)
    ensures Unregister(e).0.alive ==> Unregister(e).1
  {
    hide Restore, RemoveCrashRestore;
    if e.sys.snapshot.Some? {
      RestoreFrame(StopWatchdog(e), e.sys.snapshot.value);
    }
  }
}
