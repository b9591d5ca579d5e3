/** The proxy registration of winproxy_windows.go as the program performs it: fields changed
    one write at a time, each method proved to do what ProxySystem says. */
module WinProxy {
  import opened Wrappers
  import opened ProxySettings
  import opened RegFile
  import opened ProxySystem
  import opened SnapshotSafety

  lemma RestoreVarsLiteral(p: Saved)
    ensures map[HTTP_PROXY := "", HTTPS_PROXY := "", NO_PROXY := ""] + p.env == RestoreVars(p)
  {
    var blank: Env := map[HTTP_PROXY := "", HTTPS_PROXY := "", NO_PROXY := ""];
    assert blank.Keys == {HTTP_PROXY, HTTPS_PROXY, NO_PROXY};
    assert blank == map name | name in PROXY_ENV_VARS :: "";
  }

  class Desktop {
    const codec: Codec

    var conn: Conn
    var env: Env
    var snapshot: Option<Saved>
    var foreign: Option<Saved>
    var regFile: Option<string>
    var cmdFile: Option<seq<ScriptLine>>
    var runOnce: bool
    var watchdogs: nat
    var handle: bool

    // The failures to come, and whether the process still runs.
    var fates: seq<Fate>
    var alive: bool

    function Sys(): Sys
      reads this
    {
      ProxySystem.Sys(Live(conn, env), snapshot, foreign, regFile, cmdFile, runOnce, watchdogs, handle)
    }

    function State(): Exec
      reads this
    {
      Exec(Sys(), fates, alive)
    }

    /** Decides the next write. */
    method Attempt() returns (ok: bool)
      modifies this`fates, this`alive
      ensures old(!alive) ==> !ok && State() == old(State())
      ensures old(alive && fates == []) ==> !ok && State() == old(State()).(alive := false)
      ensures old(alive && fates != []) ==> ok == old(fates[0].ok) && State() == old(State()).(fates := old(fates[1..]))
    {
      if !alive {
        return false;
      }
      if fates == [] {
        alive := false;
        return false;
      }
      ok := fates[0].ok;
      fates := fates[1..];
    }

    method SetPerConnProxy(c: Conn) returns (ok: bool)
      modifies this
      ensures (State(), ok) == Do(old(State()), SetConn(c))
    {
      ok := Attempt();
      if ok {
        conn := c;
      }
    }

    method SetOrDeleteVar(name: string, val: string) returns (ok: bool)
      modifies this
      ensures (State(), ok) == Do(old(State()), SetVar(name, val))
    {
      ok := Attempt();
      if ok {
        if val == "" {
          env := env - {name};
        } else {
          env := env[name := val];
        }
      }
    }

    /** setUserEnv: every variable in some order, stopping at the first failure. */
    method SetUserEnv(vars: Env) returns (ok: bool)
      requires forall name <- PROXY_ENV_VARS :: name in vars
      modifies this
      ensures (State(), ok) == ProxySystem.SetUserEnv(old(State()), vars, PROXY_ENV_VARS)
    {
      var todo := PROXY_ENV_VARS;
      while todo != []
        invariant forall name <- todo :: name in vars
        invariant ProxySystem.SetUserEnv(State(), vars, todo)
               == ProxySystem.SetUserEnv(old(State()), vars, PROXY_ENV_VARS)
        decreases |todo|
      {
        var i := Pick(State(), |todo|);
        ok := SetOrDeleteVar(todo[i], vars[todo[i]]);
        if !ok {
          return;
        }
        todo := todo[..i] + todo[i + 1..];
      }
      ok := true;
    }

    method SaveSnapshot(p: Saved) returns (ok: bool)
      modifies this
      ensures (State(), ok) == Do(old(State()), Action.SaveSnapshot(p))
    {
      ok := Attempt();
      if ok {
        snapshot, foreign := Some(p), None;
      }
    }

    method RemoveSavedProxySettings() returns (ok: bool)
      modifies this
      ensures (State(), ok) == Do(old(State()), RemoveSnapshot)
    {
      ok := Attempt();
      if ok {
        snapshot, foreign := None, None;
      }
    }

    method SaveRegFile(text: string) returns (ok: bool)
      modifies this
      ensures (State(), ok) == Do(old(State()), WriteReg(text))
    {
      ok := Attempt();
      if ok {
        regFile := Some(text);
      }
    }

    method SaveCmdFile(script: seq<ScriptLine>) returns (ok: bool)
      modifies this
      ensures (State(), ok) == Do(old(State()), WriteCmd(script))
    {
      ok := Attempt();
      if ok {
        cmdFile := Some(script);
      }
    }

    /** writeCrashRestoreFiles, with the connection blob as it is now. */
    method WriteCrashRestoreFiles(p: Saved)
      modifies this
      ensures State() == ProxySystem.WriteCrashRestoreFiles(old(State()), RestoreFileNow(codec, old(Sys()), p))
    {
      hide RestoreText, RestoreEntries, ParseReg, Do;
      var text := RestoreRegFile(p, Some(codec.encode(conn)));
      var ok := SaveRegFile(text);
      if ok {
        var _ := SaveCmdFile(RESTORE_SCRIPT);
      }
    }

    method InstallOrRemoveRunOnce(on: bool) returns (ok: bool)
      modifies this
      ensures State() == SetRunOnce(old(State()), on)
      ensures ok == Do(old(State()), if on then InstallRunOnce else RemoveRunOnce).1
    {
      ok := Attempt();
      if ok {
        runOnce := on;
      }
    }

    method StartWatchdog()
      modifies this
      ensures State() == ProxySystem.StartWatchdog(old(State()))
    {
      if handle {
        return;
      }
      var ok := Attempt();
      if ok {
        watchdogs, handle := watchdogs + 1, true;
      }
    }

    method StopWatchdog()
      modifies this
      ensures State() == ProxySystem.StopWatchdog(old(State()))
    {
      if !handle {
        return;
      }
      var ok := Attempt();
      if ok && watchdogs > 0 {
        watchdogs := watchdogs - 1;
      }
      if alive {
        handle := false;
      }
    }

    /** captureProxySettings. */
    method CaptureProxySettings() returns (p: Saved)
      ensures p == Capture(Live(conn, env))
    {
      var names := PROXY_ENV_VARS;
      var found: ProxyEnv := map[];
      for i := 0 to |names|
        invariant forall name :: name in found <==> name in names[..i] && name in env
        invariant forall name <- found :: found[name] == env[name]
      {
        var name := names[i];
        assert names[..i + 1] == names[..i] + [name];
        if name in env {
          found := found[name := env[name]];
        }
      }
      assert names[..|names|] == names;
      p := Saved(conn, found);
    }

    method RestoreSettings(p: Saved) returns (ok: bool)
      modifies this
      ensures (State(), ok) == Restore(old(State()), p)
    {
      hide ProxySystem.SetUserEnv, RestoreVars;
      RestoreVarsLookup(p);
      var c := p.conn;
      if c.flags == 0 {
        c := c.(flags := TYPE_DIRECT);
      }
      ok := SetPerConnProxy(c);
      if !ok {
        return;
      }
      var vars: Env := map[HTTP_PROXY := "", HTTPS_PROXY := "", NO_PROXY := ""];
      vars := vars + p.env;
      RestoreVarsLiteral(p);
      ok := SetUserEnv(vars);
    }

    method RemoveCrashRestore()
      modifies this
      ensures State() == ProxySystem.RemoveCrashRestore(old(State()))
    {
      var ok := InstallOrRemoveRunOnce(false);
      if !ok {
        return;
      }
      ok := Attempt();
      if !ok {
        return;
      }
      cmdFile := None;
      ok := Attempt();
      if ok {
        regFile := None;
      }
    }

    /** registerSystemProxy: under any failures and any death, the user's settings are in place
        or in the snapshot. */
    method RegisterSystemProxy(reg: Registration) returns (ok: bool)
      modifies this
      ensures (State(), ok) == Register(codec, old(State()), reg)
      ensures forall user :: SnapshotSafe(user, old(Sys())) ==> SnapshotSafe(user, Sys())
    {
      forall user | SnapshotSafe(user, old(Sys())) {
        RegisterSafe(user, codec, old(State()), reg);
      }
      var p: Saved;
      if snapshot.Some? {
        p := snapshot.value;
      } else {
        p := CaptureProxySettings();
        ok := SaveSnapshot(p);
        if !ok {
          return;
        }
      }
      WriteCrashRestoreFiles(p);
      var _ := InstallOrRemoveRunOnce(reg.runOnce);
      if reg.watchdog {
        StartWatchdog();
      } else {
        StopWatchdog();
      }
      ok := ChangeSettings(reg, p);
    }

    method ChosenVars(reg: Registration, p: Saved) returns (vars: Env)
      ensures vars == RegisteredVars(reg, p)
    {
      if reg.envVars {
        var url := "http://" + reg.addr;
        return map[HTTP_PROXY := url, HTTPS_PROXY := url, NO_PROXY := NO_PROXY_LIST];
      }
      vars := UserVars(p);
    }

    /** The variables as the user had them, in case a previous registration set them. */
    method UserVars(p: Saved) returns (vars: Env)
      ensures vars == map name | name in PROXY_ENV_VARS :: Lookup(p.env, name)
    {
      hide Lookup;
      var names := PROXY_ENV_VARS;
      vars := map[];
      for i := 0 to |names|
        invariant forall name :: name in vars <==> name in names[..i]
        invariant forall name <- vars :: vars[name] == Lookup(p.env, name)
      {
        assert names[..i + 1] == names[..i] + [names[i]];
        vars := vars[names[i] := Lookup(p.env, names[i])];
      }
      assert names[..|names|] == names;
    }

    /** The settings half of registerSystemProxy; a failing variable is only logged. */
    method ChangeSettings(reg: Registration, p: Saved) returns (ok: bool)
      modifies this
      ensures (State(), ok) == ProxySystem.ChangeSettings(old(State()), reg, p)
    {
      hide ProxySystem.SetUserEnv;
      RegisteredVarsNames(reg, p);
      match reg.mode {
        case Static =>
          var server := "http=" + reg.addr + ";https=" + reg.addr;
          ok := SetPerConnProxy(Conn(TYPE_DIRECT | TYPE_PROXY, server, PROXY_BYPASS_LIST, ""));
        case Pac =>
          ok := SetPerConnProxy(Conn(TYPE_DIRECT | TYPE_AUTO_PROXY_URL, "", "", reg.pacURL));
      }
      if !ok {
        return;
      }
      var vars := ChosenVars(reg, p);
      var _ := SetUserEnv(vars);
    }

    /** unregisterSystemProxy: the snapshot goes only once everything in it is back. */
    method UnregisterSystemProxy() returns (ok: bool)
      modifies this
      ensures (State(), ok) == Unregister(old(State()))
      ensures forall user :: SnapshotSafe(user, old(Sys())) ==> SnapshotSafe(user, Sys())
    {
      forall user | SnapshotSafe(user, old(Sys())) {
        UnregisterSafe(user, old(State()));
      }
      if snapshot.None? {
        StopWatchdog();
        return true;
      }
      var p := snapshot.value;
      StopWatchdog();
      ok := RestoreSettings(p);
      if !ok {
        return;
      }
      var _ := RemoveSavedProxySettings();
      RemoveCrashRestore();
    }

    /** ApplyOutbound: restore, and only then register with the new options. */
    method ApplyOutbound(reg: Option<Registration>) returns (ok: bool)
      modifies this
      ensures (State(), ok) == Reapply(codec, old(State()), reg)
    {
      ok := UnregisterSystemProxy();
      if !ok || reg.None? {
        return;
      }
      ok := RegisterSystemProxy(reg.value);
    }
  }
}
