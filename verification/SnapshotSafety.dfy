/** Safety of the snapshot when any write may fail and the process may die anywhere. */
module SnapshotSafety {
  import opened Wrappers
  import opened ProxySettings
  import opened ProxySystem

  // ----- when settings count as the same -----

  /** A missing proxy variable and an empty one are the same; other variables are not ours. */
  ghost predicate SameEnv(a: Env, b: Env) {
    && (forall name <- PROXY_ENV_VARS :: Lookup(a, name) == Lookup(b, name))
    && SameOutside(a, b)
  }

  ghost predicate SameOutside(a: Env, b: Env) {
    forall name :: !IsProxyVar(name) ==> (name in a <==> name in b) && (name in a ==> a[name] == b[name])
  }

  /** Equal up to the normal form restoring gives: flags 0 mean a direct connection. */
  ghost predicate Same(a: Live, b: Live) {
    NormConn(a.conn) == NormConn(b.conn) && SameEnv(a.env, b.env)
  }

  /** The snapshot holds the user's own settings. */
  ghost predicate Holds(user: Live, p: Saved) {
    && NormConn(p.conn) == NormConn(user.conn)
    && forall name <- PROXY_ENV_VARS :: Lookup(p.env, name) == Lookup(user.env, name)
  }

  ghost predicate Held(user: Live, s: Sys) {
    s.snapshot.Some? && Holds(user, s.snapshot.value) && SameOutside(s.live.env, user.env)
  }

  /** No snapshot means the user's settings are in place; a snapshot holds them. */
  ghost predicate SnapshotSafe(user: Live, s: Sys) {
    Held(user, s) || (s.snapshot.None? && Same(s.live, user))
  }

  // ----- single writes -----

  /** Writes that leave the snapshot and the user's other variables alone. */
  predicate Harmless(a: Action) {
    !a.SaveSnapshot? && !a.RemoveSnapshot? && (a.SetVar? ==> IsProxyVar(a.name))
  }

  lemma DoHarmless(user: Live, e: Exec, a: Action)
    requires Held(user, e.sys) && Harmless(a)
    ensures Held(user, Do(e, a).0.sys)
  {
  }

  lemma {:induction false} SetUserEnvHeld(user: Live, e: Exec, vars: Env, todo: seq<string>)
    requires Held(user, e.sys)
    requires forall name <- todo :: name in vars && IsProxyVar(name)
    ensures Held(user, SetUserEnv(e, vars, todo).0.sys)
    decreases |todo|
  {
    if todo != [] {
      var i := Pick(e, |todo|);
      var a := SetVar(todo[i], vars[todo[i]]);
      DoHarmless(user, e, a);
      SetUserEnvHeld(user, Do(e, a).0, vars, todo[..i] + todo[i + 1..]);
    }
  }

  // ----- setUserEnv run to its end -----

  /** `env` with every variable of `todo` set as `vars` says. */
  function WithVars(env: Env, vars: Env, todo: seq<string>): Env
    requires forall name <- todo :: name in vars
  {
    map name | name in env.Keys + vars.Keys && (name in todo ==> vars[name] != "") && (name !in todo ==> name in env)
      :: if name in todo then vars[name] else env[name]
  }

  lemma WithVarsStep(env: Env, vars: Env, todo: seq<string>, i: nat)
    requires forall name <- todo :: name in vars
    requires i < |todo|
    ensures WithVars(WithVar(env, todo[i], vars[todo[i]]), vars, todo[..i] + todo[i + 1..]) == WithVars(env, vars, todo)
  {
    var rest := todo[..i] + todo[i + 1..];
    assert forall name :: name in todo <==> name == todo[i] || name in rest by {
      assert todo == todo[..i] + [todo[i]] + todo[i + 1..];
    }
  }

  lemma WithVarsOfNone(env: Env, vars: Env)
    ensures WithVars(env, vars, []) == env
  {
  }

  /** The order of the writes does not matter, and a loop that reports success set them all. */
  lemma {:induction false} SetUserEnvEffect(e: Exec, vars: Env, todo: seq<string>)
    requires forall name <- todo :: name in vars
    ensures var (r, ok) := SetUserEnv(e, vars, todo);
      && r.sys == e.sys.(live := e.sys.live.(env := r.sys.live.env))
      && (ok ==> r.alive == e.alive && r.sys.live.env == WithVars(e.sys.live.env, vars, todo))
    decreases |todo|
  {
    hide WithVars, WithVar;
    if todo == [] {
      WithVarsOfNone(e.sys.live.env, vars);
    } else {
      var i := Pick(e, |todo|);
      var (e1, ok) := Do(e, SetVar(todo[i], vars[todo[i]]));
      if ok {
        WithVarsStep(e.sys.live.env, vars, todo, i);
        SetUserEnvEffect(e1, vars, todo[..i] + todo[i + 1..]);
      }
    }
  }

  // ----- capture, restore -----

  /** The normal form of a user's settings. */
  function Norm(l: Live): Live {
    Live(NormConn(l.conn), map name | name in l.env && (IsProxyVar(name) ==> l.env[name] != "") :: l.env[name])
  }

  lemma CaptureHolds(user: Live, l: Live)
    requires Same(l, user)
    ensures Holds(user, Capture(l))
  {
  }

  lemma RestoreVarsLookup(p: Saved)
    ensures forall name :: name in RestoreVars(p) <==> IsProxyVar(name)
    ensures forall name <- PROXY_ENV_VARS :: RestoreVars(p)[name] == Lookup(p.env, name)
  {
  }

  /** Restoring a snapshot that holds the user's settings gives exactly their normal form. */
  lemma RestoredEnv(user: Live, vars: Env, env: Env)
    requires SameOutside(env, user.env)
    requires forall name :: name in vars <==> IsProxyVar(name)
    requires forall name <- PROXY_ENV_VARS :: vars[name] == Lookup(user.env, name)
    ensures WithVars(env, vars, PROXY_ENV_VARS) == Norm(user).env
  {
    var left, right := WithVars(env, vars, PROXY_ENV_VARS), Norm(user).env;
    forall name
      ensures name in left <==> name in right
      ensures name in left ==> left[name] == right[name]
    {
      if IsProxyVar(name) {
        assert vars[name] == Lookup(user.env, name);
      } else {
        assert name in env <==> name in user.env;
      }
    }
  }

  lemma NormIsSame(user: Live)
    ensures Same(Norm(user), user)
  {
  }

  lemma RestoreHeld(user: Live, e: Exec, p: Saved)
    requires Held(user, e.sys) && Holds(user, p)
    ensures var (r, ok) := Restore(e, p);
      Held(user, r.sys) && (ok ==> r.alive && r.sys == e.sys.(live := Norm(user)))
  {
    hide SetUserEnv, RestoreVars;
    RestoreVarsLookup(p);
    var (e1, ok) := Do(e, SetConn(NormConn(p.conn)));
    DoHarmless(user, e, SetConn(NormConn(p.conn)));
    if ok {
      RestoreEnvHeld(user, e1, RestoreVars(p));
    }
  }

  lemma RestoreEnvHeld(user: Live, e: Exec, vars: Env)
    requires Held(user, e.sys)
    requires forall name :: name in vars <==> IsProxyVar(name)
    requires forall name <- PROXY_ENV_VARS :: vars[name] == Lookup(user.env, name)
    ensures var (r, ok) := SetUserEnv(e, vars, PROXY_ENV_VARS);
      && Held(user, r.sys)
      && (ok ==> r.alive == e.alive && r.sys == e.sys.(live := Live(e.sys.live.conn, Norm(user).env)))
  {
    SetUserEnvHeld(user, e, vars, PROXY_ENV_VARS);
    SetUserEnvEffect(e, vars, PROXY_ENV_VARS);
    RestoredEnv(user, vars, e.sys.live.env);
  }

  // ----- the two operations -----

  lemma StopWatchdogHeld(user: Live, e: Exec)
    ensures Held(user, e.sys) ==> Held(user, StopWatchdog(e).sys)
    ensures StopWatchdog(e).sys.live == e.sys.live && StopWatchdog(e).sys.snapshot == e.sys.snapshot
  {
  }

  lemma RemoveCrashRestoreFrame(e: Exec)
    ensures RemoveCrashRestore(e).sys.live == e.sys.live
    ensures RemoveCrashRestore(e).sys.snapshot == e.sys.snapshot
  {
  }

  /** Unregistering keeps the snapshot until everything it holds is back in place. */
  lemma UnregisterSafe(user: Live, e: Exec)
    requires SnapshotSafe(user, e.sys)
    ensures SnapshotSafe(user, Unregister(e).0.sys)
    ensures Unregister(e).0.sys.snapshot.None? ==> Same(Unregister(e).0.sys.live, user)
  {
    hide Restore, StopWatchdog, RemoveCrashRestore;
    StopWatchdogHeld(user, e);
    if e.sys.snapshot.Some? {
      var p := e.sys.snapshot.value;
      RestoreHeld(user, StopWatchdog(e), p);
      var (e1, ok) := Restore(StopWatchdog(e), p);
      if ok {
        NormIsSame(user);
        RemoveCrashRestoreFrame(Do(e1, RemoveSnapshot).0);
      }
    }
  }

  /** The safety nets touch neither the settings nor the snapshot. */
  lemma InstallNetsFrame(e: Exec, reg: Registration, text: string)
    ensures InstallNets(e, reg, text).sys.live == e.sys.live
    ensures InstallNets(e, reg, text).sys.snapshot == e.sys.snapshot
  {
    hide Do, StartWatchdog, StopWatchdog;
    DoFrame(e, WriteReg(text));
    DoFrame(Do(e, WriteReg(text)).0, WriteCmd(RESTORE_SCRIPT));
    var e1 := WriteCrashRestoreFiles(e, text);
    DoFrame(e1, if reg.runOnce then InstallRunOnce else RemoveRunOnce);
    WatchdogFrame(SetRunOnce(e1, reg.runOnce));
  }

  lemma DoFrame(e: Exec, a: Action)
    requires !a.SetConn? && !a.SetVar? && !a.SaveSnapshot? && !a.RemoveSnapshot?
    ensures Do(e, a).0.sys.live == e.sys.live
    ensures Do(e, a).0.sys.snapshot == e.sys.snapshot
  {
  }

  lemma WatchdogFrame(e: Exec)
    ensures StartWatchdog(e).sys.live == e.sys.live && StartWatchdog(e).sys.snapshot == e.sys.snapshot
    ensures StopWatchdog(e).sys.live == e.sys.live && StopWatchdog(e).sys.snapshot == e.sys.snapshot
  {
  }

  lemma RegisteredVarsNames(reg: Registration, p: Saved)
    ensures forall name <- PROXY_ENV_VARS :: name in RegisteredVars(reg, p)
  {
  }

  lemma ChangeSettingsHeld(user: Live, e: Exec, reg: Registration, p: Saved)
    requires Held(user, e.sys)
    ensures Held(user, ChangeSettings(e, reg, p).0.sys)
  {
    hide SetUserEnv, RegisteredConn, RegisteredVars, Do, Held;
    var (e1, ok) := Do(e, SetConn(RegisteredConn(reg)));
    DoHarmless(user, e, SetConn(RegisteredConn(reg)));
    RegisteredVarsNames(reg, p);
    SetUserEnvHeld(user, e1, RegisteredVars(reg, p), PROXY_ENV_VARS);
  }

  /** Registering never replaces a snapshot of the user's settings by one of our own. */
  lemma RegisterSafe(user: Live, codec: Codec, e: Exec, reg: Registration)
    requires SnapshotSafe(user, e.sys)
    ensures SnapshotSafe(user, Register(codec, e, reg).0.sys)
    ensures e.sys.snapshot.Some? ==> Register(codec, e, reg).0.sys.snapshot.Some?
  {
    hide InstallNets, ChangeSettings, RestoreFileNow, Capture;
    if e.sys.snapshot.Some? {
      var p := e.sys.snapshot.value;
      var text := RestoreFileNow(codec, e.sys, p);
      InstallNetsFrame(e, reg, text);
      ChangeSettingsHeld(user, InstallNets(e, reg, text), reg, p);
    } else {
      var p := Capture(e.sys.live);
      CaptureHolds(user, e.sys.live);
      var (e1, ok) := Do(e, SaveSnapshot(p));
      if ok {
        var text := RestoreFileNow(codec, e1.sys, p);
        InstallNetsFrame(e1, reg, text);
        ChangeSettingsHeld(user, InstallNets(e1, reg, text), reg, p);
      }
    }
  }
}
