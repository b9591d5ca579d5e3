/** What sequences of registrations come to, and exactly when the restore script can be
    trusted. */
module Registrations {
  import opened Wrappers
  import opened ProxySettings
  import opened RegFile
  import opened ProxySystem
  import opened SnapshotSafety
  import opened CrashSafety

  // ----- history independence -----

  /** Some(reg) registers, None unregisters; one call follows the other without a restart. */
  function Call(codec: Codec, e: Exec, call: Option<Registration>): Exec {
    match call
    case Some(reg) => Register(codec, e, reg).0
    case None => Unregister(e).0
  }

  function Calls(codec: Codec, e: Exec, calls: seq<Option<Registration>>): Exec
    decreases |calls|
  {
    if calls == [] then e else Calls(codec, Call(codec, e, calls[0]), calls[1..])
  }

  /** A registration's settings, from the user's own and the options alone. */
  function RegisteredLive(user: Live, reg: Registration): Live {
    var url := "http://" + reg.addr;
    Live(RegisteredConn(reg),
         if reg.envVars then user.env[HTTP_PROXY := url][HTTPS_PROXY := url][NO_PROXY := NO_PROXY_LIST]
         else Norm(user).env)
  }

  /** Where a call that met no failure leaves the machine. */
  ghost predicate Outcome(user: Live, call: Option<Registration>, s: Sys) {
    match call
    case Some(reg) =>
      && s.live == RegisteredLive(user, reg)
      && s.snapshot.Some? && Holds(user, s.snapshot.value)
      && s.runOnce == reg.runOnce
      && s.watchdogs == (if reg.watchdog then 1 else 0)
    case None =>
      Same(s.live, user) && s.snapshot.None? && !s.runOnce && s.watchdogs == 0
  }

  /** Between calls: no trigger without a snapshot, and the handle knows the watchdog. */
  ghost predicate Steady(user: Live, s: Sys) {
    && SnapshotSafe(user, s)
    && s.watchdogs <= 1 && (s.handle <==> s.watchdogs == 1)
    && (s.snapshot.None? ==> !s.runOnce)
  }

  lemma RegisteredEnv(user: Live, reg: Registration, p: Saved, env: Env)
    requires Holds(user, p) && SameOutside(env, user.env)
    ensures forall name <- PROXY_ENV_VARS :: name in RegisteredVars(reg, p)
    ensures WithVars(env, RegisteredVars(reg, p), PROXY_ENV_VARS) == RegisteredLive(user, reg).env
  {
    if reg.envVars {
      AllVarsSet(user, "http://" + reg.addr, env);
    } else {
      RestoredEnv(user, RegisteredVars(reg, p), env);
    }
  }

  lemma AllVarsSet(user: Live, url: string, env: Env)
    requires SameOutside(env, user.env) && url != ""
    ensures WithVars(env, map[HTTP_PROXY := url, HTTPS_PROXY := url, NO_PROXY := NO_PROXY_LIST], PROXY_ENV_VARS)
         == user.env[HTTP_PROXY := url][HTTPS_PROXY := url][NO_PROXY := NO_PROXY_LIST]
  {
    var vars := map[HTTP_PROXY := url, HTTPS_PROXY := url, NO_PROXY := NO_PROXY_LIST];
    var left := WithVars(env, vars, PROXY_ENV_VARS);
    var right := user.env[HTTP_PROXY := url][HTTPS_PROXY := url][NO_PROXY := NO_PROXY_LIST];
    forall name
      ensures name in left <==> name in right
      ensures name in left ==> left[name] == right[name]
    {
      if !IsProxyVar(name) {
        assert name !in vars;
        assert name in env <==> name in user.env;
      }
    }
  }

  lemma ChangeSettingsResult(user: Live, e: Exec, reg: Registration, p: Saved)
    requires AllOk(e) && Held(user, e.sys) && Holds(user, p)
    ensures var r := ChangeSettings(e, reg, p).0;
      && AllOk(r) && (r.alive ==> e.alive && r.sys == e.sys.(live := RegisteredLive(user, reg)))
  {
    hide SetUserEnv, RegisteredConn, RegisteredVars, RegisteredLive, WithVars;
    var (e1, ok) := Do(e, SetConn(RegisteredConn(reg)));
    DoCrash(e, SetConn(RegisteredConn(reg)));
    RegisteredEnv(user, reg, p, e.sys.live.env);
    if ok {
      SetUserEnvEffect(e1, RegisteredVars(reg, p), PROXY_ENV_VARS);
      SetUserEnvCrash(e1, RegisteredVars(reg, p), PROXY_ENV_VARS);
      LiveParts(user, reg);
    }
  }

  lemma LiveParts(user: Live, reg: Registration)
    ensures RegisteredLive(user, reg).conn == RegisteredConn(reg)
  {
  }

  lemma InstallNetsResult(e: Exec, reg: Registration, text: string)
    requires AllOk(e) && e.sys.watchdogs <= 1 && (e.sys.handle <==> e.sys.watchdogs == 1)
    ensures var r := InstallNets(e, reg, text);
      && AllOk(r)
      && (r.alive ==> e.alive && r.sys == e.sys.(regFile := Some(text), cmdFile := Some(RESTORE_SCRIPT),
            runOnce := reg.runOnce, watchdogs := if reg.watchdog then 1 else 0, handle := reg.watchdog))
  {
    hide Do;
    DoCrash(e, WriteReg(text));
    var (e1, ok1) := Do(e, WriteReg(text));
    DoCrash(e1, WriteCmd(RESTORE_SCRIPT));
    var e2 := WriteCrashRestoreFiles(e, text);
    DoCrash(e2, if reg.runOnce then InstallRunOnce else RemoveRunOnce);
    var e3 := SetRunOnce(e2, reg.runOnce);
    DoCrash(e3, SpawnWatchdog);
    DoCrash(e3, KillWatchdog);
    if !e2.alive {
      DeadNets(e2, reg);
    }
  }

  lemma DeadNets(e: Exec, reg: Registration)
    requires !e.alive
    ensures !SetRunOnce(e, reg.runOnce).alive && !SetWatchdog(SetRunOnce(e, reg.runOnce), reg.watchdog).alive
  {
  }

  /** Registering over anything, even over an earlier registration. */
  lemma RegisterResult(codec: Codec, user: Live, e: Exec, reg: Registration)
    requires AllOk(e) && Steady(user, e.sys)
    ensures var r := Register(codec, e, reg).0;
      && AllOk(r) && (r.alive ==> e.alive && Outcome(user, Some(reg), r.sys) && Steady(user, r.sys))
  {
    hide InstallNets, ChangeSettings, RestoreFileNow, Capture, Same, Holds, RegisteredLive, SameOutside;
    var p := if e.sys.snapshot.Some? then e.sys.snapshot.value else Capture(e.sys.live);
    if e.sys.snapshot.None? {
      CaptureHolds(user, e.sys.live);
      SavedIsHeld(user, e.sys, p);
      DoCrash(e, SaveSnapshot(p));
    }
    var e1 := if e.sys.snapshot.Some? then e else Do(e, SaveSnapshot(p)).0;
    if e1.sys.snapshot.Some? {
      var text := RestoreFileNow(codec, e1.sys, p);
      InstallNetsResult(e1, reg, text);
      InstallNetsFrame(e1, reg, text);
      var e2 := InstallNets(e1, reg, text);
      SafeFrame(user, e1.sys, e2.sys);
      ChangeSettingsResult(user, e2, reg, p);
      ChangeSettingsHeld(user, e2, reg, p);
    }
  }

  lemma RemoveCrashRestoreResult(e: Exec)
    requires AllOk(e)
    ensures var r := RemoveCrashRestore(e);
      && AllOk(r) && (r.alive ==> e.alive && r.sys == e.sys.(runOnce := false, cmdFile := None, regFile := None))
  {
  }

  lemma UnregisterResult(user: Live, e: Exec)
    requires AllOk(e) && Steady(user, e.sys)
    ensures var r := Unregister(e).0;
      && AllOk(r) && (r.alive ==> e.alive && Outcome(user, None, r.sys) && Steady(user, r.sys))
  {
    hide Restore, RemoveCrashRestore, Same, Holds, Norm, SameOutside;
    var e0 := StopWatchdog(e);
    StopWatchdogHeld(user, e);
    if e.sys.snapshot.Some? {
      var p := e.sys.snapshot.value;
      RestoreHeld(user, e0, p);
      RestoreFrame(e0, p);
      NormIsSame(user);
      var (e1, ok) := Restore(e0, p);
      RemoveCrashRestoreResult(Do(e1, RemoveSnapshot).0);
    }
  }

  /** A dead process does nothing more. */
  lemma {:induction false} CallsDead(codec: Codec, e: Exec, calls: seq<Option<Registration>>)
    requires !e.alive
    ensures !Calls(codec, e, calls).alive
    decreases |calls|
  {
    hide Register, Unregister;
    if calls != [] {
      CallDead(codec, e, calls[0]);
      CallsDead(codec, Call(codec, e, calls[0]), calls[1..]);
    }
  }

  lemma CallDead(codec: Codec, e: Exec, call: Option<Registration>)
    requires !e.alive
    ensures !Call(codec, e, call).alive
  {
    hide SetUserEnv, RestoreFileNow, Capture, RestoreVars, RegisteredVars, RegisteredConn, NormConn;
  }

  /** History independence: after any sequence of calls that met no failure, the settings are
      a function of the user's own and the last call's options, the snapshot still holds the
      user's, and RunOnce entry and watchdog are there exactly when the last options ask. */
  lemma {:induction false} HistoryIndependence(codec: Codec, user: Live, e: Exec, calls: seq<Option<Registration>>)
    requires AllOk(e) && Steady(user, e.sys) && calls != []
    ensures var r := Calls(codec, e, calls); r.alive ==> Outcome(user, calls[|calls| - 1], r.sys)
    decreases |calls|
  {
    hide Register, Unregister, Outcome, Steady;
    if e.alive {
      var e1 := Call(codec, e, calls[0]);
      match calls[0] {
        case Some(reg) => RegisterResult(codec, user, e, reg);
        case None => UnregisterResult(user, e);
      }
      if |calls| == 1 {
        assert calls[1..] == [];
      } else if e1.alive {
        HistoryIndependence(codec, user, e1, calls[1..]);
      } else {
        CallsDead(codec, e1, calls[1..]);
      }
    } else {
      CallsDead(codec, e, calls);
    }
  }

  // ----- the two ways back -----

  /** What restoring a snapshot makes of any settings. */
  function Restored(p: Saved, l: Live): Live {
    RestoreVarsLookup(p);
    Live(NormConn(p.conn), WithVars(l.env, RestoreVars(p), PROXY_ENV_VARS))
  }

  lemma RestoreGivesRestored(e: Exec, p: Saved)
    requires Restore(e, p).1
    ensures Restore(e, p).0.sys.live == Restored(p, e.sys.live)
  {
    hide SetUserEnv, RestoreVars, WithVars;
    RestoreVarsLookup(p);
    SetUserEnvEffect(Do(e, SetConn(NormConn(p.conn))).0, RestoreVars(p), PROXY_ENV_VARS);
  }

  lemma ImportVar(codec: Codec, l: Live, name: string, val: string)
    ensures ImportEntry(codec, l, Entry(KEY_ENVIRONMENT, name, StringValue(val))).env == WithVar(l.env, name, val)
  {
  }

  lemma ImportOther(codec: Codec, l: Live, en: Entry)
    requires en.key != KEY_ENVIRONMENT
    ensures ImportEntry(codec, l, en).env == l.env
  {
  }

  /** The three variables set one after the other. */
  function OneByOne(env: Env, p: Saved): Env {
    WithVar(WithVar(WithVar(env, HTTP_PROXY, Lookup(p.env, HTTP_PROXY)), HTTPS_PROXY, Lookup(p.env, HTTPS_PROXY)),
            NO_PROXY, Lookup(p.env, NO_PROXY))
  }

  lemma ImportedEnv(codec: Codec, p: Saved, bytes: seq<byte>, l: Live)
    ensures Import(codec, l, RestoreEntries(p, Some(bytes)), 8).env == OneByOne(l.env, p)
  {
    hide WithVar, StringValue, ImportEntry, EnableBit, Lookup;
    KeysDiffer();
    var es := RestoreEntries(p, Some(bytes));
    var l5 := Import(codec, l, es, 5);
    assert l5.env == l.env by {
      ImportOther(codec, Import(codec, l, es, 0), es[0]);
      ImportOther(codec, Import(codec, l, es, 1), es[1]);
      ImportOther(codec, Import(codec, l, es, 2), es[2]);
      ImportOther(codec, Import(codec, l, es, 3), es[3]);
      ImportOther(codec, Import(codec, l, es, 4), es[4]);
    }
    ImportVar(codec, l5, HTTP_PROXY, Lookup(p.env, HTTP_PROXY));
    ImportVar(codec, Import(codec, l, es, 6), HTTPS_PROXY, Lookup(p.env, HTTPS_PROXY));
    ImportVar(codec, Import(codec, l, es, 7), NO_PROXY, Lookup(p.env, NO_PROXY));
  }

  lemma RestoredEnvByVariable(p: Saved, l: Live)
    ensures Restored(p, l).env == OneByOne(l.env, p)
  {
    hide WithVar, RestoreVars, WithVars, Lookup;
    RestoreVarsLookup(p);
    SetInOrder(l.env, RestoreVars(p));
  }

  lemma SetInOrder(env: Env, vars: Env)
    requires forall name <- PROXY_ENV_VARS :: name in vars
    ensures WithVars(env, vars, PROXY_ENV_VARS)
         == WithVar(WithVar(WithVar(env, HTTP_PROXY, vars[HTTP_PROXY]), HTTPS_PROXY, vars[HTTPS_PROXY]),
                    NO_PROXY, vars[NO_PROXY])
  {
    hide WithVar, WithVars;
    var env1 := WithVar(env, HTTP_PROXY, vars[HTTP_PROXY]);
    var env2 := WithVar(env1, HTTPS_PROXY, vars[HTTPS_PROXY]);
    var env3 := WithVar(env2, NO_PROXY, vars[NO_PROXY]);
    WithVarsStep(env, vars, PROXY_ENV_VARS, 0);
    assert PROXY_ENV_VARS[..0] + PROXY_ENV_VARS[1..] == [HTTPS_PROXY, NO_PROXY];
    WithVarsStep(env1, vars, [HTTPS_PROXY, NO_PROXY], 0);
    assert [HTTPS_PROXY, NO_PROXY][..0] + [HTTPS_PROXY, NO_PROXY][1..] == [NO_PROXY];
    WithVarsStep(env2, vars, [NO_PROXY], 0);
    assert [NO_PROXY][..0] + [NO_PROXY][1..] == [];
    WithVarsOfNone(env3, vars);
  }

  /** The program's restore and the script's import reach the same settings, whatever is there
      before, exactly if the saved flags are not 0: the .reg file keeps flags 0 as they are. */
  lemma RestorePathsAgree(codec: Codec, p: Saved, l: Live)
    requires Lawful(codec)
    ensures var text := RestoreText(p, Some(codec.encode(p.conn)));
      && ParseReg(text).Some? && |ParseReg(text).value| == 8
      && (Import(codec, l, ParseReg(text).value, 8) == Restored(p, l) <==> p.conn.flags != 0)
  {
    hide RestoreText, RestoreEntries, ParseReg, Import, Restored, WithVar;
    var bytes := codec.encode(p.conn);
    RestoreTextRoundTrip(p, Some(bytes));
    EightEntries(p, bytes);
    ImportedConn(codec, p, bytes, l);
    ImportedEnv(codec, p, bytes, l);
    RestoredEnvByVariable(p, l);
    RestoredConn(p, l);
  }

  lemma RestoredConn(p: Saved, l: Live)
    ensures Restored(p, l).conn == NormConn(p.conn)
  {
  }

  // ----- when the script can be trusted -----

  lemma ImportedConn(codec: Codec, p: Saved, bytes: seq<byte>, l: Live)
    ensures Import(codec, l, RestoreEntries(p, Some(bytes)), 8).conn == codec.decode(bytes)
  {
    KeysDiffer();
    var es := RestoreEntries(p, Some(bytes));
    assert IsBlob(es[4]);
    assert Import(codec, l, es, 5).conn == codec.decode(bytes);
    assert Import(codec, l, es, 6).conn == Import(codec, l, es, 5).conn;
    assert Import(codec, l, es, 7).conn == Import(codec, l, es, 6).conn;
  }

  lemma EightEntries(p: Saved, bytes: seq<byte>)
    ensures |RestoreEntries(p, Some(bytes))| == 8
  {
  }

  lemma GoodIntro(codec: Codec, text: string, user: Live, p: Saved, c: Conn)
    requires GoodWith(codec, text, user, p, c)
    ensures Good(codec, text, user)
  {
  }

  lemma RegisterFiles(codec: Codec, user: Live, e: Exec, reg: Registration)
    requires AllOk(e) && Steady(user, e.sys) && e.sys.snapshot.Some?
    requires Register(codec, e, reg).0.alive
    ensures var s := Register(codec, e, reg).0.sys;
      && s.regFile == Some(RestoreText(e.sys.snapshot.value, Some(codec.encode(e.sys.live.conn))))
      && s.cmdFile == Some(RESTORE_SCRIPT)
      && s.runOnce == reg.runOnce
  {
    hide InstallNets, ChangeSettings, RestoreText;
    var p := e.sys.snapshot.value;
    var text := RestoreFileNow(codec, e.sys, p);
    InstallNetsResult(e, reg, text);
    ChangeSettingsFrame(InstallNets(e, reg, text), reg, p);
    if !InstallNets(e, reg, text).alive {
      StaysDead(InstallNets(e, reg, text), reg, p);
    }
  }

  /** The restore file carries the connection settings of the moment it is written. So after a
      register the script restores the user exactly if those were the user's at the time;
      either way it deletes the snapshot. Registering over an unfinished restore, as main does
      when its first unregister fails, breaks this; ApplyOutbound never does. */
  lemma ScriptTrustedIff(codec: Codec, user: Live, e: Exec, reg: Registration)
    requires Lawful(codec) && AllOk(e) && Steady(user, e.sys) && Held(user, e.sys)
    requires Register(codec, e, reg).0.alive
    ensures var r := RunWhole(codec, Register(codec, e, reg).0.sys);
      r.snapshot.None? && (Same(r.live, user) <==> NormConn(e.sys.live.conn) == NormConn(user.conn))
  {
    hide Register, RestoreText, RestoreEntries, ParseReg, Import, Holds, NormConn, SameEnv, SameOutside, Good;
    var p := e.sys.snapshot.value;
    var bytes := codec.encode(e.sys.live.conn);
    var s := Register(codec, e, reg).0.sys;
    RegisterFiles(codec, user, e, reg);
    RestoreTextRoundTrip(p, Some(bytes));
    ScriptOutcome(codec, s, CutAfter(|RegEntries(s)| + |RESTORE_SCRIPT|));
    EightEntries(p, bytes);
    ImportedConn(codec, p, bytes, s.live);
    if NormConn(e.sys.live.conn) == NormConn(user.conn) {
      assert GoodWith(codec, s.regFile.value, user, p, e.sys.live.conn);
      GoodIntro(codec, s.regFile.value, user, p, e.sys.live.conn);
      RegisterSafe(user, codec, e, reg);
      OutsideSame(user, s);
      ImportGood(codec, user, s, |RegEntries(s)|);
    }
  }

  lemma RegisterCompletes(codec: Codec, e: Exec, reg: Registration)
    requires AllOk(e) && e.alive && |e.fates| >= 9
    ensures Register(codec, e, reg).0.alive
  {
    hide SetUserEnv, RestoreFileNow, Capture, RegisteredVars, RegisteredConn;
    var p := if e.sys.snapshot.Some? then e.sys.snapshot.value else Capture(e.sys.live);
    var e1 := if e.sys.snapshot.Some? then e else Do(e, SaveSnapshot(p)).0;
    var e2 := InstallNets(e1, reg, RestoreFileNow(codec, e1.sys, p));
    assert e2.alive && AllOk(e2) && |e2.fates| >= 4;
    var e3 := Do(e2, SetConn(RegisteredConn(reg))).0;
    RegisteredVarsNames(reg, p);
    SetUserEnvFates(e3, RegisteredVars(reg, p), PROXY_ENV_VARS);
  }

  /** The counterexample: a profile switch whose restore fails at its first settings write
      registers again all the same. The script then restores our own proxy and deletes the
      snapshot, so the user's settings are gone. */
  lemma FailedRestoreThenRegisterLosesSettings(codec: Codec, user: Live, s: Sys, reg: Registration, fates: seq<Fate>)
    requires Lawful(codec) && Steady(user, s) && Outcome(user, Some(reg), s)
    requires reg.watchdog && NormConn(RegisteredConn(reg)) != NormConn(user.conn)
    requires NoFailures(fates) && |fates| >= 9
    ensures var kill, refuse := Fate(true, 0), Fate(false, 0);
      var (e, ok) := Unregister(Exec(s, [kill, refuse] + fates, true));
      var r := Register(codec, e, reg).0;
      !ok && r.alive && RunWhole(codec, r.sys).snapshot.None? && !Same(RunWhole(codec, r.sys).live, user)
  {
    hide Register, Same, RunWhole, NormConn;
    var kill, refuse := Fate(true, 0), Fate(false, 0);
    var e0 := Exec(s, [kill, refuse] + fates, true);
    var e := Unregister(e0).0;
    var t := s.(watchdogs := 0, handle := false);
    FailedUnregister(s, fates);
    assert e == Exec(t, fates, true);
    assert Steady(user, t) && Held(user, t) by {
      SafeFrame(user, s, t);
      RegisteredIsHeld(user, s, reg);
    }
    RegisterCompletes(codec, e, reg);
    ScriptTrustedIff(codec, user, e, reg);
  }

  lemma RegisteredIsHeld(user: Live, s: Sys, reg: Registration)
    requires Steady(user, s) && Outcome(user, Some(reg), s)
    ensures Held(user, s)
  {
  }

  lemma FailedUnregister(s: Sys, fates: seq<Fate>)
    requires s.handle && s.watchdogs == 1 && s.snapshot.Some?
    ensures Unregister(Exec(s, [Fate(true, 0), Fate(false, 0)] + fates, true))
         == (Exec(s.(watchdogs := 0, handle := false), fates, true), false)
  {
    var all := [Fate(true, 0), Fate(false, 0)] + fates;
    assert all[1..] == [Fate(false, 0)] + fates;
    assert all[1..][1..] == fates;
  }

  /** unregister kills the watchdog before it restores. Whatever fails after that and wherever it dies,
      while the settings are not back the snapshot and both files are as they were, and something armed
      is left to run the script exactly if a RunOnce entry was asked for, or a watchdog whose kill is
      not reached or fails. */
  lemma UnregisterExposure(codec: Codec, user: Live, e: Exec, reg: Registration)
    requires e.alive && Armed(codec, user, reg, e.sys)
    requires !Same(Unregister(e).0.sys.live, user)
    ensures var s := Unregister(e).0.sys;
      && s.snapshot == e.sys.snapshot && s.regFile == e.sys.regFile && s.cmdFile == e.sys.cmdFile
      && s.runOnce == reg.runOnce
      && s.watchdogs == (if reg.watchdog && (e.fates == [] || !e.fates[0].ok) then 1 else 0)
  {
    hide Good, Same, Restore, RemoveCrashRestore, Holds, Norm, SameOutside;
    var p := e.sys.snapshot.value;
    var e0 := StopWatchdog(e);
    StopWatchdogHeld(user, e);
    RestoreHeld(user, e0, p);
    RestoreFiles(e0, p);
    NormIsSame(user);
    if Restore(e0, p).1 {
      RemoveCrashRestoreFrame(Do(Restore(e0, p).0, RemoveSnapshot).0);
    }
  }

  /** Restoring changes the live settings only. */
  lemma RestoreFiles(e: Exec, p: Saved)
    ensures var r := Restore(e, p).0; r.sys == e.sys.(live := r.sys.live)
  {
    hide SetUserEnv, RestoreVars, NormConn;
    RestoreVarsLookup(p);
    SetUserEnvEffect(Do(e, SetConn(NormConn(p.conn))).0, RestoreVars(p), PROXY_ENV_VARS);
  }

  /** The run that shows it: a registration with the watchdog as its only net, and an unregister that
      dies once it has killed the watchdog. Nothing armed is left, and the settings are ours. */
  lemma UnregisterDeathLeavesNoNet(codec: Codec, user: Live, reg: Registration)
    requires reg.watchdog && !reg.runOnce && NormConn(RegisteredConn(reg)) != NormConn(user.conn)
    ensures var p := Capture(user);
      var text := RestoreText(p, Some(codec.encode(user.conn)));
      var live := Live(RegisteredConn(reg), user.env);
      var s := Sys(live, Some(p), None, Some(text), Some(RESTORE_SCRIPT), false, 1, true);
      var r := Unregister(Exec(s, [Fate(true, 0)], true)).0;
      && Recoverable(codec, user, s) && Armed(codec, user, reg, s)
      && !r.alive && !Same(r.sys.live, user) && !r.sys.runOnce && r.sys.watchdogs == 0
  {
    hide RegisteredConn, RestoreText, Capture, NormConn, RestoreVars, Good, Holds, SameEnv, SameOutside, Unregister;
    var p := Capture(user);
    var text := RestoreText(p, Some(codec.encode(user.conn)));
    var live := Live(RegisteredConn(reg), user.env);
    var s := Sys(live, Some(p), None, Some(text), Some(RESTORE_SCRIPT), false, 1, true);
    assert Same(user, user) && SameOutside(user.env, user.env) by {
      OneselfIsSame(user);
    }
    CaptureHolds(user, user);
    GoodIntro(codec, text, user, p, user.conn);
    DiesAfterKill(s);
  }

  lemma OneselfIsSame(user: Live)
    ensures Same(user, user) && SameOutside(user.env, user.env)
  {
  }

  lemma DiesAfterKill(s: Sys)
    requires s.handle && s.watchdogs == 1 && s.snapshot.Some?
    ensures Unregister(Exec(s, [Fate(true, 0)], true))
         == (Exec(s.(watchdogs := 0, handle := false), [], false), false)
  {
    assert [Fate(true, 0)][1..] == [];
  }

  /** A script whose .reg file is missing changes no setting and deletes the snapshot, so it
      loses the user's settings exactly if they are not in place. */
  lemma ScriptWithoutFile(codec: Codec, user: Live, s: Sys)
    requires s.cmdFile == Some(RESTORE_SCRIPT) && s.regFile.None?
    ensures var r := RunWhole(codec, s);
      r.snapshot.None? && (Same(r.live, user) <==> Same(s.live, user))
  {
    hide Same;
    ScriptOutcome(codec, s, CutAfter(|RegEntries(s)| + |RESTORE_SCRIPT|));
  }

  lemma SetWatchdogArms(e: Exec, on: bool)
    requires AllOk(e) && e.alive && e.fates != [] && (e.sys.handle ==> e.sys.watchdogs > 0)
    ensures var r := SetWatchdog(e, on);
      && AllOk(r) && r.alive && |r.fates| >= |e.fates| - 1
      && r.sys == e.sys.(watchdogs := r.sys.watchdogs, handle := r.sys.handle)
      && (on ==> r.sys.watchdogs > 0)
  {
  }

  lemma ChangeSettingsDone(e: Exec, reg: Registration, p: Saved)
    requires AllOk(e) && e.alive && |e.fates| >= 4
    ensures var r := ChangeSettings(e, reg, p).0;
      r.alive && r.sys == e.sys.(live := r.sys.live) && r.sys.live.conn == RegisteredConn(reg)
  {
    hide SetUserEnv, RegisteredVars, RegisteredConn;
    var e1 := Do(e, SetConn(RegisteredConn(reg))).0;
    RegisteredVarsNames(reg, p);
    SetUserEnvFates(e1, RegisteredVars(reg, p), PROXY_ENV_VARS);
    SetUserEnvEffect(e1, RegisteredVars(reg, p), PROXY_ENV_VARS);
  }

  /** What a register puts in place once it has written its files, or failed to. */
  lemma ArmedAfterFiles(e: Exec, reg: Registration, p: Saved)
    requires AllOk(e) && e.alive && |e.fates| >= 6 && (e.sys.handle ==> e.sys.watchdogs > 0)
    requires reg.runOnce || reg.watchdog
    ensures var r := ChangeSettings(SetWatchdog(SetRunOnce(e, reg.runOnce), reg.watchdog), reg, p).0;
      && r.alive && r.sys.runOnce == reg.runOnce && (reg.watchdog ==> r.sys.watchdogs > 0)
      && r.sys.regFile == e.sys.regFile && r.sys.cmdFile == e.sys.cmdFile
      && r.sys.live.conn == RegisteredConn(reg)
  {
    hide SetWatchdog, ChangeSettings, RegisteredConn;
    var e1 := SetRunOnce(e, reg.runOnce);
    SetWatchdogArms(e1, reg.watchdog);
    ChangeSettingsDone(SetWatchdog(e1, reg.watchdog), reg, p);
  }

  /** Such a state arises where a script is cut between its last two deletions and leaves itself
      behind. A register that then fails to write the .reg file, and meets no other failure, still
      arms the script, which deletes the snapshot and leaves our settings. */
  lemma FailedRestoreFileWriteLosesSettings(codec: Codec, user: Live, s: Sys, reg: Registration, fates: seq<Fate>)
    requires s.cmdFile == Some(RESTORE_SCRIPT) && s.regFile.None? && (s.handle ==> s.watchdogs > 0)
    requires (reg.runOnce || reg.watchdog) && NormConn(RegisteredConn(reg)) != NormConn(user.conn)
    requires NoFailures(fates) && |fates| >= 6
    ensures var r := Register(codec, Exec(s, RefuseFile(s) + fates, true), reg).0;
      && r.alive && r.sys.cmdFile.Some? && r.sys.runOnce == reg.runOnce && (reg.watchdog ==> r.sys.watchdogs > 0)
      && RunWhole(codec, r.sys).snapshot.None? && !Same(RunWhole(codec, r.sys).live, user)
  {
    hide Register, RegisteredConn, NormConn, RunWhole, ChangeSettings, SetRunOnce, SetWatchdog, Capture;
    AfterRefusedFile(codec, s, reg, fates);
    ArmedAfterFiles(Exec(Kept(s).0, fates, true), reg, Kept(s).1);
    ScriptWithoutFile(codec, user, Register(codec, Exec(s, RefuseFile(s) + fates, true), reg).0.sys);
  }

  /** The machine once a register has its snapshot, and the snapshot. */
  function Kept(s: Sys): (Sys, Saved) {
    match s.snapshot
    case Some(p) => (s, p)
    case None => (Apply(SaveSnapshot(Capture(s.live)), s), Capture(s.live))
  }

  /** Fates with which a register fails first at its .reg file. */
  function RefuseFile(s: Sys): seq<Fate> {
    (if s.snapshot.None? then [Fate(true, 0)] else []) + [Fate(false, 0)]
  }

  lemma AfterRefusedFile(codec: Codec, s: Sys, reg: Registration, fates: seq<Fate>)
    ensures Register(codec, Exec(s, RefuseFile(s) + fates, true), reg).0 ==
      ChangeSettings(SetWatchdog(SetRunOnce(Exec(Kept(s).0, fates, true), reg.runOnce), reg.watchdog), reg, Kept(s).1).0
  {
    hide ChangeSettings, SetRunOnce, SetWatchdog, Capture, RestoreFileNow;
    var all := RefuseFile(s) + fates;
    var e1 := Exec(Kept(s).0, [Fate(false, 0)] + fates, true);
    if s.snapshot.None? {
      assert all[1..] == [Fate(false, 0)] + fates;
      assert Do(Exec(s, all, true), SaveSnapshot(Capture(s.live))) == (e1, true);
    } else {
      assert Exec(s, all, true) == e1;
    }
    assert e1.fates[1..] == fates;
    assert WriteCrashRestoreFiles(e1, RestoreFileNow(codec, e1.sys, Kept(s).1)) == Exec(e1.sys, fates, true);
  }

  /** How many watchdogs a register with these options may stop. */
  function Stopped(s: Sys, reg: Registration): nat {
    if s.handle && !reg.watchdog then 1 else 0
  }

  /** Fates with which a register puts no new net in place and withdraws the ones it can. */
  function RefuseNets(s: Sys, reg: Registration): seq<Fate> {
    RefuseFile(s) + ([Fate(!reg.runOnce, 0)] + (if s.handle == reg.watchdog then [] else [Fate(!reg.watchdog, 0)]))
  }

  /** The worst a register can meet and still change the settings: just the nets are left that were
      there before and that it cannot withdraw. */
  lemma BareRegister(codec: Codec, s: Sys, reg: Registration, fates: seq<Fate>)
    requires NoFailures(fates) && |fates| >= 4 && (s.handle ==> s.watchdogs > 0)
    ensures var r := Register(codec, Exec(s, RefuseNets(s, reg) + fates, true), reg).0;
      && r.alive && r.sys.live.conn == RegisteredConn(reg)
      && r.sys.regFile == s.regFile && r.sys.cmdFile == s.cmdFile
      && r.sys.runOnce == (s.runOnce && reg.runOnce) && r.sys.watchdogs == s.watchdogs - Stopped(s, reg)
  {
    hide Register, RegisteredConn, ChangeSettings, Capture, SetRunOnce, SetWatchdog;
    var f1 := (if s.handle == reg.watchdog then [] else [Fate(!reg.watchdog, 0)]) + fates;
    var f0 := [Fate(!reg.runOnce, 0)] + f1;
    assert RefuseNets(s, reg) + fates == RefuseFile(s) + f0;
    AfterRefusedFile(codec, s, reg, f0);
    var k := Kept(s).0;
    RefusedRunOnce(k, reg, f1);
    var e1 := SetRunOnce(Exec(k, f0, true), reg.runOnce);
    ShortOfWatchdog(e1, reg, fates);
    ChangeSettingsDone(SetWatchdog(e1, reg.watchdog), reg, Kept(s).1);
  }

  lemma RefusedRunOnce(s: Sys, reg: Registration, fates: seq<Fate>)
    ensures SetRunOnce(Exec(s, [Fate(!reg.runOnce, 0)] + fates, true), reg.runOnce)
         == Exec(s.(runOnce := s.runOnce && reg.runOnce), fates, true)
  {
    assert ([Fate(!reg.runOnce, 0)] + fates)[1..] == fates;
  }

  lemma ShortOfWatchdog(e: Exec, reg: Registration, fates: seq<Fate>)
    requires e.alive && (e.sys.handle ==> e.sys.watchdogs > 0)
    requires e.fates == (if e.sys.handle == reg.watchdog then [] else [Fate(!reg.watchdog, 0)]) + fates
    ensures var r := SetWatchdog(e, reg.watchdog);
      && r.alive && r.fates == fates
      && r.sys == e.sys.(watchdogs := e.sys.watchdogs - Stopped(e.sys, reg), handle := e.sys.handle && reg.watchdog)
  {
    assert e.sys.handle != reg.watchdog ==> e.fates[1..] == fates;
    assert e.sys.handle == reg.watchdog ==> e.fates == fates;
  }

  /** A register that meets no failure arms a script with the connection settings of its start. */
  lemma RegisterArms(codec: Codec, e: Exec, reg: Registration)
    requires AllOk(e) && e.alive && |e.fates| >= 9 && (e.sys.handle ==> e.sys.watchdogs > 0)
    requires e.sys.snapshot.Some? && (reg.runOnce || reg.watchdog)
    ensures var s := Register(codec, e, reg).0.sys;
      && s.regFile == Some(RestoreText(e.sys.snapshot.value, Some(codec.encode(e.sys.live.conn))))
      && s.cmdFile == Some(RESTORE_SCRIPT) && s.runOnce == reg.runOnce && (reg.watchdog ==> s.watchdogs > 0)
  {
    hide SetRunOnce, SetWatchdog, ChangeSettings, RestoreText, RegisteredConn;
    var p := e.sys.snapshot.value;
    var f := WriteCrashRestoreFiles(e, RestoreFileNow(codec, e.sys, p));
    ArmedAfterFiles(f, reg, p);
  }

  /** An import that fails at once, unnoticed: the script changes no setting and deletes the snapshot. */
  lemma FailedImportLosesSettings(codec: Codec, user: Live, s: Sys)
    requires s.cmdFile == Some(RESTORE_SCRIPT) && !Same(s.live, user)
    ensures var r := RunScript(codec, s, ScriptRun(|RESTORE_SCRIPT|, Some(0), {}));
      r.snapshot.None? && r.live == s.live && !Same(r.live, user)
  {
    hide Same;
    ScriptOutcome(codec, s, ScriptRun(|RESTORE_SCRIPT|, Some(0), {}));
  }

  // ----- the restore file of another machine -----

  /** A register leaves another machine's restore file alone exactly if its own snapshot cannot be
      written; saving one writes over it. */
  lemma RegisterKeepsForeignIff(codec: Codec, e: Exec, reg: Registration)
    requires e.alive && e.sys.snapshot.None? && e.sys.foreign.Some?
    ensures Register(codec, e, reg).0.sys.foreign == e.sys.foreign <==> e.fates == [] || !e.fates[0].ok
    ensures Register(codec, e, reg).0.sys.foreign.Some? ==> !Register(codec, e, reg).1
  {
    hide InstallNets, ChangeSettings, RestoreFileNow, Capture;
    var p := Capture(e.sys.live);
    var (e1, ok) := Do(e, SaveSnapshot(p));
    if ok {
      var text := RestoreFileNow(codec, e1.sys, p);
      NetsKeepForeign(e1, reg, text);
      ChangeSettingsFrame(InstallNets(e1, reg, text), reg, p);
    }
  }

  lemma NetsKeepForeign(e: Exec, reg: Registration, text: string)
    ensures InstallNets(e, reg, text).sys.foreign == e.sys.foreign
  {
    hide Do, SetWatchdog;
    DoKeepsForeign(e, WriteReg(text));
    DoKeepsForeign(Do(e, WriteReg(text)).0, WriteCmd(RESTORE_SCRIPT));
    var f := WriteCrashRestoreFiles(e, text);
    DoKeepsForeign(f, if reg.runOnce then InstallRunOnce else RemoveRunOnce);
    WatchdogKeepsForeign(SetRunOnce(f, reg.runOnce), reg.watchdog);
  }

  lemma DoKeepsForeign(e: Exec, a: Action)
    requires !a.SaveSnapshot? && !a.RemoveSnapshot?
    ensures Do(e, a).0.sys.foreign == e.sys.foreign
  {
  }

  lemma WatchdogKeepsForeign(e: Exec, on: bool)
    ensures SetWatchdog(e, on).sys.foreign == e.sys.foreign
  {
  }

  /** The run that shows it: a register that meets no failure, on a machine that never registered. */
  lemma ForeignSnapshotIsOverwritten(codec: Codec, user: Live, other: Saved, reg: Registration)
    ensures var s := Sys(user, None, Some(other), None, None, false, 0, false);
      var r := Register(codec, Exec(s, [Fate(true, 0)], true), reg).0;
      r.sys.foreign.None? && r.sys.snapshot.Some?
  {
    hide InstallNets, ChangeSettings, RestoreFileNow, Capture;
    var s := Sys(user, None, Some(other), None, None, false, 0, false);
    var e := Exec(s, [Fate(true, 0)], true);
    RegisterKeepsForeignIff(codec, e, reg);
    var p := Capture(user);
    var e1 := Do(e, SaveSnapshot(p)).0;
    var text := RestoreFileNow(codec, e1.sys, p);
    InstallNetsFrame(e1, reg, text);
    NetsKeepForeign(e1, reg, text);
    ChangeSettingsFrame(InstallNets(e1, reg, text), reg, p);
  }

  /** Unregistering never touches it. */
  lemma UnregisterKeepsForeign(e: Exec)
    requires e.sys.snapshot.None?
    ensures Unregister(e).0.sys.foreign == e.sys.foreign && Unregister(e).0.sys.live == e.sys.live
    ensures Unregister(e).1
  {
  }
}
