/** The order of the writes in each operation, and what its result reports, under any failures. */
module OperationSteps {
  import opened Wrappers
  import opened ProxySettings
  import opened RegFile
  import opened ProxySystem
  import opened SnapshotSafety
  import opened CrashSafety
  import opened Registrations
  import opened TrustedScripts

  // ----- the variables -----

  /** A loop over variables succeeds by writing each of them; it ends at the first failure. `before` are
      the fates it finds, `after` those it leaves. */
  ghost predicate StopsAtFailure(before: seq<Fate>, after: seq<Fate>, ok: bool, alive: bool, todo: nat) {
    var n := |before| - |after|;
    && 0 <= n && after == before[n..]
    && (ok ==> n == todo && forall j :: 0 <= j < n ==> before[j].ok)
    && (!ok && alive ==> 0 < n <= todo && !before[n - 1].ok && forall j :: 0 <= j < n - 1 ==> before[j].ok)
  }

  lemma AfterSuccess(before: seq<Fate>, after: seq<Fate>, ok: bool, alive: bool, todo: nat)
    requires before != [] && before[0].ok && StopsAtFailure(before[1..], after, ok, alive, todo)
    ensures StopsAtFailure(before, after, ok, alive, todo + 1)
  {
    assert forall j :: 0 <= j < |before| - 1 ==> before[1..][j] == before[j + 1];
  }

  lemma {:induction false} SetUserEnvStopsAtFailure(e: Exec, vars: Env, todo: seq<string>)
    requires e.alive && forall name <- todo :: name in vars
    ensures var (r, ok) := SetUserEnv(e, vars, todo); StopsAtFailure(e.fates, r.fates, ok, r.alive, |todo|)
    decreases |todo|
  {
    hide WithVar;
    if todo == [] {
      assert e.fates[0..] == e.fates;
    } else {
      var i := Pick(e, |todo|);
      var (e1, ok1) := Do(e, SetVar(todo[i], vars[todo[i]]));
      if ok1 {
        var rest := todo[..i] + todo[i + 1..];
        SetUserEnvStopsAtFailure(e1, vars, rest);
        var (r, ok) := SetUserEnv(e1, vars, rest);
        hide StopsAtFailure;
        AfterSuccess(e.fates, r.fates, ok, r.alive, |rest|);
      }
    }
  }

  // ----- the watchdog -----

  /** A watchdog that is known is not started again; stopping forgets it whether or not it was killed. */
  lemma WatchdogHandle(e: Exec)
    ensures e.sys.handle ==> StartWatchdog(e) == e
    ensures StopWatchdog(e).alive ==> !StopWatchdog(e).sys.handle
    ensures var s := StopWatchdog(e).sys; s == e.sys.(watchdogs := s.watchdogs, handle := s.handle)
  {
  }

  // ----- restoring and cleaning up -----

  /** The connection comes first: no variable changes unless it is back. */
  lemma RestoreOrder(e: Exec, p: Saved)
    ensures var r := Restore(e, p).0; r.sys.live.env != e.sys.live.env ==> r.sys.live.conn == NormConn(p.conn)
  {
    hide SetUserEnv, RestoreVars, NormConn, WithVars, Do;
    RestoreVarsLookup(p);
    var (e1, ok) := Do(e, SetConn(NormConn(p.conn)));
    DoSetsConn(e, NormConn(p.conn));
    if ok {
      SetUserEnvEffect(e1, RestoreVars(p), PROXY_ENV_VARS);
    }
  }

  lemma DoSetsConn(e: Exec, c: Conn)
    ensures var (r, ok) := Do(e, SetConn(c));
      r.sys == if ok then e.sys.(live := e.sys.live.(conn := c)) else e.sys
  {
  }

  /** The RunOnce entry goes before the script it runs, and the script before the file it imports. */
  lemma RemoveCrashRestoreOrder(e: Exec)
    ensures var s := RemoveCrashRestore(e).sys;
      && (e.sys.cmdFile.Some? && s.cmdFile.None? ==> !s.runOnce)
      && (e.sys.regFile.Some? && s.regFile.None? ==> s.cmdFile.None?)
  {
  }

  /** Only failing to restore is an error; and then snapshot, files and RunOnce entry are untouched. */
  lemma UnregisterReportsRestore(e: Exec)
    requires e.sys.snapshot.Some?
    ensures Unregister(e).1 == Restore(StopWatchdog(e), e.sys.snapshot.value).1
    ensures var s := Unregister(e).0.sys;
      !Unregister(e).1 ==>
        && s.snapshot == e.sys.snapshot && s.regFile == e.sys.regFile
        && s.cmdFile == e.sys.cmdFile && s.runOnce == e.sys.runOnce
  {
    hide Restore, RemoveCrashRestore;
    WatchdogHandle(e);
    RestoreFiles(StopWatchdog(e), e.sys.snapshot.value);
  }

  // ----- registering -----

  lemma ChangeSettingsReports(e: Exec, reg: Registration, p: Saved)
    ensures var (r, ok) := ChangeSettings(e, reg, p);
      (ok ==> r.sys.live.conn == RegisteredConn(reg)) && (!ok ==> r.sys.live == e.sys.live)
  {
    hide SetUserEnv, RegisteredConn, RegisteredVars;
    RegisteredVarsNames(reg, p);
    SetUserEnvEffect(Do(e, SetConn(RegisteredConn(reg))).0, RegisteredVars(reg, p), PROXY_ENV_VARS);
  }

  /** A register reports success exactly for a connection that is changed, whatever becomes of nets and
      variables; after an error no setting is changed. */
  lemma RegisterReports(codec: Codec, e: Exec, reg: Registration)
    ensures var (r, ok) := Register(codec, e, reg);
      (ok ==> r.sys.live.conn == RegisteredConn(reg)) && (!ok ==> r.sys.live == e.sys.live)
  {
    hide InstallNets, ChangeSettings, RestoreFileNow, Capture, RegisteredConn;
    var p := if e.sys.snapshot.Some? then e.sys.snapshot.value else Capture(e.sys.live);
    var e1 := if e.sys.snapshot.Some? then e else Do(e, SaveSnapshot(p)).0;
    var text := RestoreFileNow(codec, e1.sys, p);
    InstallNetsFrame(e1, reg, text);
    ChangeSettingsReports(InstallNets(e1, reg, text), reg, p);
  }

  /** ApplyOutbound gives up when restoring fails, so under any failures it keeps the machine trusted. */
  lemma ReapplyTrusted(codec: Codec, user: Live, e: Exec, reg: Option<Registration>)
    requires Trusted(codec, user, e.sys)
    ensures Trusted(codec, user, Reapply(codec, e, reg).0.sys)
  {
    hide Unregister, Register, SnapshotSafe, Paired, NormConn;
    UnregisterTrusted(codec, user, e);
    var (e1, ok) := Unregister(e);
    if ok && reg.Some? {
      RegisterPaired(codec, user, e1, reg.value);
      RegisterSafe(user, codec, e1, reg.value);
    }
  }

  // ----- the script -----

  /** After its import the script removes RunOnce entry, snapshot, file and itself in this order; cut
      before the last of them it stays behind without its file. */
  lemma ScriptOrder(codec: Codec, s: Sys)
    requires s.cmdFile == Some(RESTORE_SCRIPT)
    ensures var n := |RegEntries(s)|;
      var r0, r1 := RunScript(codec, s, CutAfter(n)), RunScript(codec, s, CutAfter(n + 1));
      var r2, r3 := RunScript(codec, s, CutAfter(n + 2)), RunScript(codec, s, CutAfter(n + 3));
      && r0.live == Import(codec, s.live, RegEntries(s), n) && r0 == s.(live := r0.live)
      && r1 == r0.(runOnce := false)
      && r2 == r1.(snapshot := None, foreign := None)
      && r3 == r2.(regFile := None) && r3.cmdFile.Some?
  {
    hide RegEntries, RunLines;
    var n := |RegEntries(s)|;
    ScriptOutcome(codec, s, CutAfter(n));
    ScriptOutcome(codec, s, CutAfter(n + 1));
    ScriptOutcome(codec, s, CutAfter(n + 2));
    ScriptOutcome(codec, s, CutAfter(n + 3));
  }
}
