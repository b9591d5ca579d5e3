/** Recovery when writes succeed but the process, or the restore script, may be cut short
    between any two of them. */
module CrashSafety {
  import opened Wrappers
  import opened ProxySettings
  import opened RegFile
  import opened ProxySystem
  import opened SnapshotSafety

  // ----- importing the restore file -----

  ghost predicate GoodWith(codec: Codec, text: string, user: Live, p: Saved, c: Conn) {
    text == RestoreText(p, Some(codec.encode(c))) && Holds(user, p) && NormConn(c) == NormConn(user.conn)
  }

  /** A restore file written while the user's connection settings were in place. */
  ghost predicate Good(codec: Codec, text: string, user: Live) {
    exists p, c :: GoodWith(codec, text, user, p, c)
  }

  predicate IsBlob(en: Entry) {
    en.key == KEY_CONNECTIONS && en.name == CONNECTION_BLOB && en.value.Binary?
  }

  /** Importing the assignment can only bring the user's settings back. */
  ghost predicate Toward(codec: Codec, user: Live, en: Entry) {
    && (en.key == KEY_ENVIRONMENT ==> IsProxyVar(en.name) && en.value == StringValue(Lookup(user.env, en.name)))
    && (IsBlob(en) ==> NormConn(codec.decode(en.value.bytes)) == NormConn(user.conn))
  }

  /** What the assignment is about is as the user had it. */
  ghost predicate Established(user: Live, en: Entry, l: Live) {
    && (en.key == KEY_ENVIRONMENT ==> Lookup(l.env, en.name) == Lookup(user.env, en.name))
    && (IsBlob(en) ==> NormConn(l.conn) == NormConn(user.conn))
  }

  lemma KeysDiffer()
    ensures KEY_ENVIRONMENT != KEY_CONNECTIONS && KEY_ENVIRONMENT != KEY_INTERNET && KEY_CONNECTIONS != KEY_INTERNET
  {
    assert |KEY_ENVIRONMENT| < |KEY_INTERNET| < |KEY_CONNECTIONS|;
  }

  lemma ImportEntryToward(codec: Codec, user: Live, en: Entry, l: Live)
    requires Toward(codec, user, en) && SameOutside(l.env, user.env)
    ensures var r := ImportEntry(codec, l, en);
      && SameOutside(r.env, user.env)
      && Established(user, en, r)
      && (Same(l, user) ==> Same(r, user))
      && forall other :: Established(user, other, l) ==> Established(user, other, r)
  {
    KeysDiffer();
  }

  /** Every prefix of an import keeps what is right and establishes what it assigned. */
  lemma {:induction false} ImportToward(codec: Codec, user: Live, l: Live, entries: seq<Entry>, k: nat)
    requires k <= |entries|
    requires forall j :: 0 <= j < k ==> Toward(codec, user, entries[j])
    requires SameOutside(l.env, user.env)
    ensures var r := Import(codec, l, entries, k);
      && SameOutside(r.env, user.env)
      && (Same(l, user) ==> Same(r, user))
      && forall j :: 0 <= j < k ==> Established(user, entries[j], r)
  {
    if k > 0 {
      ImportToward(codec, user, l, entries, k - 1);
      ImportEntryToward(codec, user, entries[k - 1], Import(codec, l, entries, k - 1));
    }
  }

  lemma RestoreEntriesToward(codec: Codec, user: Live, p: Saved, bytes: seq<byte>)
    requires Holds(user, p) && NormConn(codec.decode(bytes)) == NormConn(user.conn)
    ensures forall en <- RestoreEntries(p, Some(bytes)) :: Toward(codec, user, en)
  {
    KeysDiffer();
    hide NormConn, EnableBit, Holds, StringValue;
    HoldsLookups(user, p);
    var entries := RestoreEntries(p, Some(bytes));
    forall i | 0 <= i < |entries| ensures Toward(codec, user, entries[i]) {
      assert |entries| == 8;
      assert i >= 5 ==>
        IsProxyVar(entries[i].name) && entries[i].value == StringValue(Lookup(user.env, entries[i].name));
    }
  }

  lemma HoldsLookups(user: Live, p: Saved)
    requires Holds(user, p)
    ensures forall name <- PROXY_ENV_VARS :: Lookup(p.env, name) == Lookup(user.env, name)
  {
  }

  /** A good file, imported over anything: every cut keeps the user's settings if they were
      in place, and a whole import puts them in place. */
  lemma ImportGood(codec: Codec, user: Live, s: Sys, k: nat)
    requires Lawful(codec) && s.regFile.Some? && Good(codec, s.regFile.value, user)
    requires SameOutside(s.live.env, user.env)
    requires k <= |RegEntries(s)|
    ensures var r := Import(codec, s.live, RegEntries(s), k);
      && SameOutside(r.env, user.env)
      && (Same(s.live, user) ==> Same(r, user))
      && (k == |RegEntries(s)| ==> Same(r, user))
  {
    hide RestoreText, RestoreEntries, ParseReg, Import, Holds, NormConn, SameEnv, SameOutside, Toward, Established;
    var p, c :| GoodWith(codec, s.regFile.value, user, p, c);
    var bytes := codec.encode(c);
    RestoreTextRoundTrip(p, Some(bytes));
    RestoreEntriesToward(codec, user, p, bytes);
    ImportToward(codec, user, s.live, RegEntries(s), k);
    if k == |RegEntries(s)| {
      AllEstablished(user, p, bytes, Import(codec, s.live, RegEntries(s), k));
    }
  }

  lemma AllEstablished(user: Live, p: Saved, bytes: seq<byte>, l: Live)
    requires SameOutside(l.env, user.env)
    requires var entries := RestoreEntries(p, Some(bytes));
      forall j :: 0 <= j < |entries| ==> Established(user, entries[j], l)
    ensures Same(l, user)
  {
    var entries := RestoreEntries(p, Some(bytes));
    assert |entries| == 8;
    assert Established(user, entries[4], l) && IsBlob(entries[4]);
    assert Established(user, entries[5], l) && Established(user, entries[6], l) && Established(user, entries[7], l);
  }

  // ----- the script -----

  function Min(a: nat, b: nat): nat {
    if a < b then a else b
  }

  /** How many deletions of the script come before this one. */
  function Position(line: ScriptLine): nat {
    match line
    case ImportReg => 0
    case DeleteRunOnce => 0
    case DeleteSnapshot => 1
    case DeleteRegFile => 2
    case DeleteSelf => 3
  }

  /** The run gets to the deletion, and it works. */
  predicate Deletes(s: Sys, run: ScriptRun, line: ScriptLine) {
    run.cut > Imported(s, run) + Position(line) && line !in run.failing
  }

  /** The state a script leaves, by how far it got and what failed in it. */
  lemma ScriptOutcome(codec: Codec, s: Sys, run: ScriptRun)
    requires s.cmdFile == Some(RESTORE_SCRIPT)
    ensures RunScript(codec, s, run) == s.(
        live := Import(codec, s.live, RegEntries(s), Min(run.cut, Imported(s, run))),
        runOnce := s.runOnce && !Deletes(s, run, DeleteRunOnce),
        snapshot := if Deletes(s, run, DeleteSnapshot) then None else s.snapshot,
        foreign := if Deletes(s, run, DeleteSnapshot) then None else s.foreign,
        regFile := if Deletes(s, run, DeleteRegFile) then None else s.regFile,
        cmdFile := if Deletes(s, run, DeleteSelf) then None else s.cmdFile)
  {
    hide RegEntries, Imported;
    var m := Imported(s, run);
    if run.cut > m {
      AfterImport(codec, s.(live := Import(codec, s.live, RegEntries(s), m)), run.(cut := run.cut - m));
      assert RESTORE_SCRIPT[1..] == [DeleteRunOnce, DeleteSnapshot, DeleteRegFile, DeleteSelf];
    }
  }

  function DoUnlessFailing(s: Sys, run: ScriptRun, line: ScriptLine): Sys {
    if line in run.failing then s else DoLine(s, line)
  }

  lemma AfterImport(codec: Codec, s: Sys, run: ScriptRun)
    requires run.cut > 0
    ensures RunLines(codec, s, [DeleteRunOnce, DeleteSnapshot, DeleteRegFile, DeleteSelf], run) == s.(
        runOnce := s.runOnce && DeleteRunOnce in run.failing,
        snapshot := if run.cut > 1 && DeleteSnapshot !in run.failing then None else s.snapshot,
        foreign := if run.cut > 1 && DeleteSnapshot !in run.failing then None else s.foreign,
        regFile := if run.cut > 2 && DeleteRegFile !in run.failing then None else s.regFile,
        cmdFile := if run.cut > 3 && DeleteSelf !in run.failing then None else s.cmdFile)
  {
    hide Import, RegEntries, Imported;
    var l4 := [DeleteRunOnce, DeleteSnapshot, DeleteRegFile, DeleteSelf];
    assert l4[1..] == [DeleteSnapshot, DeleteRegFile, DeleteSelf];
    assert l4[1..][1..] == [DeleteRegFile, DeleteSelf];
    assert l4[1..][1..][1..] == [DeleteSelf];
    assert l4[1..][1..][1..][1..] == [];
    var s1 := DoUnlessFailing(s, run, DeleteRunOnce);
    var s2 := DoUnlessFailing(s1, run, DeleteSnapshot);
    var s3 := DoUnlessFailing(s2, run, DeleteRegFile);
    var s4 := DoUnlessFailing(s3, run, DeleteSelf);
    if run.cut > 3 {
      var last := run.(cut := run.cut - 4);
      assert RunLines(codec, s4, [], last) == s4;
      assert RunLines(codec, s3, [DeleteSelf], run.(cut := run.cut - 3)) == s4;
    }
    if run.cut > 2 {
      assert RunLines(codec, s2, [DeleteRegFile, DeleteSelf], run.(cut := run.cut - 2))
          == RunLines(codec, s3, [DeleteSelf], run.(cut := run.cut - 3));
    }
    if run.cut > 1 {
      assert RunLines(codec, s1, [DeleteSnapshot, DeleteRegFile, DeleteSelf], run.(cut := run.cut - 1))
          == RunLines(codec, s2, [DeleteRegFile, DeleteSelf], run.(cut := run.cut - 2));
    }
  }

  // ----- the invariant -----

  /** What every crash leaves behind: the snapshot is safe, the restore file is good, and a
      script that has lost its file has lost its triggers too. */
  ghost predicate Recoverable(codec: Codec, user: Live, s: Sys) {
    && SnapshotSafe(user, s)
    && (s.regFile.Some? ==> Good(codec, s.regFile.value, user))
    && (s.cmdFile.Some? ==> s.cmdFile.value == RESTORE_SCRIPT)
    && (s.cmdFile.Some? && s.regFile.None? ==> !s.runOnce && s.watchdogs == 0)
    && s.watchdogs <= 1 && (s.handle ==> s.watchdogs == 1)
    && (!Same(s.live, user) ==> s.regFile.Some? && s.cmdFile.Some?)
  }

  /** No command of the run fails; it may still be cut short. */
  predicate OnlyCut(run: ScriptRun) {
    run.importFails.None? && run.failing == {}
  }

  /** Running the script, cut anywhere, keeps the machine recoverable. */
  lemma ScriptKeepsRecoverable(codec: Codec, user: Live, s: Sys, run: ScriptRun)
    requires Lawful(codec) && Recoverable(codec, user, s) && OnlyCut(run)
    requires s.cmdFile.Some? ==> s.regFile.Some?
    requires s.watchdogs == 0
    ensures Recoverable(codec, user, RunScript(codec, s, run))
    ensures !Same(RunScript(codec, s, run).live, user) ==> RunScript(codec, s, run).runOnce == s.runOnce
  {
    hide Good, RegEntries, Import, RunLines, NormConn, SameEnv, Holds;
    if s.cmdFile.Some? {
      ScriptOutcome(codec, s, run);
      OutsideSame(user, s);
      ImportGood(codec, user, s, Min(run.cut, |RegEntries(s)|));
    }
  }

  lemma OutsideSame(user: Live, s: Sys)
    requires SnapshotSafe(user, s)
    ensures SameOutside(s.live.env, user.env)
  {
  }

  /** Run to its end, the script puts the user's settings back and cleans up after itself. */
  lemma WholeScriptRestores(codec: Codec, user: Live, s: Sys)
    requires Lawful(codec) && Recoverable(codec, user, s)
    requires s.cmdFile.Some? && s.regFile.Some?
    ensures var r := RunWhole(codec, s);
      Same(r.live, user) && r.snapshot.None? && r.regFile.None? && r.cmdFile.None? && !r.runOnce
  {
    hide Good, RegEntries, Import, RunLines, NormConn, SameEnv, Holds;
    OutsideSame(user, s);
    ScriptOutcome(codec, s, CutAfter(|RegEntries(s)| + |RESTORE_SCRIPT|));
    ImportGood(codec, user, s, |RegEntries(s)|);
  }

  // ----- registering -----

  /** The process may die, but no write fails. */
  ghost predicate NoFailures(fates: seq<Fate>) {
    forall i :: 0 <= i < |fates| ==> fates[i].ok
  }

  ghost predicate AllOk(e: Exec) {
    NoFailures(e.fates)
  }

  /** Everything needed to undo a registration with options reg is in place. */
  ghost predicate Armed(codec: Codec, user: Live, reg: Registration, s: Sys) {
    && Held(user, s)
    && s.regFile.Some? && Good(codec, s.regFile.value, user)
    && s.cmdFile == Some(RESTORE_SCRIPT)
    && s.runOnce == reg.runOnce
    && s.watchdogs == (if reg.watchdog then 1 else 0)
    && s.handle == reg.watchdog
  }

  lemma DoCrash(e: Exec, a: Action)
    requires AllOk(e)
    ensures var (r, ok) := Do(e, a);
      && AllOk(r)
      && (ok ==> e.alive && r.alive && r.sys == Apply(a, e.sys))
      && (!ok ==> !r.alive && r.sys == e.sys)
  {
  }

  lemma WriteFilesCrash(codec: Codec, user: Live, e: Exec, text: string)
    requires AllOk(e) && e.alive && Recoverable(codec, user, e.sys) && Good(codec, text, user)
    ensures var r := WriteCrashRestoreFiles(e, text);
      && AllOk(r) && Recoverable(codec, user, r.sys)
      && r.sys == e.sys.(regFile := r.sys.regFile, cmdFile := r.sys.cmdFile)
      && (r.alive ==> r.sys.regFile == Some(text) && r.sys.cmdFile == Some(RESTORE_SCRIPT))
  {
    hide Do, Good, SnapshotSafe, Same;
    DoCrash(e, WriteReg(text));
    DoCrash(Do(e, WriteReg(text)).0, WriteCmd(RESTORE_SCRIPT));
    SafeFrame(user, e.sys, e.sys.(regFile := Some(text)));
    SafeFrame(user, e.sys, e.sys.(regFile := Some(text), cmdFile := Some(RESTORE_SCRIPT)));
  }

  lemma SafeFrame(user: Live, s: Sys, t: Sys)
    requires t.live == s.live && t.snapshot == s.snapshot
    ensures SnapshotSafe(user, s) == SnapshotSafe(user, t)
    ensures Held(user, s) == Held(user, t)
  {
  }

  /** All nets are in place, or the process died and nothing is exposed. */
  lemma InstallNetsCrash(codec: Codec, user: Live, e: Exec, reg: Registration, text: string)
    requires AllOk(e) && e.alive && Recoverable(codec, user, e.sys) && Good(codec, text, user)
    requires Held(user, e.sys) && e.sys.watchdogs == 0
    ensures var r := InstallNets(e, reg, text);
      && Recoverable(codec, user, r.sys) && r.sys.live == e.sys.live
      && (r.alive ==> Armed(codec, user, reg, r.sys))
  {
    hide Do, Good, SnapshotSafe, Same, Held, WriteCrashRestoreFiles;
    WriteFilesCrash(codec, user, e, text);
    var e1 := WriteCrashRestoreFiles(e, text);
    DoCrash(e1, if reg.runOnce then InstallRunOnce else RemoveRunOnce);
    var e2 := SetRunOnce(e1, reg.runOnce);
    if !e1.alive {
      DeadStays(e1, reg);
    } else {
      DoCrash(e2, SpawnWatchdog);
      InstallNetsFrame(e, reg, text);
      SafeFrame(user, e.sys, SetWatchdog(e2, reg.watchdog).sys);
    }
  }

  lemma DeadStays(e: Exec, reg: Registration)
    requires !e.alive && !e.sys.handle
    ensures SetWatchdog(SetRunOnce(e, reg.runOnce), reg.watchdog).sys == e.sys
    ensures !SetWatchdog(SetRunOnce(e, reg.runOnce), reg.watchdog).alive
  {
  }

  /** Changing the settings touches nothing that undoes the change. */
  lemma ChangeSettingsFrame(e: Exec, reg: Registration, p: Saved)
    ensures var r := ChangeSettings(e, reg, p).0;
      r.sys == e.sys.(live := r.sys.live) && (!e.alive ==> r.sys == e.sys)
  {
    hide SetUserEnv, RegisteredConn, RegisteredVars;
    var (e1, ok) := Do(e, SetConn(RegisteredConn(reg)));
    RegisteredVarsNames(reg, p);
    if ok {
      SetUserEnvEffect(e1, RegisteredVars(reg, p), PROXY_ENV_VARS);
    }
  }

  lemma ArmedFrame(codec: Codec, user: Live, reg: Registration, s: Sys, t: Sys)
    requires Armed(codec, user, reg, s) && t == s.(live := t.live) && Held(user, t)
    ensures Armed(codec, user, reg, t) && Recoverable(codec, user, t)
  {
    hide Same, Good, Held;
  }

  /** There is no moment where the proxy is set and nothing can undo it: wherever a register
      that follows a completed unregister dies, the settings are still the user's, or every
      requested net is armed with a script that restores them. */
  lemma RegisterNeverExposed(codec: Codec, user: Live, e: Exec, reg: Registration)
    requires Lawful(codec) && AllOk(e) && e.alive && Recoverable(codec, user, e.sys)
    requires e.sys.snapshot.None? && e.sys.watchdogs == 0
    ensures var r := Register(codec, e, reg).0;
      && Recoverable(codec, user, r.sys)
      && (!Same(r.sys.live, user) || r.alive ==> Armed(codec, user, reg, r.sys))
  {
    hide InstallNets, ChangeSettings, RestoreFileNow, Capture, Same, Good, Holds, Armed;
    var p := Capture(e.sys.live);
    CaptureHolds(user, e.sys.live);
    DoCrash(e, SaveSnapshot(p));
    var (e1, ok) := Do(e, SaveSnapshot(p));
    if ok {
      SavedIsHeld(user, e.sys, p);
      assert Recoverable(codec, user, e1.sys);
      var text := RestoreFileNow(codec, e1.sys, p);
      SameConn(e.sys.live, user);
      FileNowGood(codec, user, e1.sys, p);
      InstallNetsCrash(codec, user, e1, reg, text);
      var e2 := InstallNets(e1, reg, text);
      ChangeSettingsFrame(e2, reg, p);
      var r := ChangeSettings(e2, reg, p).0;
      if e2.alive {
        ArmedIsHeld(codec, user, reg, e2.sys);
        ChangeSettingsHeld(user, e2, reg, p);
        ArmedFrame(codec, user, reg, e2.sys, r.sys);
      } else {
        StaysDead(e2, reg, p);
      }
    }
  }

  lemma StaysDead(e: Exec, reg: Registration, p: Saved)
    requires !e.alive
    ensures ChangeSettings(e, reg, p).0 == e
  {
    hide SetUserEnv;
  }

  lemma ArmedIsHeld(codec: Codec, user: Live, reg: Registration, s: Sys)
    requires Armed(codec, user, reg, s)
    ensures Held(user, s)
  {
    hide Held, Good;
  }

  lemma SameConn(a: Live, b: Live)
    requires Same(a, b)
    ensures NormConn(a.conn) == NormConn(b.conn)
  {
  }

  lemma SavedIsHeld(user: Live, s: Sys, p: Saved)
    requires Same(s.live, user) && Holds(user, p)
    ensures Held(user, s.(snapshot := Some(p)))
  {
  }

  lemma FileNowGood(codec: Codec, user: Live, s: Sys, p: Saved)
    requires Holds(user, p) && NormConn(s.live.conn) == NormConn(user.conn)
    ensures Good(codec, RestoreFileNow(codec, s, p), user)
  {
    hide RestoreText, Holds, NormConn;
    assert GoodWith(codec, RestoreFileNow(codec, s, p), user, p, s.live.conn);
  }

  // ----- unregistering -----

  /** A finished unregister leaves the user's settings, no snapshot and no watchdog. One that
      dies first leaves a recoverable machine and, while the settings are not yet back, every
      net but the watchdog it kills at the start. */
  lemma UnregisterCrash(codec: Codec, user: Live, e: Exec)
    requires AllOk(e) && e.alive && Recoverable(codec, user, e.sys)
    requires e.sys.handle <==> e.sys.watchdogs == 1
    ensures var (r, ok) := Unregister(e);
      && Recoverable(codec, user, r.sys) && AllOk(r)
      && (r.alive ==> ok && Same(r.sys.live, user) && r.sys.snapshot.None? && r.sys.watchdogs == 0 && !r.sys.handle)
      && (!Same(r.sys.live, user) ==>
            !Same(e.sys.live, user) && !r.alive && r.sys.snapshot == e.sys.snapshot && r.sys.runOnce == e.sys.runOnce
            && r.sys.regFile == e.sys.regFile && r.sys.cmdFile == e.sys.cmdFile)
  {
    hide Restore, RemoveCrashRestore, Good, Same, Holds, StopWatchdog;
    StopWatchdogCrash(codec, user, e);
    var e0 := StopWatchdog(e);
    if e.sys.snapshot.Some? {
      var p := e.sys.snapshot.value;
      RestoreCrash(codec, user, e0, p);
      var (e1, ok) := Restore(e0, p);
      if ok {
        DoCrash(e1, RemoveSnapshot);
        RemoveCrashRestoreCrash(codec, user, Do(e1, RemoveSnapshot).0);
      }
    }
  }

  lemma StopWatchdogCrash(codec: Codec, user: Live, e: Exec)
    requires AllOk(e) && e.alive && Recoverable(codec, user, e.sys)
    requires e.sys.handle <==> e.sys.watchdogs == 1
    ensures var r := StopWatchdog(e);
      && Recoverable(codec, user, r.sys) && AllOk(r)
      && r.sys == e.sys.(watchdogs := r.sys.watchdogs, handle := r.sys.handle)
      && (r.alive ==> r.sys.watchdogs == 0 && !r.sys.handle)
  {
    hide Do, Good, Same, SnapshotSafe;
    DoCrash(e, KillWatchdog);
    SafeFrame(user, e.sys, StopWatchdog(e).sys);
  }

  lemma {:induction false} SetUserEnvCrash(e: Exec, vars: Env, todo: seq<string>)
    requires AllOk(e) && e.alive && forall name <- todo :: name in vars
    ensures var (r, ok) := SetUserEnv(e, vars, todo); AllOk(r) && r.alive == ok
    decreases |todo|
  {
    if todo != [] {
      var i := Pick(e, |todo|);
      var (e1, ok) := Do(e, SetVar(todo[i], vars[todo[i]]));
      DoCrash(e, SetVar(todo[i], vars[todo[i]]));
      if ok {
        SetUserEnvCrash(e1, vars, todo[..i] + todo[i + 1..]);
      }
    }
  }

  lemma RestoreFrame(e: Exec, p: Saved)
    requires AllOk(e)
    ensures var (r, ok) := Restore(e, p);
      && AllOk(r) && r.sys == e.sys.(live := r.sys.live)
      && (!ok ==> !r.alive) && (!e.alive ==> !ok && r.sys == e.sys)
  {
    hide SetUserEnv, RestoreVars, NormConn;
    var c := NormConn(p.conn);
    DoCrash(e, SetConn(c));
    var (e1, ok) := Do(e, SetConn(c));
    RestoreVarsLookup(p);
    if ok {
      SetUserEnvEffect(e1, RestoreVars(p), PROXY_ENV_VARS);
      SetUserEnvCrash(e1, RestoreVars(p), PROXY_ENV_VARS);
    }
  }

  lemma {:induction false} SetUserEnvKeepsSame(user: Live, e: Exec, vars: Env, todo: seq<string>)
    requires Same(e.sys.live, user)
    requires forall name <- todo :: name in vars && IsProxyVar(name) && vars[name] == Lookup(user.env, name)
    ensures Same(SetUserEnv(e, vars, todo).0.sys.live, user)
    decreases |todo|
  {
    if todo != [] {
      var i := Pick(e, |todo|);
      SetUserEnvKeepsSame(user, Do(e, SetVar(todo[i], vars[todo[i]])).0, vars, todo[..i] + todo[i + 1..]);
    }
  }

  /** Restoring settings that are in place keeps them in place at every step. */
  lemma RestoreKeepsSame(user: Live, e: Exec, p: Saved)
    requires Same(e.sys.live, user) && Holds(user, p)
    ensures Same(Restore(e, p).0.sys.live, user)
  {
    hide SetUserEnv, RestoreVars;
    RestoreVarsLookup(p);
    var e1 := Do(e, SetConn(NormConn(p.conn))).0;
    assert Same(e1.sys.live, user);
    SetUserEnvKeepsSame(user, e1, RestoreVars(p), PROXY_ENV_VARS);
  }

  lemma RestoreCrash(codec: Codec, user: Live, e: Exec, p: Saved)
    requires AllOk(e) && Recoverable(codec, user, e.sys) && e.sys.snapshot == Some(p)
    ensures var (r, ok) := Restore(e, p);
      && Recoverable(codec, user, r.sys) && AllOk(r)
      && r.sys == e.sys.(live := r.sys.live)
      && (ok ==> e.alive && r.alive && Same(r.sys.live, user)) && (!ok ==> !r.alive)
      && (Same(e.sys.live, user) ==> Same(r.sys.live, user))
  {
    hide Restore, Good, Holds, Same, Norm, SameOutside;
    RestoreFrame(e, p);
    RestoreHeld(user, e, p);
    NormIsSame(user);
    if Same(e.sys.live, user) {
      RestoreKeepsSame(user, e, p);
    }
  }

  lemma RemoveCrashRestoreCrash(codec: Codec, user: Live, e: Exec)
    requires AllOk(e) && Recoverable(codec, user, e.sys) && Same(e.sys.live, user)
    ensures var r := RemoveCrashRestore(e);
      && Recoverable(codec, user, r.sys) && AllOk(r)
      && r.sys == e.sys.(runOnce := r.sys.runOnce, cmdFile := r.sys.cmdFile, regFile := r.sys.regFile)
      && (r.alive ==> e.alive)
  {
    hide Do, Good, Same, SnapshotSafe;
    DoCrash(e, RemoveRunOnce);
    var (e1, ok1) := Do(e, RemoveRunOnce);
    SafeFrame(user, e.sys, e1.sys);
    if ok1 {
      DoCrash(e1, RemoveCmd);
      var (e2, ok2) := Do(e1, RemoveCmd);
      SafeFrame(user, e.sys, e2.sys);
      if ok2 {
        DoCrash(e2, RemoveReg);
        SafeFrame(user, e.sys, Do(e2, RemoveReg).0.sys);
      }
    }
  }

  // ----- finishing -----

  lemma {:induction false} SetUserEnvFates(e: Exec, vars: Env, todo: seq<string>)
    requires AllOk(e) && e.alive && |e.fates| >= |todo|
    requires forall name <- todo :: name in vars
    ensures SetUserEnv(e, vars, todo).0.alive
    ensures |SetUserEnv(e, vars, todo).0.fates| == |e.fates| - |todo|
    decreases |todo|
  {
    if todo != [] {
      var i := Pick(e, |todo|);
      SetUserEnvFates(Do(e, SetVar(todo[i], vars[todo[i]])).0, vars, todo[..i] + todo[i + 1..]);
    }
  }

  lemma RestoreFates(e: Exec, p: Saved)
    requires AllOk(e) && e.alive && |e.fates| >= 4
    ensures var (r, ok) := Restore(e, p); ok && r.alive && AllOk(r) && |r.fates| == |e.fates| - 4
  {
    hide SetUserEnv, RestoreVars, NormConn;
    RestoreFrame(e, p);
    RestoreVarsLookup(p);
    var e1 := Do(e, SetConn(NormConn(p.conn))).0;
    SetUserEnvFates(e1, RestoreVars(p), PROXY_ENV_VARS);
    SetUserEnvCrash(e1, RestoreVars(p), PROXY_ENV_VARS);
  }

  /** From any state a failing run can leave: no failure and no death means recovery. */
  lemma UnregisterCompletes(user: Live, e: Exec)
    requires AllOk(e) && e.alive && SnapshotSafe(user, e.sys)
    ensures var r := Unregister(e).0;
      && (|e.fates| >= 9 ==> r.alive)
      && (r.alive ==> Same(r.sys.live, user) && r.sys.snapshot.None? && !r.sys.handle)
  {
    hide Restore, Same, Holds, Norm, SameOutside;
    var e0 := StopWatchdog(e);
    StopWatchdogHeld(user, e);
    if e.sys.snapshot.Some? {
      var p := e.sys.snapshot.value;
      RestoreHeld(user, e0, p);
      RestoreFrame(e0, p);
      NormIsSame(user);
      if |e.fates| >= 9 {
        RestoreFates(e0, p);
      }
    }
  }

  lemma UnregisterAgain(s: Sys, fates: seq<Fate>)
    requires s.snapshot.None? && !s.handle
    ensures Unregister(Exec(s, fates, true)).0.sys == s
  {
  }
}
