/** Failing writes, deaths and restore scripts together: exactly when a script may be trusted, and
    whole runs in which it always may. */
module TrustedScripts {
  import opened Wrappers
  import opened ProxySettings
  import opened RegFile
  import opened ProxySystem
  import opened SnapshotSafety
  import opened CrashSafety
  import opened Registrations
  import opened Sessions

  /** A restore file carries the user's settings, and a script has one beside it. */
  ghost predicate Paired(codec: Codec, user: Live, s: Sys) {
    && (s.regFile.Some? ==> Good(codec, s.regFile.value, user))
    && (s.cmdFile.Some? ==> s.cmdFile.value == RESTORE_SCRIPT && s.regFile.Some?)
  }

  ghost predicate Trusted(codec: Codec, user: Live, s: Sys) {
    SnapshotSafe(user, s) && Paired(codec, user, s)
  }

  lemma PairedFrame(codec: Codec, user: Live, s: Sys, t: Sys)
    requires t.regFile == s.regFile && t.cmdFile == s.cmdFile
    ensures Paired(codec, user, s) == Paired(codec, user, t)
  {
    hide Good;
  }

  /** Whatever script a trusted machine has, run to its end it gives the user's settings. */
  lemma TrustedScriptRestores(codec: Codec, user: Live, s: Sys)
    requires Lawful(codec) && Trusted(codec, user, s) && s.cmdFile.Some?
    ensures Same(RunWhole(codec, s).live, user)
  {
    hide Good, RegEntries, Import, RunLines, Same, SameOutside, Held;
    OutsideSame(user, s);
    ScriptOutcome(codec, s, CutAfter(|RegEntries(s)| + |RESTORE_SCRIPT|));
    ImportGood(codec, user, s, |RegEntries(s)|);
  }

  // ----- any writes may fail -----

  /** The safety nets other than the two files leave the files alone. */
  lemma NetsFiles(e: Exec, reg: Registration, text: string)
    ensures var f, r := WriteCrashRestoreFiles(e, text), InstallNets(e, reg, text);
      r.sys.regFile == f.sys.regFile && r.sys.cmdFile == f.sys.cmdFile
  {
    hide WriteCrashRestoreFiles;
    var f := WriteCrashRestoreFiles(e, text);
    var g := SetRunOnce(f, reg.runOnce);
    assert g.sys.regFile == f.sys.regFile && g.sys.cmdFile == f.sys.cmdFile;
  }

  lemma WriteFilesPaired(codec: Codec, user: Live, e: Exec, text: string)
    requires Paired(codec, user, e.sys) && Good(codec, text, user)
    ensures Paired(codec, user, WriteCrashRestoreFiles(e, text).sys)
  {
    hide Good;
  }

  /** The half of registerSystemProxy that follows the snapshot. */
  lemma RegisterFilesPaired(codec: Codec, user: Live, e: Exec, reg: Registration, p: Saved)
    requires Paired(codec, user, e.sys)
    requires Holds(user, p) && NormConn(e.sys.live.conn) == NormConn(user.conn)
    ensures Paired(codec, user, ChangeSettings(InstallNets(e, reg, RestoreFileNow(codec, e.sys, p)), reg, p).0.sys)
  {
    hide InstallNets, ChangeSettings, WriteCrashRestoreFiles, Paired, Holds, NormConn;
    var text := RestoreFileNow(codec, e.sys, p);
    FileNowGood(codec, user, e.sys, p);
    WriteFilesPaired(codec, user, e, text);
    NetsFiles(e, reg, text);
    var e1 := InstallNets(e, reg, text);
    PairedFrame(codec, user, WriteCrashRestoreFiles(e, text).sys, e1.sys);
    ChangeSettingsFrame(e1, reg, p);
    PairedFrame(codec, user, e1.sys, ChangeSettings(e1, reg, p).0.sys);
  }

  /** Registering while the connection settings are the user's keeps file and script paired, whatever
      writes fail and wherever it dies. */
  lemma RegisterPaired(codec: Codec, user: Live, e: Exec, reg: Registration)
    requires Trusted(codec, user, e.sys) && NormConn(e.sys.live.conn) == NormConn(user.conn)
    ensures Paired(codec, user, Register(codec, e, reg).0.sys)
  {
    hide InstallNets, ChangeSettings, RestoreFileNow, Capture, Paired, NormConn, Same, Holds;
    if e.sys.snapshot.Some? {
      RegisterFilesPaired(codec, user, e, reg, e.sys.snapshot.value);
    } else {
      var p := Capture(e.sys.live);
      CaptureHolds(user, e.sys.live);
      var (e1, ok) := Do(e, SaveSnapshot(p));
      PairedFrame(codec, user, e.sys, e1.sys);
      if ok {
        RegisterFilesPaired(codec, user, e1, reg, p);
      }
    }
  }

  lemma RemoveCrashRestorePaired(codec: Codec, user: Live, e: Exec)
    requires Paired(codec, user, e.sys)
    ensures Paired(codec, user, RemoveCrashRestore(e).sys)
  {
    hide Good;
  }

  /** Unregistering removes the script before its file, so it keeps them paired as well. */
  lemma UnregisterPaired(codec: Codec, user: Live, e: Exec)
    requires Paired(codec, user, e.sys)
    ensures Paired(codec, user, Unregister(e).0.sys)
  {
    hide Paired, Restore, RemoveCrashRestore;
    var e0 := StopWatchdog(e);
    PairedFrame(codec, user, e.sys, e0.sys);
    if e.sys.snapshot.Some? {
      var p := e.sys.snapshot.value;
      RestoreFiles(e0, p);
      var (e1, ok) := Restore(e0, p);
      PairedFrame(codec, user, e.sys, e1.sys);
      if ok {
        var e2 := Do(e1, RemoveSnapshot).0;
        PairedFrame(codec, user, e.sys, e2.sys);
        RemoveCrashRestorePaired(codec, user, e2);
      }
    }
  }

  /** An unregister that reports no error has the user's connection settings back. */
  lemma UnregisterOk(user: Live, e: Exec)
    requires SnapshotSafe(user, e.sys) && Unregister(e).1
    ensures NormConn(Unregister(e).0.sys.live.conn) == NormConn(user.conn)
  {
    hide Restore, StopWatchdog, RemoveCrashRestore, SameEnv, SameOutside, Holds;
    StopWatchdogHeld(user, e);
    if e.sys.snapshot.Some? {
      var p := e.sys.snapshot.value;
      RestoreHeld(user, StopWatchdog(e), p);
      NormIsSame(user);
      var e1 := Restore(StopWatchdog(e), p).0;
      RemoveCrashRestoreFrame(Do(e1, RemoveSnapshot).0);
    }
  }

  // ----- one run of a script -----

  /** What the import of a run leaves out, up to the end of the file, is as the user had it. */
  ghost predicate MissedHold(user: Live, s: Sys, run: ScriptRun) {
    forall j :: Imported(s, run) <= j < |RegEntries(s)| ==> Established(user, RegEntries(s)[j], s.live)
  }

  /** The snapshot goes only after a complete import, or one that missed nothing; the script goes
      together with its file. */
  ghost predicate SafeRun(user: Live, s: Sys, run: ScriptRun) {
    && (Deletes(s, run, DeleteSnapshot) ==> MissedHold(user, s, run))
    && (Deletes(s, run, DeleteRegFile) ==> Deletes(s, run, DeleteSelf))
  }

  /** Importing an assignment leaves what a later one is about alone. */
  lemma ImportLeavesOthers(codec: Codec, user: Live, p: Saved, bytes: seq<byte>, l: Live, k: nat, j: nat)
    requires k <= j < |RestoreEntries(p, Some(bytes))|
    ensures var entries := RestoreEntries(p, Some(bytes));
      Established(user, entries[j], Import(codec, l, entries, k)) == Established(user, entries[j], l)
    decreases k
  {
    hide RestoreEntries, Established, ImportEntry;
    if k > 0 {
      ImportLeavesOthers(codec, user, p, bytes, l, k - 1, j);
      ImportLeavesLater(codec, user, p, bytes, Import(codec, l, RestoreEntries(p, Some(bytes)), k - 1), k - 1, j);
    }
  }

  lemma ImportLeavesLater(codec: Codec, user: Live, p: Saved, bytes: seq<byte>, l: Live, i: nat, j: nat)
    requires i < j < |RestoreEntries(p, Some(bytes))|
    ensures var entries := RestoreEntries(p, Some(bytes));
      Established(user, entries[j], ImportEntry(codec, l, entries[i])) == Established(user, entries[j], l)
  {
    hide NormConn, EnableBit, StringValue;
    KeysDiffer();
    EightEntries(p, bytes);
    var entries := RestoreEntries(p, Some(bytes));
    if i >= 5 {
      assert entries[i] == Entry(KEY_ENVIRONMENT, entries[i].name, StringValue(Lookup(p.env, entries[i].name)));
      assert entries[j].key == KEY_ENVIRONMENT && entries[j].name != entries[i].name;
      ImportVar(codec, l, entries[i].name, Lookup(p.env, entries[i].name));
      hide ImportEntry;
    } else if i < 4 {
      assert entries[i].key == KEY_INTERNET && ImportEntry(codec, l, entries[i]) == l;
    } else {
      assert entries[j].key == KEY_ENVIRONMENT;
      ImportOther(codec, l, entries[i]);
      hide ImportEntry;
    }
  }

  lemma SameEstablishes(codec: Codec, user: Live, l: Live, en: Entry)
    requires Same(l, user) && Toward(codec, user, en)
    ensures Established(user, en, l)
  {
  }

  /** An import that gives up after k assignments gives the user's settings exactly if what the others
      are about was the user's already. */
  lemma PartialImportIff(codec: Codec, user: Live, s: Sys, k: nat)
    requires Lawful(codec) && s.regFile.Some? && Good(codec, s.regFile.value, user)
    requires SameOutside(s.live.env, user.env) && k <= |RegEntries(s)|
    ensures Same(Import(codec, s.live, RegEntries(s), k), user)
        <==> forall j :: k <= j < |RegEntries(s)| ==> Established(user, RegEntries(s)[j], s.live)
  {
    hide RestoreText, RestoreEntries, ParseReg, Import, Holds, NormConn, SameOutside, Same, Toward, Established;
    var p, c :| GoodWith(codec, s.regFile.value, user, p, c);
    var bytes := codec.encode(c);
    RestoreTextRoundTrip(p, Some(bytes));
    var entries := RestoreEntries(p, Some(bytes));
    assert RegEntries(s) == entries;
    RestoreEntriesToward(codec, user, p, bytes);
    ImportToward(codec, user, s.live, entries, k);
    var r := Import(codec, s.live, entries, k);
    forall j | k <= j < |entries|
      ensures Established(user, entries[j], r) == Established(user, entries[j], s.live)
    {
      ImportLeavesOthers(codec, user, p, bytes, s.live, k, j);
    }
    if Same(r, user) {
      forall j | k <= j < |entries| ensures Established(user, entries[j], r) {
        SameEstablishes(codec, user, r, entries[j]);
      }
    }
    if forall j :: k <= j < |entries| ==> Established(user, entries[j], s.live) {
      AllEstablished(user, p, bytes, r);
    }
  }

  /** One run of a script, with any of its commands failing and cut anywhere, leaves a trusted machine
      exactly if it is safe. */
  lemma RunTrustedIff(codec: Codec, user: Live, s: Sys, run: ScriptRun)
    requires Lawful(codec) && Trusted(codec, user, s) && s.cmdFile.Some?
    ensures Trusted(codec, user, RunScript(codec, s, run)) <==> SafeRun(user, s, run)
  {
    hide Good, RegEntries, Import, RunLines, Same, Holds, Imported, Established, SameOutside;
    OutsideSame(user, s);
    ScriptOutcome(codec, s, run);
    var k := Min(run.cut, Imported(s, run));
    ImportGood(codec, user, s, k);
    PartialImportIff(codec, user, s, k);
  }

  // ----- one register -----

  /** A script that something will run gives the user's settings. */
  ghost predicate Spared(codec: Codec, user: Live, s: Sys) {
    s.cmdFile.Some? && (s.runOnce || s.watchdogs > 0) ==> Same(RunWhole(codec, s).live, user)
  }

  function Oks(n: nat): seq<Fate> {
    seq(n, _ => Fate(true, 0))
  }

  /** A register that asks for a net and changes the connection never arms a script that loses the
      user's settings, whatever writes fail and wherever it dies, exactly if it starts with the user's
      connection settings and without a script that has lost its file. */
  lemma RegisterTrustedIff(codec: Codec, user: Live, s: Sys, reg: Registration)
    requires Lawful(codec) && SnapshotSafe(user, s) && (s.handle ==> s.watchdogs > 0)
    requires s.regFile.Some? ==> Good(codec, s.regFile.value, user)
    requires s.cmdFile.Some? ==> s.cmdFile.value == RESTORE_SCRIPT
    requires (reg.runOnce || reg.watchdog) && NormConn(RegisteredConn(reg)) != NormConn(user.conn)
    ensures (forall fates :: Spared(codec, user, Register(codec, Exec(s, fates, true), reg).0.sys))
        <==> NormConn(s.live.conn) == NormConn(user.conn) && (s.cmdFile.Some? ==> s.regFile.Some?)
  {
    hide Register, RegisteredConn, NormConn, Good, SnapshotSafe, RunWhole, Same;
    if s.cmdFile.Some? && s.regFile.None? {
      FailedRestoreFileWriteLosesSettings(codec, user, s, reg, Oks(6));
      assert !Spared(codec, user, Register(codec, Exec(s, RefuseFile(s) + Oks(6), true), reg).0.sys);
    } else if NormConn(s.live.conn) != NormConn(user.conn) {
      OurConnectionIsKept(codec, user, s, reg);
      assert !Spared(codec, user, Register(codec, Exec(s, Oks(9), true), reg).0.sys);
    } else {
      forall fates ensures Spared(codec, user, Register(codec, Exec(s, fates, true), reg).0.sys) {
        RegisterSpares(codec, user, Exec(s, fates, true), reg);
      }
    }
  }

  lemma RegisterSpares(codec: Codec, user: Live, e: Exec, reg: Registration)
    requires Lawful(codec) && Trusted(codec, user, e.sys) && NormConn(e.sys.live.conn) == NormConn(user.conn)
    ensures Spared(codec, user, Register(codec, e, reg).0.sys)
  {
    hide Register, Paired, SnapshotSafe, RunWhole, Same, NormConn;
    RegisterPaired(codec, user, e, reg);
    RegisterSafe(user, codec, e, reg);
    var s := Register(codec, e, reg).0.sys;
    if s.cmdFile.Some? {
      TrustedScriptRestores(codec, user, s);
    }
  }

  /** Without a failure, the script restores the connection settings the register started with. */
  lemma OurConnectionIsKept(codec: Codec, user: Live, s: Sys, reg: Registration)
    requires Lawful(codec) && SnapshotSafe(user, s) && (s.handle ==> s.watchdogs > 0)
    requires (reg.runOnce || reg.watchdog) && NormConn(s.live.conn) != NormConn(user.conn)
    ensures !Spared(codec, user, Register(codec, Exec(s, Oks(9), true), reg).0.sys)
  {
    hide Register, RestoreText, RestoreEntries, ParseReg, Import, NormConn, RegisteredConn, SameEnv, SameOutside, Holds;
    var e := Exec(s, Oks(9), true);
    RegisterArms(codec, e, reg);
    var r := Register(codec, e, reg).0.sys;
    var p, bytes := s.snapshot.value, codec.encode(s.live.conn);
    RestoreTextRoundTrip(p, Some(bytes));
    EightEntries(p, bytes);
    ImportedConn(codec, p, bytes, r.live);
    ScriptOutcome(codec, r, CutAfter(|RegEntries(r)| + |RESTORE_SCRIPT|));
  }

  /** Something armed will run a script that gives the user's settings. */
  ghost predicate CanUndo(codec: Codec, user: Live, s: Sys) {
    s.cmdFile.Some? && (s.runOnce || s.watchdogs > 0) && Same(RunWhole(codec, s).live, user)
  }

  /** A script is there already, and something armed that a register with these options keeps even
      where it fails to arm anything itself. */
  predicate StandingNet(s: Sys, reg: Registration) {
    s.cmdFile.Some? && ((s.runOnce && reg.runOnce) || s.watchdogs > Stopped(s, reg))
  }

  lemma RegisterKeepsStandingNet(codec: Codec, e: Exec, reg: Registration)
    requires StandingNet(e.sys, reg) && (e.sys.handle ==> e.sys.watchdogs > 0)
    ensures var s := Register(codec, e, reg).0.sys; s.cmdFile.Some? && (s.runOnce || s.watchdogs > 0)
  {
    hide ChangeSettings, InstallNets, RestoreFileNow, Capture;
    var p := if e.sys.snapshot.Some? then e.sys.snapshot.value else Capture(e.sys.live);
    var e1 := if e.sys.snapshot.Some? then e else Do(e, SaveSnapshot(p)).0;
    var text := RestoreFileNow(codec, e1.sys, p);
    NetsKeepStanding(e1, reg, text);
    ChangeSettingsFrame(InstallNets(e1, reg, text), reg, p);
  }

  lemma FilesKeepScript(e: Exec, text: string)
    ensures var f := WriteCrashRestoreFiles(e, text).sys;
      f == e.sys.(regFile := f.regFile, cmdFile := f.cmdFile) && (e.sys.cmdFile.Some? ==> f.cmdFile.Some?)
  {
  }

  lemma RunOnceKept(e: Exec, on: bool)
    ensures var f := SetRunOnce(e, on).sys; f == e.sys.(runOnce := f.runOnce) && (e.sys.runOnce && on ==> f.runOnce)
  {
  }

  lemma WatchdogsKept(e: Exec, reg: Registration)
    requires e.sys.handle ==> e.sys.watchdogs > 0
    ensures var f := SetWatchdog(e, reg.watchdog).sys;
      f == e.sys.(watchdogs := f.watchdogs, handle := f.handle) && f.watchdogs >= e.sys.watchdogs - Stopped(e.sys, reg)
  {
  }

  lemma NetsKeepStanding(e: Exec, reg: Registration, text: string)
    requires StandingNet(e.sys, reg) && (e.sys.handle ==> e.sys.watchdogs > 0)
    ensures var s := InstallNets(e, reg, text).sys; s.cmdFile.Some? && (s.runOnce || s.watchdogs > 0)
  {
    hide WriteCrashRestoreFiles, SetRunOnce, SetWatchdog;
    var f := WriteCrashRestoreFiles(e, text);
    FilesKeepScript(e, text);
    RunOnceKept(f, reg.runOnce);
    WatchdogsKept(SetRunOnce(f, reg.runOnce), reg);
  }

  /** When it is true that there is no moment where the proxy is set and nothing can undo it: whatever
      writes fail and wherever it dies, a register that starts with the user's settings leaves them in
      place, or something armed that brings them back, exactly if such a net stands already. */
  lemma RegisterNeverExposedIff(codec: Codec, user: Live, s: Sys, reg: Registration)
    requires Lawful(codec) && Trusted(codec, user, s) && Same(s.live, user) && (s.handle ==> s.watchdogs > 0)
    requires NormConn(RegisteredConn(reg)) != NormConn(user.conn)
    ensures (forall fates :: var r := Register(codec, Exec(s, fates, true), reg).0.sys;
              Same(r.live, user) || CanUndo(codec, user, r))
        <==> StandingNet(s, reg)
  {
    hide Register, RegisteredConn, NormConn, SnapshotSafe, Paired, RunWhole, Same;
    SameConn(s.live, user);
    if StandingNet(s, reg) {
      forall fates
        ensures var r := Register(codec, Exec(s, fates, true), reg).0.sys; Same(r.live, user) || CanUndo(codec, user, r)
      {
        RegisterSpares(codec, user, Exec(s, fates, true), reg);
        RegisterKeepsStandingNet(codec, Exec(s, fates, true), reg);
      }
    } else {
      var fates := RefuseNets(s, reg) + Oks(4);
      BareRegister(codec, s, reg, Oks(4));
      var r := Register(codec, Exec(s, fates, true), reg).0.sys;
      ConnDiffers(r.live, user);
      assert !(Same(r.live, user) || CanUndo(codec, user, r));
    }
  }

  lemma ConnDiffers(a: Live, b: Live)
    requires NormConn(a.conn) != NormConn(b.conn)
    ensures !Same(a, b)
  {
    hide NormConn;
  }

  /** The run that shows it: a first register on an untouched machine, with every net asked for, that
      is refused its .reg file and nothing else. The proxy is set, and no script is there to undo it;
      yet nothing armed does any harm. */
  lemma RefusedFileLeavesNoScript(codec: Codec, user: Live, reg: Registration)
    requires NormConn(RegisteredConn(reg)) != NormConn(user.conn) && reg.runOnce && reg.watchdog
    ensures var s := Sys(user, None, None, None, None, false, 0, false);
      var r := Register(codec, Exec(s, [Fate(true, 0), Fate(false, 0)] + Oks(6), true), reg).0;
      && r.alive && !Same(r.sys.live, user) && r.sys.runOnce && r.sys.watchdogs > 0
      && r.sys.cmdFile.None? && !CanUndo(codec, user, r.sys) && Spared(codec, user, r.sys)
  {
    hide Register, RegisteredConn, NormConn, Same, RunWhole, ChangeSettings, SetRunOnce, SetWatchdog, Capture;
    var s := Sys(user, None, None, None, None, false, 0, false);
    assert RefuseFile(s) == [Fate(true, 0), Fate(false, 0)];
    AfterRefusedFile(codec, s, reg, Oks(6));
    ArmedAfterFiles(Exec(Kept(s).0, Oks(6), true), reg, Kept(s).1);
    ConnDiffers(Register(codec, Exec(s, RefuseFile(s) + Oks(6), true), reg).0.sys.live, user);
  }

  // ----- whole runs -----

  /** A start registers only if the last unregister reported no error, and a script that runs is safe.
      ApplyOutbound needs no condition: it gives up by itself. */
  ghost predicate Careful(codec: Codec, w: World, ev: Event) {
    match ev
    case Launch(start, fates) =>
      !w.running && w.sys.watchdogs == 0 && Registers(start) ==> Unregister(Exec(w.sys, fates, true)).1
    case Switch(start, fates) =>
      w.running && Registers(start) ==> if w.listening then Unregister(Exec(w.sys, fates, true)).1 else w.restored
    case WatchdogFires(run) => w.sys.cmdFile.Some? ==> SafeRun(w.user, w.sys, run)
    case Reboot(run) => w.sys.runOnce && w.sys.cmdFile.Some? ==> SafeRun(w.user, w.sys, run)
    case _ => true
  }

  ghost predicate CarefulRun(codec: Codec, w: World, events: seq<Event>)
    decreases |events|
  {
    events == [] || (Careful(codec, w, events[0]) && CarefulRun(codec, Step(codec, w, events[0]), events[1..]))
  }

  ghost predicate TrustedWorld(codec: Codec, w: World) {
    && Trusted(codec, w.user, w.sys)
    && (w.running && !w.listening && w.restored ==> NormConn(w.sys.live.conn) == NormConn(w.user.conn))
  }

  lemma TrustedFrame(codec: Codec, user: Live, s: Sys, t: Sys)
    requires t.live == s.live && t.snapshot == s.snapshot && t.regFile == s.regFile && t.cmdFile == s.cmdFile
    ensures Trusted(codec, user, s) == Trusted(codec, user, t)
  {
    SafeFrame(user, s, t);
    PairedFrame(codec, user, s, t);
  }

  lemma StartUpTrusted(codec: Codec, w: World, e: Exec, restored: bool, start: Start)
    requires Trusted(codec, w.user, e.sys)
    requires restored ==> NormConn(e.sys.live.conn) == NormConn(w.user.conn)
    requires Registers(start) ==> restored
    ensures TrustedWorld(codec, StartUp(codec, w, e, restored, start))
    ensures StartUp(codec, w, e, restored, start).user == w.user
  {
    hide Register, SnapshotSafe, Paired, NormConn;
    TrustedFrame(codec, w.user, e.sys, Exit(e.sys));
    if Registers(start) {
      RegisterPaired(codec, w.user, e, start.reg.value);
      RegisterSafe(w.user, codec, e, start.reg.value);
      var s := Register(codec, e, start.reg.value).0.sys;
      TrustedFrame(codec, w.user, s, Exit(s));
    }
  }

  lemma UnregisterTrusted(codec: Codec, user: Live, e: Exec)
    requires Trusted(codec, user, e.sys)
    ensures var (r, ok) := Unregister(e);
      Trusted(codec, user, r.sys) && (ok ==> NormConn(r.sys.live.conn) == NormConn(user.conn))
  {
    hide Unregister, SnapshotSafe, Paired, NormConn;
    UnregisterSafe(user, e);
    UnregisterPaired(codec, user, e);
    if Unregister(e).1 {
      UnregisterOk(user, e);
    }
  }

  lemma SafeRunFrame(user: Live, s: Sys, t: Sys, run: ScriptRun)
    requires t.live == s.live && t.regFile == s.regFile && SafeRun(user, s, run)
    ensures SafeRun(user, t, run)
  {
    hide Established;
    assert RegEntries(t) == RegEntries(s);
    hide RegEntries;
  }

  lemma ScriptTrusted(codec: Codec, user: Live, s: Sys, t: Sys, run: ScriptRun)
    requires Lawful(codec) && Trusted(codec, user, s)
    requires t.live == s.live && t.snapshot == s.snapshot && t.regFile == s.regFile && t.cmdFile == s.cmdFile
    requires s.cmdFile.Some? ==> SafeRun(user, s, run)
    ensures Trusted(codec, user, RunScript(codec, t, run))
  {
    hide RunLines, SnapshotSafe, Paired;
    TrustedFrame(codec, user, s, t);
    if t.cmdFile.Some? {
      SafeRunFrame(user, s, t, run);
      RunTrustedIff(codec, user, t, run);
    }
  }

  /** Each event, with any writes and commands failing and any death, keeps the machine trusted. */
  lemma StepTrusted(codec: Codec, w: World, ev: Event)
    requires Lawful(codec) && TrustedWorld(codec, w) && Careful(codec, w, ev)
    ensures TrustedWorld(codec, Step(codec, w, ev))
  {
    hide Unregister, StartUp, Trusted, NormConn, SafeRun, RunScript;
    TrustedFrame(codec, w.user, w.sys, Exit(w.sys));
    match ev
    case Launch(start, fates) =>
      RestartTrusted(codec, w, fates, start);
    case Switch(start, fates) =>
      if w.running && !w.listening {
        StartUpTrusted(codec, w, Exec(w.sys, fates, true), w.restored, start);
      } else {
        RestartTrusted(codec, w, fates, start);
      }
    case ApplyOutbound(reg, fates) =>
      var ok := Unregister(Exec(w.sys, fates, true)).1;
      RestartTrusted(codec, w, fates, Up(if ok then reg else None));
    case Quit(fates) =>
      var s := Unregister(Exec(w.sys, fates, true)).0.sys;
      UnregisterTrusted(codec, w.user, Exec(w.sys, fates, true));
      TrustedFrame(codec, w.user, s, Exit(s));
    case Kill =>
    case WatchdogDies(_) =>
      TrustedFrame(codec, w.user, w.sys, Step(codec, w, ev).sys);
    case WatchdogFires(run) =>
      if !w.running && w.sys.watchdogs > 0 {
        ScriptTrusted(codec, w.user, w.sys, w.sys.(watchdogs := w.sys.watchdogs - 1), run);
      }
    case Reboot(run) =>
      var s := w.sys.(watchdogs := 0, handle := false, runOnce := false);
      TrustedFrame(codec, w.user, w.sys, s);
      if w.sys.runOnce {
        ScriptTrusted(codec, w.user, w.sys, s, run);
      }
    case UserEdit(live) =>
      if Clean(w.sys) {
        EditTrusted(codec, w.sys, live);
      }
  }

  lemma RestartTrusted(codec: Codec, w: World, fates: seq<Fate>, start: Start)
    requires Trusted(codec, w.user, w.sys)
    ensures var (e, ok) := Unregister(Exec(w.sys, fates, true));
      (Registers(start) ==> ok) ==> TrustedWorld(codec, StartUp(codec, w, e, ok, start))
  {
    hide Unregister, StartUp, Trusted, NormConn;
    var (e, ok) := Unregister(Exec(w.sys, fates, true));
    UnregisterTrusted(codec, w.user, Exec(w.sys, fates, true));
    if Registers(start) ==> ok {
      StartUpTrusted(codec, w, e, ok, start);
    }
  }

  lemma EditTrusted(codec: Codec, s: Sys, live: Live)
    requires Clean(s)
    ensures Trusted(codec, live, s.(live := live))
  {
    EditSafe(s, live);
  }

  lemma {:induction false} RunTrusted(codec: Codec, w: World, events: seq<Event>)
    requires Lawful(codec) && TrustedWorld(codec, w) && CarefulRun(codec, w, events)
    ensures TrustedWorld(codec, Run(codec, w, events))
    decreases |events|
  {
    hide Step, TrustedWorld, Careful, Lawful;
    if events != [] {
      StepTrusted(codec, w, events[0]);
      RunTrusted(codec, Step(codec, w, events[0]), events[1..]);
    }
  }

  /** Failures, deaths and scripts together, over whole runs from a machine this program never touched,
      in which no start registers over a failed unregister and every script that runs is safe: without
      a snapshot the user's settings are in place and a snapshot holds them; every script there is, run
      to its end, puts them in place; and so does one unregister that meets no failure. */
  lemma SettingsSurviveFailures(codec: Codec, user: Live, foreign: Option<Saved>, events: seq<Event>, fates: seq<Fate>)
    requires Lawful(codec) && CarefulRun(codec, Initial(user, foreign), events)
    requires NoFailures(fates) && |fates| >= 9
    ensures var w := Run(codec, Initial(user, foreign), events);
      var r := Unregister(Exec(w.sys, fates, true)).0;
      && (w.sys.snapshot.None? ==> Same(w.sys.live, w.user))
      && (w.sys.snapshot.Some? ==> Holds(w.user, w.sys.snapshot.value))
      && (w.sys.cmdFile.Some? ==> Same(RunWhole(codec, w.sys).live, w.user))
      && r.alive && Same(r.sys.live, w.user) && r.sys.snapshot.None?
      && forall again :: Unregister(Exec(r.sys, again, true)).0.sys == r.sys
  {
    hide Run, Same, RunWhole, Paired, CarefulRun, Unregister, Holds, SameOutside;
    EditTrusted(codec, Initial(user, foreign).sys, user);
    RunTrusted(codec, Initial(user, foreign), events);
    var w := Run(codec, Initial(user, foreign), events);
    if w.sys.cmdFile.Some? {
      TrustedScriptRestores(codec, w.user, w.sys);
    }
    UnregisterCompletes(w.user, Exec(w.sys, fates, true));
    forall again
      ensures Unregister(Exec(Unregister(Exec(w.sys, fates, true)).0.sys, again, true)).0.sys
           == Unregister(Exec(w.sys, fates, true)).0.sys
    {
      UnregisterAgain(Unregister(Exec(w.sys, fates, true)).0.sys, again);
    }
  }

  // ----- why the condition on starts is there -----

  /** A start, or a switch, whose restore fails at its first write registers all the same, and then arms
      a script that keeps our settings. */
  lemma StartAfterFailedRestore(codec: Codec, w: World, reg: Registration)
    requires Lawful(codec) && SnapshotSafe(w.user, w.sys) && !w.sys.handle
    requires (reg.runOnce || reg.watchdog) && NormConn(w.sys.live.conn) != NormConn(w.user.conn)
    requires if w.running then w.listening else w.sys.watchdogs == 0
    ensures var fates := [Fate(false, 0)] + Oks(9);
      var ev := if w.running then Switch(Up(Some(reg)), fates) else Launch(Up(Some(reg)), fates);
      !Careful(codec, w, ev) && !Spared(codec, w.user, Step(codec, w, ev).sys)
  {
    hide Register, NormConn, SnapshotSafe, Spared;
    var fates := [Fate(false, 0)] + Oks(9);
    HasSnapshot(w.user, w.sys);
    RefusedAtOnce(w.sys, Oks(9));
    OurConnectionIsKept(codec, w.user, w.sys, reg);
    var e := Register(codec, Exec(w.sys, Oks(9), true), reg).0;
    SparedFrame(codec, w.user, e.sys, Settle(e));
  }

  lemma HasSnapshot(user: Live, s: Sys)
    requires SnapshotSafe(user, s) && NormConn(s.live.conn) != NormConn(user.conn)
    ensures s.snapshot.Some?
  {
    hide NormConn;
  }

  lemma RefusedAtOnce(s: Sys, fates: seq<Fate>)
    requires s.snapshot.Some? && !s.handle
    ensures Unregister(Exec(s, [Fate(false, 0)] + fates, true)) == (Exec(s, fates, true), false)
  {
    assert ([Fate(false, 0)] + fates)[1..] == fates;
  }

  lemma SparedFrame(codec: Codec, user: Live, s: Sys, t: Sys)
    requires t == s.(handle := t.handle)
    ensures Spared(codec, user, s) == Spared(codec, user, t)
  {
    hide Same;
    if s.cmdFile.Some? {
      var run := CutAfter(|RegEntries(s)| + |s.cmdFile.value|);
      HandleApart(codec, s, t, s.cmdFile.value, run);
    }
  }

  lemma {:induction false} HandleApart(codec: Codec, s: Sys, t: Sys, lines: seq<ScriptLine>, run: ScriptRun)
    requires t == s.(handle := t.handle)
    ensures RunLines(codec, s, lines, run).live == RunLines(codec, t, lines, run).live
    decreases |lines|
  {
    hide Import;
    if lines != [] && run.cut > 0 {
      if lines[0].ImportReg? {
        var m := Imported(s, run);
        assert m == Imported(t, run);
        if run.cut > m {
          var l := Import(codec, s.live, RegEntries(s), m);
          HandleApart(codec, s.(live := l), t.(live := l), lines[1..], run.(cut := run.cut - m));
        }
      } else {
        var s1, t1 := DoUnlessFailing(s, run, lines[0]), DoUnlessFailing(t, run, lines[0]);
        HandleApart(codec, s1, t1, lines[1..], run.(cut := run.cut - 1));
      }
    }
  }
}
