/** Whole runs: starts, profile switches, changed options, exits, deaths, reboots, the
    restore script, and the user's own edits, in any order and any number. */
module Sessions {
  import opened Wrappers
  import opened ProxySettings
  import opened ProxySystem
  import opened SnapshotSafety
  import opened CrashSafety

  /** What starting a profile brings up: nothing that listens, because the profile fails to start or
      its proxy to listen, or a proxy, with a registration unless that is off. */
  datatype Start = Down | Up(reg: Option<Registration>)

  predicate Registers(start: Start) {
    start.Up? && start.reg.Some?
  }

  datatype Event =
    | Launch(start: Start, fates: seq<Fate>)
    | Switch(start: Start, fates: seq<Fate>)
    | ApplyOutbound(reg: Option<Registration>, fates: seq<Fate>)
    | Quit(fates: seq<Fate>)
    | Kill
    | WatchdogDies(known: bool)
    | WatchdogFires(run: ScriptRun)
    | Reboot(run: ScriptRun) // orderly: what was written stays written
    | UserEdit(live: Live)

  /** `user` is what the user set. `listening` says that the running process has a listening proxy,
      `restored` that its last unregister reported no error. `want` is the last registration begun,
      less the nets that have been withdrawn or spent since. */
  datatype World = World(
    sys: Sys, user: Live, running: bool, listening: bool, restored: bool, want: Option<Registration>)

  /** A machine this program never touched, with perhaps the restore file of another. */
  function Initial(user: Live, foreign: Option<Saved>): World {
    World(Sys(user, None, foreign, None, None, false, 0, false), user, false, false, false, None)
  }

  /** The watchdog handle is a variable of the process. */
  function Exit(s: Sys): Sys {
    s.(handle := false)
  }

  function Settle(e: Exec): Sys {
    if e.alive then e.sys else Exit(e.sys)
  }

  function WithoutWatchdog(want: Option<Registration>): Option<Registration> {
    match want
    case None => None
    case Some(reg) => Some(reg.(watchdog := false))
  }

  /** Register if asked to and still alive. */
  function StartUp(codec: Codec, w: World, e: Exec, restored: bool, start: Start): World {
    if !e.alive || !Registers(start) then
      World(Settle(e), w.user, e.alive, e.alive && start.Up?, restored, WithoutWatchdog(w.want))
    else
      var e1 := Register(codec, e, start.reg.value).0;
      World(Settle(e1), w.user, e1.alive, e1.alive, restored, start.reg)
  }

  /** A watchdog may end by itself, the one the program knows or one it has forgotten. Close and
      ApplyOutbound do nothing without a listening proxy. main and startBackend register even when
      restoring failed; ApplyOutbound gives up. The user edits settings only when nothing of ours is
      left behind. */
  function Step(codec: Codec, w: World, ev: Event): World {
    match ev
    case Launch(start, fates) =>
      if w.running || w.sys.watchdogs > 0 then w else
      var (e, ok) := Unregister(Exec(w.sys, fates, true));
      StartUp(codec, w, e, ok, start)
    case Switch(start, fates) =>
      if !w.running then w
      else if !w.listening then StartUp(codec, w, Exec(w.sys, fates, true), w.restored, start)
      else
        var (e, ok) := Unregister(Exec(w.sys, fates, true));
        StartUp(codec, w, e, ok, start)
    case ApplyOutbound(reg, fates) =>
      if !w.running || !w.listening then w else
      var (e, ok) := Unregister(Exec(w.sys, fates, true));
      StartUp(codec, w, e, ok, Up(if ok then reg else None))
    case Quit(fates) =>
      if !w.running then w else
      var s := if w.listening then Unregister(Exec(w.sys, fates, true)).0.sys else w.sys;
      World(Exit(s), w.user, false, false, false, WithoutWatchdog(w.want))
    case Kill =>
      w.(sys := Exit(w.sys), running := false, listening := false)
    case WatchdogDies(known) =>
      if known && w.sys.handle && w.sys.watchdogs > 0 then
        w.(sys := w.sys.(watchdogs := w.sys.watchdogs - 1, handle := false), want := WithoutWatchdog(w.want))
      else if !known && w.sys.watchdogs > (if w.sys.handle then 1 else 0) then
        w.(sys := w.sys.(watchdogs := w.sys.watchdogs - 1), want := WithoutWatchdog(w.want))
      else w
    case WatchdogFires(run) =>
      if w.running || w.sys.watchdogs == 0 then w else
      var s := w.sys.(watchdogs := w.sys.watchdogs - 1);
      w.(sys := RunScript(codec, s, run), want := WithoutWatchdog(w.want))
    case Reboot(run) =>
      var s := w.sys.(watchdogs := 0, handle := false, runOnce := false);
      World(if w.sys.runOnce then RunScript(codec, s, run) else s, w.user, false, false, false, None)
    case UserEdit(live) =>
      if Clean(w.sys) then w.(sys := w.sys.(live := live), user := live) else w
  }

  predicate Clean(s: Sys) {
    s.snapshot.None? && s.regFile.None? && s.cmdFile.None? && !s.runOnce && s.watchdogs == 0
  }

  function Run(codec: Codec, w: World, events: seq<Event>): World
    decreases |events|
  {
    if events == [] then w else Run(codec, Step(codec, w, events[0]), events[1..])
  }

  // ----- any write may fail -----

  predicate RunsScript(ev: Event) {
    ev.WatchdogFires? || ev.Reboot?
  }

  lemma StartUpSafe(codec: Codec, w: World, e: Exec, restored: bool, start: Start)
    requires SnapshotSafe(w.user, e.sys)
    ensures SnapshotSafe(w.user, StartUp(codec, w, e, restored, start).sys)
    ensures StartUp(codec, w, e, restored, start).user == w.user
  {
    hide Register, SnapshotSafe;
    SafeFrame(w.user, e.sys, Exit(e.sys));
    if Registers(start) {
      RegisterSafe(w.user, codec, e, start.reg.value);
      var s := Register(codec, e, start.reg.value).0.sys;
      SafeFrame(w.user, s, Exit(s));
    }
  }

  lemma StepSnapshotSafe(codec: Codec, w: World, ev: Event)
    requires SnapshotSafe(w.user, w.sys) && !RunsScript(ev)
    ensures SnapshotSafe(Step(codec, w, ev).user, Step(codec, w, ev).sys)
  {
    hide Unregister, Register, StartUp, SnapshotSafe;
    SafeFrame(w.user, w.sys, Exit(w.sys));
    match ev
    case UserEdit(live) =>
      if Clean(w.sys) {
        EditSafe(w.sys, live);
      }
    case Kill =>
    case WatchdogDies(_) =>
      SafeFrame(w.user, w.sys, Step(codec, w, ev).sys);
    case Quit(fates) =>
      var e := Exec(w.sys, fates, true);
      UnregisterSafe(w.user, e);
      SafeFrame(w.user, Unregister(e).0.sys, Exit(Unregister(e).0.sys));
    case Launch(start, fates) =>
      RestartSafe(codec, w, fates, start);
    case Switch(start, fates) =>
      RestartSafe(codec, w, fates, start);
      StartUpSafe(codec, w, Exec(w.sys, fates, true), w.restored, start);
    case ApplyOutbound(reg, fates) =>
      RestartSafe(codec, w, fates, Up(reg));
      RestartSafe(codec, w, fates, Up(None));
  }

  lemma RestartSafe(codec: Codec, w: World, fates: seq<Fate>, start: Start)
    requires SnapshotSafe(w.user, w.sys)
    ensures var (e, ok) := Unregister(Exec(w.sys, fates, true));
      var r := StartUp(codec, w, e, ok, start);
      SnapshotSafe(w.user, r.sys) && r.user == w.user
  {
    hide Unregister, StartUp, SnapshotSafe;
    var (e, ok) := Unregister(Exec(w.sys, fates, true));
    UnregisterSafe(w.user, Exec(w.sys, fates, true));
    StartUpSafe(codec, w, e, ok, start);
  }

  lemma EditSafe(s: Sys, live: Live)
    requires s.snapshot.None?
    ensures SnapshotSafe(live, s.(live := live))
  {
  }

  /** Whatever writes fail and wherever the process dies, over any run in which no script
      runs: a snapshot holds the user's settings, and without one they are in place. */
  lemma {:induction false} FailuresNeverLoseSettings(codec: Codec, w: World, events: seq<Event>)
    requires SnapshotSafe(w.user, w.sys)
    requires forall ev <- events :: !RunsScript(ev)
    ensures var r := Run(codec, w, events); SnapshotSafe(r.user, r.sys)
    decreases |events|
  {
    hide Step;
    if events != [] {
      StepSnapshotSafe(codec, w, events[0]);
      FailuresNeverLoseSettings(codec, Step(codec, w, events[0]), events[1..]);
    }
  }

  // ----- deaths and cut scripts -----

  /** No write and no command of the event fails, but its process or its script may be cut short. */
  ghost predicate CrashOnly(ev: Event) {
    match ev
    case Launch(_, fates) => NoFailures(fates)
    case Switch(_, fates) => NoFailures(fates)
    case ApplyOutbound(_, fates) => NoFailures(fates)
    case Quit(fates) => NoFailures(fates)
    case WatchdogFires(run) => OnlyCut(run)
    case Reboot(run) => OnlyCut(run)
    case _ => true
  }

  /** The nets still wanted are armed while the settings are not the user's. */
  ghost predicate NetsUp(w: World) {
    !Same(w.sys.live, w.user) && w.want.Some? ==>
      (w.want.value.runOnce ==> w.sys.runOnce) && (w.want.value.watchdog ==> w.sys.watchdogs == 1)
  }

  ghost predicate CrashSafe(codec: Codec, w: World) {
    && Recoverable(codec, w.user, w.sys)
    && (if w.running then w.sys.handle <==> w.sys.watchdogs == 1 else !w.sys.handle)
    && (w.running && !w.listening ==> w.sys.snapshot.None? && w.sys.watchdogs == 0)
    && NetsUp(w)
  }

  lemma RecoverableExit(codec: Codec, user: Live, s: Sys)
    requires Recoverable(codec, user, s)
    ensures Recoverable(codec, user, Exit(s))
  {
    hide Good, Same, SnapshotSafe;
    SafeFrame(user, s, Exit(s));
  }

  lemma NoSnapshotSame(user: Live, s: Sys)
    requires SnapshotSafe(user, s) && s.snapshot.None?
    ensures Same(s.live, user)
  {
    hide Same;
  }

  /** Starting up once everything is restored. */
  lemma StartUpCrash(codec: Codec, w: World, e: Exec, restored: bool, start: Start)
    requires Lawful(codec) && AllOk(e) && e.alive && Recoverable(codec, w.user, e.sys)
    requires e.sys.snapshot.None? && e.sys.watchdogs == 0 && !e.sys.handle
    ensures CrashSafe(codec, StartUp(codec, w, e, restored, start))
  {
    hide Register, Good, Same, Held;
    NoSnapshotSame(w.user, e.sys);
    if Registers(start) {
      RegisterNeverExposed(codec, w.user, e, start.reg.value);
      var e1 := Register(codec, e, start.reg.value).0;
      RecoverableExit(codec, w.user, e1.sys);
    }
  }

  lemma RestartCrash(codec: Codec, w: World, fates: seq<Fate>, start: Start)
    requires Lawful(codec) && NoFailures(fates) && CrashSafe(codec, w)
    requires w.sys.handle <==> w.sys.watchdogs == 1
    ensures var (e, ok) := Unregister(Exec(w.sys, fates, true));
      CrashSafe(codec, StartUp(codec, w, e, ok, start)) && (e.alive ==> ok)
  {
    hide Unregister, Register, Good, Same, SnapshotSafe, Held;
    var e0 := Exec(w.sys, fates, true);
    UnregisterCrash(codec, w.user, e0);
    var (e, ok) := Unregister(e0);
    if e.alive {
      StartUpCrash(codec, w, e, ok, start);
    } else {
      RecoverableExit(codec, w.user, e.sys);
    }
  }

  lemma QuitCrash(codec: Codec, w: World, fates: seq<Fate>)
    requires Lawful(codec) && NoFailures(fates) && CrashSafe(codec, w) && w.running
    ensures CrashSafe(codec, Step(codec, w, Quit(fates)))
  {
    hide Unregister, Good, Same, SnapshotSafe;
    RecoverableExit(codec, w.user, w.sys);
    var e0 := Exec(w.sys, fates, true);
    UnregisterCrash(codec, w.user, e0);
    RecoverableExit(codec, w.user, Unregister(e0).0.sys);
  }

  lemma ScriptCrash(codec: Codec, w: World, s: Sys, run: ScriptRun)
    requires Lawful(codec) && CrashSafe(codec, w) && OnlyCut(run)
    requires w.sys.runOnce || w.sys.watchdogs > 0
    requires s == w.sys.(watchdogs := 0, handle := false, runOnce := s.runOnce) && (s.runOnce ==> w.sys.runOnce)
    ensures var r := RunScript(codec, s, run);
      && Recoverable(codec, w.user, r) && !r.handle
      && (!Same(r.live, w.user) ==> r.runOnce == s.runOnce)
      && (Same(w.sys.live, w.user) ==> Same(r.live, w.user))
  {
    hide Good, Same, SnapshotSafe, RegEntries, Import, RunLines;
    SafeFrame(w.user, w.sys, s);
    ScriptKeepsRecoverable(codec, w.user, s, run);
    if s.cmdFile.Some? {
      ScriptOutcome(codec, s, run);
      OutsideSame(w.user, s);
      ImportGood(codec, w.user, s, Min(run.cut, |RegEntries(s)|));
    }
  }

  lemma StepCrashSafe(codec: Codec, w: World, ev: Event)
    requires Lawful(codec) && CrashSafe(codec, w) && CrashOnly(ev)
    ensures CrashSafe(codec, Step(codec, w, ev))
  {
    hide Unregister, Register, StartUp, Good, Same, SnapshotSafe, RunScript;
    match ev
    case Launch(start, fates) =>
      if !w.running && w.sys.watchdogs == 0 {
        RestartCrash(codec, w, fates, start);
      }
    case Switch(start, fates) =>
      if w.running && w.listening {
        RestartCrash(codec, w, fates, start);
      } else if w.running {
        StartUpCrash(codec, w, Exec(w.sys, fates, true), w.restored, start);
      }
    case ApplyOutbound(reg, fates) =>
      if w.running && w.listening {
        RestartCrash(codec, w, fates, Up(reg));
        RestartCrash(codec, w, fates, Up(None));
      }
    case Quit(fates) =>
      if w.running {
        QuitCrash(codec, w, fates);
      }
    case Kill =>
      RecoverableExit(codec, w.user, w.sys);
    case WatchdogDies(_) =>
      SafeFrame(w.user, w.sys, Step(codec, w, ev).sys);
    case WatchdogFires(run) =>
      if !w.running && w.sys.watchdogs > 0 {
        ScriptCrash(codec, w, w.sys.(watchdogs := w.sys.watchdogs - 1), run);
      }
    case Reboot(run) =>
      var s := w.sys.(watchdogs := 0, handle := false, runOnce := false);
      SafeFrame(w.user, w.sys, s);
      if w.sys.runOnce {
        ScriptCrash(codec, w, s, run);
      }
    case UserEdit(live) =>
      if Clean(w.sys) {
        EditSafe(w.sys, live);
        SameSelf(live);
      }
  }

  lemma SameSelf(l: Live)
    ensures Same(l, l)
  {
  }

  lemma {:induction false} RunCrashSafe(codec: Codec, w: World, events: seq<Event>)
    requires Lawful(codec) && CrashSafe(codec, w)
    requires forall ev <- events :: CrashOnly(ev)
    ensures CrashSafe(codec, Run(codec, w, events))
    decreases |events|
  {
    hide Step, CrashSafe, CrashOnly, Lawful;
    if events != [] {
      StepCrashSafe(codec, w, events[0]);
      RunCrashSafe(codec, Step(codec, w, events[0]), events[1..]);
    }
  }

  /** Crash safety over whole runs, from a machine this program never touched. In every
      reachable state: without a snapshot the user's settings are in place, and a snapshot
      holds them; and while they are not in place every net still wanted is armed with a
      script that, run to its end, puts them back and cleans up. */
  lemma SettingsSurviveCrashes(codec: Codec, user: Live, foreign: Option<Saved>, events: seq<Event>)
    requires Lawful(codec) && forall ev <- events :: CrashOnly(ev)
    ensures var w := Run(codec, Initial(user, foreign), events);
      && (w.sys.snapshot.None? ==> Same(w.sys.live, w.user))
      && (w.sys.snapshot.Some? ==> Holds(w.user, w.sys.snapshot.value))
      && (!Same(w.sys.live, w.user) ==>
            && NetsUp(w)
            && w.sys.cmdFile.Some?
            && Same(RunWhole(codec, w.sys).live, w.user)
            && Clean(RunWhole(codec, w.sys).(watchdogs := 0)))
  {
    hide Run, Good, Same, RunWhole, SameOutside, Holds;
    SameSelf(user);
    RunCrashSafe(codec, Initial(user, foreign), events);
    var w := Run(codec, Initial(user, foreign), events);
    if !Same(w.sys.live, w.user) {
      WholeScriptRestores(codec, w.user, w.sys);
    }
  }

  /** Recovery completes: however a run of any failures ended, one unregister that meets no
      failure and does not die ends with the user's settings and no snapshot, and then another
      one changes nothing. Nine writes are enough for it not to die. */
  lemma RecoveryCompletes(codec: Codec, w: World, events: seq<Event>, fates: seq<Fate>, again: seq<Fate>)
    requires SnapshotSafe(w.user, w.sys)
    requires forall ev <- events :: !RunsScript(ev)
    requires NoFailures(fates)
    ensures var s := Run(codec, w, events).sys;
      var r := Unregister(Exec(s, fates, true)).0;
      && (|fates| >= 9 ==> r.alive)
      && (r.alive ==> Same(r.sys.live, Run(codec, w, events).user) && r.sys.snapshot.None?)
      && (r.alive ==> Unregister(Exec(r.sys, again, true)).0.sys == r.sys)
  {
    hide Run, Unregister, SnapshotSafe, Same;
    FailuresNeverLoseSettings(codec, w, events);
    var v := Run(codec, w, events);
    UnregisterCompletes(v.user, Exec(v.sys, fates, true));
    if Unregister(Exec(v.sys, fates, true)).0.alive {
      UnregisterAgain(Unregister(Exec(v.sys, fates, true)).0.sys, again);
    }
  }

  /** However a crash-only run ended, and wherever its script was cut, the next start that
      gets through its restore has the user's settings back. */
  lemma NextStartHeals(codec: Codec, user: Live, foreign: Option<Saved>, events: seq<Event>, fates: seq<Fate>)
    requires Lawful(codec) && NoFailures(fates) && forall ev <- events :: CrashOnly(ev)
    ensures var w := Run(codec, Initial(user, foreign), events);
      var next := Step(codec, w, Launch(Down, fates));
      !w.running && w.sys.watchdogs == 0 ==>
        && (|fates| >= 9 ==> next.running)
        && (next.running ==> Same(next.sys.live, next.user) && next.sys.snapshot.None?)
        && (next.running ==> forall again :: Unregister(Exec(next.sys, again, true)).0.sys == next.sys)
  {
    hide Run, Good, Same, Unregister, Held;
    SameSelf(user);
    EditSafe(Initial(user, foreign).sys, user);
    RunCrashSafe(codec, Initial(user, foreign), events);
    var w := Run(codec, Initial(user, foreign), events);
    if !w.running && w.sys.watchdogs == 0 {
      UnregisterCompletes(w.user, Exec(w.sys, fates, true));
      var next := Step(codec, w, Launch(Down, fates));
      if next.running {
        forall again ensures Unregister(Exec(next.sys, again, true)).0.sys == next.sys {
          UnregisterAgain(next.sys, again);
        }
      }
    }
  }

  /** An event of a process with a listening proxy that gives up the registration without a new one. */
  predicate Leaves(ev: Event, fates: seq<Fate>) {
    ev == Quit(fates) || ev == Switch(Down, fates) || ev == Switch(Up(None), fates) || ev == ApplyOutbound(None, fates)
  }

  /** Such an event, unless it fails or dies, restores the user's settings, whatever came before. */
  lemma LeavingRestores(codec: Codec, w: World, ev: Event, fates: seq<Fate>)
    requires SnapshotSafe(w.user, w.sys) && w.running && w.listening
    requires Leaves(ev, fates) && NoFailures(fates) && |fates| >= 9
    ensures var next := Step(codec, w, ev);
      Same(next.sys.live, w.user) && next.sys.snapshot.None? && next.user == w.user
  {
    hide Unregister, Register, Same, SnapshotSafe;
    UnregisterCompletes(w.user, Exec(w.sys, fates, true));
  }
}
