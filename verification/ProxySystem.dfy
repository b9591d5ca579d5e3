/** The machine the proxy registration acts on, and registerSystemProxy and
    unregisterSystemProxy as sequences of atomic writes, any of which may fail and between
    any two of which the process may die. */
module ProxySystem {
  import opened Wrappers
  import opened ProxySettings
  import opened RegFile

  /** The settings a user cares about: the default connection and the user's environment. */
  datatype Live = Live(conn: Conn, env: Env)

  /** How WinINet packs a connection into its registry blob; only its invertibility matters. */
  datatype Codec = Codec(encode: Conn -> seq<byte>, decode: seq<byte> -> Conn)

  ghost predicate Lawful(codec: Codec) {
    forall c :: codec.decode(codec.encode(c)) == c
  }

  /** The commands of restore-proxy.cmd. */
  datatype ScriptLine = ImportReg | DeleteRunOnce | DeleteSnapshot | DeleteRegFile | DeleteSelf

  /** restoreCmdFile: import first, forget the snapshot only then, remove the script last. */
  const RESTORE_SCRIPT := [ImportReg, DeleteRunOnce, DeleteSnapshot, DeleteRegFile, DeleteSelf]

  /** `snapshot` is what the restore file holds for this machine and user, `foreign` what it holds for
      another, so there is never more than one of them. `watchdogs` counts the watchdog processes
      waiting for this process to exit; `handle` says that the program's watchdogCmd variable refers
      to one that has not ended. */
  datatype Sys = Sys(
    live: Live,
    snapshot: Option<Saved>,
    foreign: Option<Saved>,
    regFile: Option<string>,
    cmdFile: Option<seq<ScriptLine>>,
    runOnce: bool,
    watchdogs: nat,
    handle: bool)

  // ----- atomic writes -----

  datatype Action =
    | SaveSnapshot(s: Saved)
    | RemoveSnapshot
    | WriteReg(text: string)
    | RemoveReg
    | WriteCmd(lines: seq<ScriptLine>)
    | RemoveCmd
    | InstallRunOnce
    | RemoveRunOnce
    | SpawnWatchdog
    | KillWatchdog
    | SetConn(c: Conn)
    | SetVar(name: string, val: string)

  /** An empty value deletes the variable. */
  function WithVar(env: Env, name: string, val: string): Env {
    if val == "" then env - {name} else env[name := val]
  }

  function Apply(a: Action, s: Sys): Sys {
    match a
    case SaveSnapshot(p) => s.(snapshot := Some(p), foreign := None)
    case RemoveSnapshot => s.(snapshot := None, foreign := None)
    case WriteReg(text) => s.(regFile := Some(text))
    case RemoveReg => s.(regFile := None)
    case WriteCmd(lines) => s.(cmdFile := Some(lines))
    case RemoveCmd => s.(cmdFile := None)
    case InstallRunOnce => s.(runOnce := true)
    case RemoveRunOnce => s.(runOnce := false)
    case SpawnWatchdog => s.(watchdogs := s.watchdogs + 1, handle := true)
    case KillWatchdog => s.(watchdogs := if s.watchdogs == 0 then 0 else s.watchdogs - 1)
    case SetConn(c) => s.(live := s.live.(conn := c))
    case SetVar(name, val) => s.(live := s.live.(env := WithVar(s.live.env, name, val)))
  }

  // ----- running under failures -----

  /** What happens at one write: whether it succeeds, and which of the remaining variables
      Go's map iteration picks next where a loop over a map does the write. */
  datatype Fate = Fate(ok: bool, pick: nat)

  /** A running process; it dies when its fates run out. */
  datatype Exec = Exec(sys: Sys, fates: seq<Fate>, alive: bool)

  function Do(e: Exec, a: Action): (Exec, bool) {
    if !e.alive then (e, false)
    else if e.fates == [] then (e.(alive := false), false)
    else if e.fates[0].ok then (Exec(Apply(a, e.sys), e.fates[1..], true), true)
    else (e.(fates := e.fates[1..]), false)
  }

  function Pick(e: Exec, n: nat): (i: nat)
    requires n > 0
    ensures i < n
  {
    if e.fates == [] then 0 else e.fates[0].pick % n
  }

  /** setUserEnv: stops at the first failure. */
  function SetUserEnv(e: Exec, vars: Env, todo: seq<string>): (Exec, bool)
    requires forall name <- todo :: name in vars
    decreases |todo|
  {
    if todo == [] then (e, true) else
    var i := Pick(e, |todo|);
    var (e1, ok) := Do(e, SetVar(todo[i], vars[todo[i]]));
    if !ok then (e1, false) else SetUserEnv(e1, vars, todo[..i] + todo[i + 1..])
  }

  function StartWatchdog(e: Exec): Exec {
    if e.sys.handle then e else Do(e, SpawnWatchdog).0
  }

  /** stopWatchdog forgets the watchdog even when killing it fails. */
  function StopWatchdog(e: Exec): Exec {
    if !e.sys.handle then e else
    var e1 := Do(e, KillWatchdog).0;
    if e1.alive then e1.(sys := e1.sys.(handle := false)) else e1
  }

  // ----- capture and restore -----

  function Capture(l: Live): Saved {
    Saved(l.conn, map name | name in PROXY_ENV_VARS && name in l.env :: l.env[name])
  }

  /** Flags 0 are restored as a direct connection. */
  function NormConn(c: Conn): Conn {
    if c.flags == 0 then c.(flags := TYPE_DIRECT) else c
  }

  function RestoreVars(p: Saved): Env {
    (map name | name in PROXY_ENV_VARS :: "") + p.env
  }

  function Restore(e: Exec, p: Saved): (Exec, bool) {
    var (e1, ok) := Do(e, SetConn(NormConn(p.conn)));
    if !ok then (e1, false) else SetUserEnv(e1, RestoreVars(p), PROXY_ENV_VARS)
  }

  function RemoveCrashRestore(e: Exec): Exec {
    var (e1, ok1) := Do(e, RemoveRunOnce);
    if !ok1 then e1 else
    var (e2, ok2) := Do(e1, RemoveCmd);
    if !ok2 then e2 else Do(e2, RemoveReg).0
  }

  function Unregister(e: Exec): (Exec, bool) {
    if e.sys.snapshot.None? then (StopWatchdog(e), true) else
    var p := e.sys.snapshot.value;
    var (e1, ok) := Restore(StopWatchdog(e), p);
    if !ok then (e1, false) else (RemoveCrashRestore(Do(e1, RemoveSnapshot).0), true)
  }

  // ----- register -----

  const PROXY_BYPASS_LIST := "localhost;127.*;[::1]"
  const NO_PROXY_LIST := "localhost,127.0.0.1,::1"

  function RegisteredConn(reg: Registration): Conn {
    match reg.mode
    case Static => Conn(TYPE_DIRECT | TYPE_PROXY, "http=" + reg.addr + ";https=" + reg.addr, PROXY_BYPASS_LIST, "")
    case Pac => Conn(TYPE_DIRECT | TYPE_AUTO_PROXY_URL, "", "", reg.pacURL)
  }

  function RegisteredVars(reg: Registration, p: Saved): Env {
    if reg.envVars then
      var url := "http://" + reg.addr;
      map[HTTP_PROXY := url, HTTPS_PROXY := url, NO_PROXY := NO_PROXY_LIST]
    else
      map name | name in PROXY_ENV_VARS :: Lookup(p.env, name)
  }

  /** The .reg text for a snapshot, with the connection blob as it is right now. */
  function RestoreFileNow(codec: Codec, s: Sys, p: Saved): string {
    RestoreText(p, Some(codec.encode(s.live.conn)))
  }

  /** writeCrashRestoreFiles: the script only after the file it imports. */
  function WriteCrashRestoreFiles(e: Exec, text: string): Exec {
    var (e1, ok) := Do(e, WriteReg(text));
    if !ok then e1 else Do(e1, WriteCmd(RESTORE_SCRIPT)).0
  }

  function SetRunOnce(e: Exec, on: bool): Exec {
    Do(e, if on then InstallRunOnce else RemoveRunOnce).0
  }

  function SetWatchdog(e: Exec, on: bool): Exec {
    if on then StartWatchdog(e) else StopWatchdog(e)
  }

  /** The safety nets, put in place before the settings change. */
  function InstallNets(e: Exec, reg: Registration, text: string): Exec {
    SetWatchdog(SetRunOnce(WriteCrashRestoreFiles(e, text), reg.runOnce), reg.watchdog)
  }

  function ChangeSettings(e: Exec, reg: Registration, p: Saved): (Exec, bool) {
    var (e1, ok) := Do(e, SetConn(RegisteredConn(reg)));
    if !ok then (e1, false) else (SetUserEnv(e1, RegisteredVars(reg, p), PROXY_ENV_VARS).0, true)
  }

  function Register(codec: Codec, e: Exec, reg: Registration): (Exec, bool) {
    if e.sys.snapshot.Some? then
      var p := e.sys.snapshot.value;
      ChangeSettings(InstallNets(e, reg, RestoreFileNow(codec, e.sys, p)), reg, p)
    else
      var p := Capture(e.sys.live);
      var (e1, ok) := Do(e, SaveSnapshot(p));
      if !ok then (e1, false) else ChangeSettings(InstallNets(e1, reg, RestoreFileNow(codec, e1.sys, p)), reg, p)
  }

  /** ApplyOutbound with a listening proxy: restore, and only then register anew. */
  function Reapply(codec: Codec, e: Exec, reg: Option<Registration>): (Exec, bool) {
    var (e1, ok) := Unregister(e);
    if ok && reg.Some? then Register(codec, e1, reg.value) else (e1, ok)
  }

  // ----- the restore script -----

  /** The effect of one imported assignment. Readers of the settings follow the connection
      blob, so the legacy values of the Internet Settings key change nothing here. */
  function ImportEntry(codec: Codec, l: Live, en: Entry): Live {
    if en.key == KEY_ENVIRONMENT then
      match en.value
      case Delete => l.(env := WithVar(l.env, en.name, ""))
      case Sz(v) => l.(env := l.env[en.name := v])
      case _ => l
    else if en.key == KEY_CONNECTIONS && en.name == CONNECTION_BLOB && en.value.Binary? then
      l.(conn := codec.decode(en.value.bytes))
    else l
  }

  /** Importing the first k assignments. */
  function Import(codec: Codec, l: Live, entries: seq<Entry>, k: nat): Live
    requires k <= |entries|
  {
    if k == 0 then l else ImportEntry(codec, Import(codec, l, entries, k - 1), entries[k - 1])
  }

  /** What `reg import` would do now: nothing when the file is missing or unreadable. */
  function RegEntries(s: Sys): seq<Entry> {
    if s.regFile.Some? && ParseReg(s.regFile.value).Some? then ParseReg(s.regFile.value).value else []
  }

  function DoLine(s: Sys, line: ScriptLine): Sys {
    match line
    case ImportReg => s
    case DeleteRunOnce => s.(runOnce := false)
    case DeleteSnapshot => s.(snapshot := None, foreign := None)
    case DeleteRegFile => s.(regFile := None)
    case DeleteSelf => s.(cmdFile := None)
  }

  /** How one run of a script goes. It is cut short after `cut` assignments and deletions; its
      import gives up after `importFails` assignments, if that says so; and its deletions in
      `failing` do nothing. The script sends every error to nul and goes on. */
  datatype ScriptRun = ScriptRun(cut: nat, importFails: Option<nat>, failing: set<ScriptLine>)

  /** A run in which every command works as far as it gets. */
  function CutAfter(cut: nat): ScriptRun {
    ScriptRun(cut, None, {})
  }

  /** How many assignments the import of an uncut run makes. */
  function Imported(s: Sys, run: ScriptRun): (m: nat)
    ensures m <= |RegEntries(s)|
  {
    var n := |RegEntries(s)|;
    if run.importFails.Some? && run.importFails.value < n then run.importFails.value else n
  }

  function RunLines(codec: Codec, s: Sys, lines: seq<ScriptLine>, run: ScriptRun): Sys
    decreases |lines|
  {
    if lines == [] || run.cut == 0 then s
    else if lines[0].ImportReg? then
      var m := Imported(s, run);
      if run.cut <= m then s.(live := Import(codec, s.live, RegEntries(s), run.cut))
      else RunLines(codec, s.(live := Import(codec, s.live, RegEntries(s), m)), lines[1..], run.(cut := run.cut - m))
    else
      RunLines(codec, if lines[0] in run.failing then s else DoLine(s, lines[0]), lines[1..], run.(cut := run.cut - 1))
  }

  function RunScript(codec: Codec, s: Sys, run: ScriptRun): Sys {
    if s.cmdFile.None? then s else RunLines(codec, s, s.cmdFile.value, run)
  }

  /** The script run to its end without a failure. */
  function RunWhole(codec: Codec, s: Sys): Sys {
    if s.cmdFile.None? then s else RunScript(codec, s, CutAfter(|RegEntries(s)| + |s.cmdFile.value|))
  }
}
