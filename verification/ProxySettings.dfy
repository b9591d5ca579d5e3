/** The data of winproxy.go: what is captured, what is saved, how a registration is described. */
module ProxySettings {
  import opened Wrappers

  const TYPE_DIRECT: bv32 := 0x1
  const TYPE_PROXY: bv32 := 0x2
  const TYPE_AUTO_PROXY_URL: bv32 := 0x4

  const HTTP_PROXY := "HTTP_PROXY"
  const HTTPS_PROXY := "HTTPS_PROXY"
  const NO_PROXY := "NO_PROXY"

  /** The per-user environment variables a registration may replace. */
  const PROXY_ENV_VARS := [HTTP_PROXY, HTTPS_PROXY, NO_PROXY]

  predicate IsProxyVar(name: string) {
    name in PROXY_ENV_VARS
  }

  /** WinINet's per-connection options of the default connection. */
  datatype Conn = Conn(flags: bv32, server: string, bypass: string, pac: string)

  type Env = map<string, string>

  /** The variables a snapshot can hold: only the proxy ones are ever captured. */
  type ProxyEnv = e: Env | forall name <- e :: IsProxyVar(name)

  /** The snapshot kept in proxy-restore.json; a missing key of `env` was not set. */
  datatype Saved = Saved(conn: Conn, env: ProxyEnv)

  datatype Mode = Pac | Static

  /** How to register: the options a profile's configuration implies. */
  datatype Registration = Registration(
    addr: string, mode: Mode, pacURL: string, envVars: bool, watchdog: bool, runOnce: bool)

  /** The value of a variable, reading a missing one as empty (Go's map lookup). */
  function Lookup(env: Env, name: string): string {
    if name in env then env[name] else ""
  }
}
