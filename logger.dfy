/** The level filter of the console logger and the choice of level
    (src/utils/logger.ts). The configured level is a string, since
    `LOG_LEVEL` reaches it unchecked; the level of each call is one of the five. */
module Logger {
  import opened Wrappers
  import opened Types

  datatype LogLevel = Trace | Debug | Info | Warn | Error

  const Levels: seq<string> := ["trace", "debug", "info", "warn", "error"]

  function Name(l: LogLevel): string {
    match l
    case Trace => "trace"
    case Debug => "debug"
    case Info => "info"
    case Warn => "warn"
    case Error => "error"
  }

  /** `levels.indexOf(s)`: the position of `s`, or -1 when it is none of them. */
  function IndexOf(s: string): (r: int)
    ensures -1 <= r < |Levels|
    ensures r == -1 <==> s !in Levels
    ensures r >= 0 ==> Levels[r] == s
  {
    if s == "trace" then 0
    else if s == "debug" then 1
    else if s == "info" then 2
    else if s == "warn" then 3
    else if s == "error" then 4
    else -1
  }

  /** The position of a call's level in the order trace < debug < info < warn < error. */
  function Rank(l: LogLevel): (r: nat)
    ensures r < |Levels| && Levels[r] == Name(l)
  {
    IndexOf(Name(l))
  }

  /** `shouldLog`: a call is logged iff its level is not below the configured one. */
  function ShouldLog(configured: string, target: LogLevel): (r: bool)
    ensures configured !in Levels ==> r
    ensures configured in Levels ==> (r <==> Rank(target) >= IndexOf(configured))
  {
    Rank(target) >= IndexOf(configured)
  }

  /** The configured level itself is logged, and so is every error. */
  lemma OwnLevelAndErrorsLogged(configured: LogLevel)
    ensures ShouldLog(Name(configured), configured)
    ensures ShouldLog(Name(configured), Error)
  {
  }

  /** Logging is upward closed: a level that is logged makes every higher
      level logged too. */
  lemma Monotone(configured: string, t: LogLevel, u: LogLevel)
    requires ShouldLog(configured, t) && Rank(t) <= Rank(u)
    ensures ShouldLog(configured, u)
  {
  }

  /** The filter agrees with the order of the level names: with a recognised
      configuration, `t` is logged iff `t` comes no earlier than it. */
  lemma ShouldLogOrder(configured: LogLevel, target: LogLevel)
    ensures ShouldLog(Name(configured), target) <==> Rank(configured) <= Rank(target)
  {
  }

  /** `level || process.env.LOG_LEVEL || 'info'`. */
  function SelectLevel(arg: Option<string>, env: Option<string>): (r: string)
    ensures r != ""
    ensures Truthy(arg) ==> r == arg.value
    ensures !Truthy(arg) && Truthy(env) ==> r == env.value
    ensures !Truthy(arg) && !Truthy(env) ==> r == "info"
  {
    if Truthy(arg) then arg.value else if Truthy(env) then env.value else "info"
  }

  /** With neither an argument nor `LOG_LEVEL`, trace and debug calls are
      dropped and every other level is logged. */
  lemma DefaultLevelFilters(arg: Option<string>, env: Option<string>, t: LogLevel)
    requires !Truthy(arg) && !Truthy(env)
    ensures ShouldLog(SelectLevel(arg, env), t) <==> t != Trace && t != Debug
  {
  }
}
