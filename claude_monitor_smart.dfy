/**
 * The smart wrapper's routing decision: show help, show the daemon status,
 * or run either the daemon-backed client or the original monitor, from the
 * command-line arguments and whether the daemon looks alive.
 */
module SmartMonitor {
  import opened Wrappers

  /** The flags the wrapper itself understands; everything else goes to the original monitor. */
  const DAEMON_INFO: string := "--daemon-info"
  const FORCE_DIRECT: string := "--force-direct"
  const FORCE_DAEMON: string := "--force-daemon"

  predicate IsWrapperFlag(arg: string)
  {
    arg == DAEMON_INFO || arg == FORCE_DIRECT || arg == FORCE_DAEMON
  }

  /** The arguments `parse_known_args` leaves over, in their order. */
  function Remaining(args: seq<string>): (rest: seq<string>)
    ensures |rest| <= |args|
  {
    if args == [] then []
    else if IsWrapperFlag(args[|args| - 1]) then Remaining(args[..|args| - 1])
    else Remaining(args[..|args| - 1]) + [args[|args| - 1]]
  }

  /** The leftover arguments are exactly the arguments that are not wrapper flags. */
  lemma {:induction false} RemainingMembers(args: seq<string>, a: string)
    ensures a in Remaining(args) <==> a in args && !IsWrapperFlag(a)
  {
    if args != [] {
      var init := args[..|args| - 1];
      RemainingMembers(init, a);
      assert args == init + [args[|args| - 1]];
    }
  }

  /** A message printed before routing when a forcing flag overrides what was detected. */
  datatype Notice = ForcedDaemonNotDetected | DirectWhileDaemonRuns

  /** Where `main` goes. */
  datatype Route =
    | WrapperHelp                   // the wrapper's own help, then the original monitor with `--help`
    | DaemonInfo(running: bool)     // the daemon status report
    | NewClient                     // the client that reads the daemon's data file
    | Original(args: seq<string>)   // the original monitor with these arguments

  datatype Decision = Decision(route: Route, notice: Option<Notice>)

  /** The forcing flags win over detection, `--force-daemon` over `--force-direct`. */
  function UseDaemonMode(args: seq<string>, daemonRunning: bool): (useDaemon: bool)
    ensures FORCE_DAEMON in args ==> useDaemon
    ensures FORCE_DAEMON !in args && FORCE_DIRECT in args ==> !useDaemon
    ensures FORCE_DAEMON !in args && FORCE_DIRECT !in args ==> useDaemon == daemonRunning
  {
    if FORCE_DAEMON in args then true
    else if FORCE_DIRECT in args then false
    else daemonRunning
  }

  /**
   * `SmartClaudeMonitor.main`: `args` are the command-line arguments after
   * the program name, `daemonRunning` the data file's freshness check.
   */
  function Main(args: seq<string>, daemonRunning: bool): Decision
  {
    if "--help" in args || "-h" in args then Decision(WrapperHelp, None)
    else if DAEMON_INFO in args then Decision(DaemonInfo(daemonRunning), None)
    else
      var notice :=
        if FORCE_DAEMON in args then (if !daemonRunning then Some(ForcedDaemonNotDetected) else None)
        else if FORCE_DIRECT in args then (if daemonRunning then Some(DirectWhileDaemonRuns) else None)
        else None;
      var rest := Remaining(args);
      if UseDaemonMode(args, daemonRunning) && "--test-alert" !in rest then Decision(NewClient, notice)
      else Decision(Original(rest), notice)
  }

  /**
   * Help wins over everything, then `--daemon-info`; otherwise the daemon
   * client runs exactly in daemon mode without `--test-alert`, and the
   * original monitor gets every argument that is not a wrapper flag.
   */
  lemma MainRoutes(args: seq<string>, daemonRunning: bool)
    ensures "--help" in args || "-h" in args ==> Main(args, daemonRunning).route == WrapperHelp
    ensures "--help" !in args && "-h" !in args && DAEMON_INFO in args
            ==> Main(args, daemonRunning).route == DaemonInfo(daemonRunning)
    ensures "--help" !in args && "-h" !in args && DAEMON_INFO !in args ==>
      (Main(args, daemonRunning).route == NewClient <==> UseDaemonMode(args, daemonRunning) && "--test-alert" !in args)
    ensures Main(args, daemonRunning).route.Original? ==>
      forall a :: a in Main(args, daemonRunning).route.args <==> a in args && !IsWrapperFlag(a)
  {
    forall a
      ensures a in Remaining(args) <==> a in args && !IsWrapperFlag(a)
    {
      RemainingMembers(args, a);
    }
  }

  /** A notice is printed exactly when a forcing flag goes against what was detected. */
  lemma MainNotices(args: seq<string>, daemonRunning: bool)
    requires "--help" !in args && "-h" !in args && DAEMON_INFO !in args
    ensures Main(args, daemonRunning).notice == Some(ForcedDaemonNotDetected) <==> FORCE_DAEMON in args && !daemonRunning
    ensures Main(args, daemonRunning).notice == Some(DirectWhileDaemonRuns)
            <==> FORCE_DAEMON !in args && FORCE_DIRECT in args && daemonRunning
  {
  }
}
