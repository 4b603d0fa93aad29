/**
 * The state machine of `trading::PythonLauncher`
 * (C++/src/include/python_launcher.h) as transition functions on its
 * state. The implementation file of the launcher is not part of this
 * model, so what the operating system does (whether the spawn works,
 * whether and how the child exits, whether it obeys SIGTERM within the
 * shutdown timeout) enters every transition as an explicit outcome, and
 * the transitions are the ones the header's documentation promises.
 * A callback invocation is recorded as an event appended to a log.
 */
module Supervisor {

  /** `ProcessState` */
  datatype ProcessState = NotStarted | Running | Terminated | Crashed | FailedToStart

  /** `Config`; the timeouts are in seconds. */
  datatype Config = Config(
    scriptPath: string,
    pythonExecutable: string,
    arguments: seq<string>,
    workingDirectory: string,
    startupTimeoutSeconds: int,
    shutdownTimeoutSeconds: int,
    autoRestart: bool,
    maxRestartAttempts: int)

  /** The configuration a launcher built from a script path alone gets. */
  function DefaultConfig(scriptPath: string): (c: Config)
    ensures c.scriptPath == scriptPath && c.arguments == []
    ensures c.pythonExecutable == "python3" && c.workingDirectory == "."
    ensures c.startupTimeoutSeconds == 5 && c.shutdownTimeoutSeconds == 10
    ensures !c.autoRestart && c.maxRestartAttempts == 3
  {
    Config(scriptPath, "python3", [], ".", 5, 10, false, 3)
  }

  /** A process id of a live child. */
  type Pid = p: int | p > 0 witness 1

  /** What `get_pid` reports when there is no running process. */
  const NoPid: int := -1

  const SIGKILL: int := 9

  /** How a child ended, as `waitpid` reports it. */
  datatype ExitStatus = Exited(code: int) | Signaled(signal: int)

  /** A normal exit is exit code 0; any other code or a signal is a crash. */
  predicate IsNormalExit(s: ExitStatus) { s == Exited(0) }

  /** One invocation of a registered callback. */
  datatype Event =
    | StartedEvent(pid: int)
    | TerminatedEvent(pid: int, status: ExitStatus)
    | CrashedEvent(pid: int, status: ExitStatus)

  /** Which of `on_started_`, `on_terminated_`, `on_crashed_` are set. */
  datatype Callbacks = Callbacks(onStarted: bool, onTerminated: bool, onCrashed: bool)

  /** What launching the child leads to within the startup timeout. */
  datatype SpawnOutcome = Spawned(pid: Pid) | SpawnFailed

  /** What one non-blocking wait on a running child reports. */
  datatype PollOutcome = StillRunning | Reaped(status: ExitStatus)

  /** What the child does after SIGTERM within the shutdown timeout. */
  datatype StopOutcome = ExitedInTime(status: ExitStatus) | ShutdownTimedOut

  /** The fields the operations change: `state_`, `process_pid_`, `restart_count_`, and the callback log. */
  datatype Supervised = Supervised(state: ProcessState, pid: int, restartCount: int, events: seq<Event>)

  /** A freshly constructed launcher. */
  const Initial: Supervised := Supervised(NotStarted, NoPid, 0, [])

  /** Invokes a callback if it is registered. */
  function Fire(registered: bool, events: seq<Event>, e: Event): seq<Event>
  {
    if registered then events + [e] else events
  }

  /**
   * What every launcher keeps true: it has a pid exactly while running,
   * -1 otherwise, and its restart count stays within the configured limit.
   */
  predicate Inv(cfg: Config, s: Supervised)
  {
    && (s.state == Running ==> s.pid > 0)
    && (s.state != Running ==> s.pid == NoPid)
    && 0 <= s.restartCount
    && (s.restartCount == 0 || s.restartCount <= cfg.maxRestartAttempts)
  }

  /** `start`: already running is success; otherwise the spawn decides. */
  function StartStep(cb: Callbacks, s: Supervised, o: SpawnOutcome): (Supervised, bool)
  {
    if s.state == Running then (s, true)
    else
      match o
      case Spawned(p) => (Supervised(Running, p, s.restartCount, Fire(cb.onStarted, s.events, StartedEvent(p))), true)
      case SpawnFailed => (s.(state := FailedToStart, pid := NoPid), false)
  }

  /** The status a stopped child is reaped with: its own exit, or SIGKILL after the timeout. */
  function ReapedStatus(o: StopOutcome): ExitStatus
  {
    if o.ExitedInTime? then o.status else Signaled(SIGKILL)
  }

  /**
   * `stop(force_kill)`: SIGTERM, then SIGKILL on timeout if `forceKill`;
   * the reaped child is reported as terminated. Nothing to stop is success.
   */
  function StopStep(cb: Callbacks, s: Supervised, forceKill: bool, o: StopOutcome): (Supervised, bool)
  {
    if s.state != Running then (s, true)
    else
      match o
      case ExitedInTime(st) =>
        (Supervised(Terminated, NoPid, s.restartCount, Fire(cb.onTerminated, s.events, TerminatedEvent(s.pid, st))), true)
      case ShutdownTimedOut =>
        if forceKill then
          (Supervised(Terminated, NoPid, s.restartCount,
                      Fire(cb.onTerminated, s.events, TerminatedEvent(s.pid, Signaled(SIGKILL)))), true)
        else (s, false)
  }

  /**
   * `restart`: refused, with nothing changed, once the restart count has
   * reached `max_restart_attempts`; otherwise stop (forcefully), count
   * the restart, and start.
   */
  function RestartStep(cfg: Config, cb: Callbacks, s: Supervised, stop: StopOutcome, spawn: SpawnOutcome): (Supervised, bool)
  {
    if s.restartCount >= cfg.maxRestartAttempts then (s, false)
    else
      var stopped := StopStep(cb, s, true, stop).0;
      StartStep(cb, stopped.(restartCount := stopped.restartCount + 1), spawn)
  }

  /**
   * `update`: polls a running child. Exit code 0 makes it TERMINATED
   * and fires `on_terminated`; any other exit makes it CRASHED, fires
   * `on_crashed` and, with `auto_restart`, restarts it. In every other
   * state there is nothing to poll.
   */
  function UpdateStep(cfg: Config, cb: Callbacks, s: Supervised, poll: PollOutcome, respawn: SpawnOutcome): Supervised
  {
    if s.state != Running then s
    else
      match poll
      case StillRunning => s
      case Reaped(st) =>
        if IsNormalExit(st) then
          Supervised(Terminated, NoPid, s.restartCount, Fire(cb.onTerminated, s.events, TerminatedEvent(s.pid, st)))
        else
          var crashed := Supervised(Crashed, NoPid, s.restartCount, Fire(cb.onCrashed, s.events, CrashedEvent(s.pid, st)));
          // the child is gone, so the stop half of restart() has nothing to do
          if cfg.autoRestart then RestartStep(cfg, cb, crashed, ShutdownTimedOut, respawn).0 else crashed
  }

  // ---------------------------------------------------------------------
  // Properties of the transitions
  // ---------------------------------------------------------------------

  /** A new launcher is NOT_STARTED with no pid and no restarts. */
  lemma InitialInv(cfg: Config)
    ensures Inv(cfg, Initial) && Initial.state == NotStarted
  {
  }

  /**
   * `start` returns true exactly when the launcher ends up RUNNING; a
   * failed launch leaves it FAILED_TO_START, fires no callback and never
   * reports RUNNING. Only a new child fires `on_started`, once.
   */
  lemma StartSpec(cfg: Config, cb: Callbacks, s: Supervised, o: SpawnOutcome)
    requires Inv(cfg, s)
    ensures var (s', ok) := StartStep(cb, s, o);
      && Inv(cfg, s')
      && (ok <==> s'.state == Running)
      && (s.state == Running ==> s' == s)
      && (s.state != Running && o.SpawnFailed? ==>
            s'.state == FailedToStart && s'.pid == NoPid && s'.events == s.events)
      && (s.state != Running && o.Spawned? ==>
            s'.pid == o.pid && s'.events == s.events + (if cb.onStarted then [StartedEvent(o.pid)] else []))
      && s'.restartCount == s.restartCount
  {
  }

  /**
   * When `stop` returns true nothing is running any more; with
   * `force_kill` it always returns true. A stopped child fires
   * `on_terminated` once, for its own pid, with the status it was reaped
   * with (SIGKILL after an escalation); with nothing running, `stop`
   * changes nothing.
   */
  lemma StopSpec(cfg: Config, cb: Callbacks, s: Supervised, forceKill: bool, o: StopOutcome)
    requires Inv(cfg, s)
    ensures var (s', ok) := StopStep(cb, s, forceKill, o);
      && Inv(cfg, s')
      && (ok ==> s'.state != Running && s'.pid == NoPid)
      && (forceKill ==> ok)
      && (!ok ==> s' == s)
      && (s.state != Running ==> s' == s && ok)
      && (s.state == Running && ok ==>
            && s'.state == Terminated
            && s'.events == Fire(cb.onTerminated, s.events, TerminatedEvent(s.pid, ReapedStatus(o))))
      && s'.restartCount == s.restartCount
  {
  }

  /**
   * `restart` counts each restart it performs and never lets the count
   * exceed `max_restart_attempts`; at the limit it refuses and changes
   * nothing. Its result is that of the start it ends with.
   */
  lemma RestartSpec(cfg: Config, cb: Callbacks, s: Supervised, stop: StopOutcome, spawn: SpawnOutcome)
    requires Inv(cfg, s)
    ensures var (s', ok) := RestartStep(cfg, cb, s, stop, spawn);
      && Inv(cfg, s')
      && (ok ==> s'.state == Running)
      && (s.restartCount >= cfg.maxRestartAttempts ==> s' == s && !ok)
      && (s.restartCount < cfg.maxRestartAttempts ==> s'.restartCount == s.restartCount + 1)
      && (s.restartCount < cfg.maxRestartAttempts ==> (ok <==> s'.state == Running) && (ok <==> spawn.Spawned?))
  {
    if s.restartCount < cfg.maxRestartAttempts {
      var stopped := StopStep(cb, s, true, stop).0;
      StopSpec(cfg, cb, s, true, stop);
      StartSpec(cfg, cb, stopped.(restartCount := stopped.restartCount + 1), spawn);
    }
  }

  /**
   * `update` on a RUNNING child that exited: code 0 gives TERMINATED with
   * one `on_terminated`; anything else gives one `on_crashed` and then
   * CRASHED, or, with `auto_restart` and restarts left, a restart.
   */
  lemma UpdateExitSpec(cfg: Config, cb: Callbacks, s: Supervised, st: ExitStatus, respawn: SpawnOutcome)
    requires Inv(cfg, s) && s.state == Running
    ensures var s' := UpdateStep(cfg, cb, s, Reaped(st), respawn);
      && Inv(cfg, s')
      && (IsNormalExit(st) ==>
            && s'.state == Terminated && s'.restartCount == s.restartCount
            && s'.events == Fire(cb.onTerminated, s.events, TerminatedEvent(s.pid, st)))
      && (!IsNormalExit(st) && !cfg.autoRestart ==>
            && s'.state == Crashed && s'.restartCount == s.restartCount
            && s'.events == Fire(cb.onCrashed, s.events, CrashedEvent(s.pid, st)))
      && (!IsNormalExit(st) && cfg.autoRestart && s.restartCount < cfg.maxRestartAttempts ==>
            && s'.restartCount == s.restartCount + 1
            && (s'.state == Running <==> respawn.Spawned?)
            && (respawn.SpawnFailed? ==> s'.state == FailedToStart)
            && s'.events == Fire(cb.onCrashed, s.events, CrashedEvent(s.pid, st))
                            + (if respawn.Spawned? && cb.onStarted then [StartedEvent(respawn.pid)] else []))
      && (!IsNormalExit(st) && cfg.autoRestart && s.restartCount >= cfg.maxRestartAttempts ==>
            && s'.state == Crashed && s'.restartCount == s.restartCount
            && s'.events == Fire(cb.onCrashed, s.events, CrashedEvent(s.pid, st)))
  {
    if !IsNormalExit(st) {
      var crashed := Supervised(Crashed, NoPid, s.restartCount, Fire(cb.onCrashed, s.events, CrashedEvent(s.pid, st)));
      if cfg.autoRestart {
        RestartSpec(cfg, cb, crashed, ShutdownTimedOut, respawn);
      }
    }
  }

  /**
   * `update` keeps the invariant, whatever the poll reports, and changes
   * nothing (no callback, no restart) unless a running child is reaped.
   */
  lemma UpdatePreservesInv(cfg: Config, cb: Callbacks, s: Supervised, poll: PollOutcome, respawn: SpawnOutcome)
    requires Inv(cfg, s)
    ensures Inv(cfg, UpdateStep(cfg, cb, s, poll, respawn))
    ensures s.state != Running || poll.StillRunning? ==> UpdateStep(cfg, cb, s, poll, respawn) == s
  {
    if s.state == Running && poll.Reaped? {
      UpdateExitSpec(cfg, cb, s, poll.status, respawn);
    }
  }

  /** The state after a series of `update` calls. */
  function UpdateMany(cfg: Config, cb: Callbacks, s: Supervised, polls: seq<PollOutcome>, respawn: SpawnOutcome): Supervised
    decreases polls
  {
    if polls == [] then s
    else UpdateMany(cfg, cb, UpdateStep(cfg, cb, s, polls[0], respawn), polls[1..], respawn)
  }

  /**
   * An exit is reported once: after it, further `update` calls change
   * nothing and invoke no callback again, whatever they poll.
   */
  lemma {:induction false} NoCallbackAfterExit(cfg: Config, cb: Callbacks, s: Supervised,
                                               polls: seq<PollOutcome>, respawn: SpawnOutcome)
    requires s.state != Running
    ensures UpdateMany(cfg, cb, s, polls, respawn) == s
  {
    if polls != [] {
      NoCallbackAfterExit(cfg, cb, s, polls[1..], respawn);
    }
  }

  /** Number of RUNNING entries. */
  function CountRunning(states: seq<ProcessState>): nat
  {
    if states == [] then 0
    else CountRunning(states[..|states| - 1]) + if states[|states| - 1] == Running then 1 else 0
  }

  /**
   * `running_count() <= total_count()`, with equality exactly when every
   * process is running.
   */
  lemma {:induction false} CountRunningBounds(states: seq<ProcessState>)
    ensures CountRunning(states) <= |states|
    ensures CountRunning(states) == |states| <==> forall i :: 0 <= i < |states| ==> states[i] == Running
  {
    if states != [] {
      var init := states[..|states| - 1];
      CountRunningBounds(init);
      assert forall i :: 0 <= i < |init| ==> init[i] == states[i];
    }
  }
}
