/**
 * The classes `trading::PythonLauncher` and `trading::PythonProcessManager`
 * of C++/src/include/python_launcher.h. Each launcher method is proved to
 * perform the transition of the same name in module `Supervisor`, whose
 * properties are proved there.
 */
module Launcher {
  import opened Supervisor

  class PythonLauncher {
    /** `config_` */
    const config: Config
    /** which of `on_started_`, `on_terminated_`, `on_crashed_` are set */
    var callbacks: Callbacks
    /** `state_` */
    var state: ProcessState
    /** `process_pid_` */
    var pid: int
    /** `restart_count_` */
    var restartCount: int
    /** every callback invocation so far, oldest first */
    var events: seq<Event>

    function View(): Supervised
      reads this
    {
      Supervised(state, pid, restartCount, events)
    }

    ghost predicate Valid()
      reads this
    {
      Inv(config, View())
    }

    /** `PythonLauncher(const Config&)`: NOT_STARTED, no pid, no restarts, no callbacks. */
    constructor (config: Config)
      ensures Valid() && this.config == config
      ensures View() == Initial && callbacks == Callbacks(false, false, false)
    {
      this.config := config;
      callbacks := Callbacks(false, false, false);
      state, pid, restartCount, events := NotStarted, NoPid, 0, [];
    }

    /** `PythonLauncher(const std::string&)`: the default configuration for one script. */
    constructor FromScriptPath(scriptPath: string)
      ensures Valid() && config == DefaultConfig(scriptPath)
      ensures View() == Initial && callbacks == Callbacks(false, false, false)
    {
      config := DefaultConfig(scriptPath);
      callbacks := Callbacks(false, false, false);
      state, pid, restartCount, events := NotStarted, NoPid, 0, [];
    }

    method Start(o: SpawnOutcome) returns (ok: bool)
      requires Valid()
      modifies this
      ensures Valid() && callbacks == old(callbacks)
      ensures (View(), ok) == StartStep(callbacks, old(View()), o)
    {
      StartSpec(config, callbacks, View(), o);
      if state == Running {
        return true;
      }
      match o {
        case Spawned(p) =>
          state, pid := Running, p;
          if callbacks.onStarted {
            events := events + [StartedEvent(p)];
          }
          ok := true;
        case SpawnFailed =>
          state, pid := FailedToStart, NoPid;
          ok := false;
      }
    }

    method Stop(forceKill: bool, o: StopOutcome) returns (ok: bool)
      requires Valid()
      modifies this
      ensures Valid() && callbacks == old(callbacks)
      ensures (View(), ok) == StopStep(callbacks, old(View()), forceKill, o)
    {
      StopSpec(config, callbacks, View(), forceKill, o);
      if state != Running {
        return true;
      }
      var status: ExitStatus;
      match o {
        case ExitedInTime(st) =>
          status := st;
        case ShutdownTimedOut =>
          if !forceKill {
            return false;
          }
          status := Signaled(SIGKILL);
      }
      if callbacks.onTerminated {
        events := events + [TerminatedEvent(pid, status)];
      }
      state, pid := Terminated, NoPid;
      ok := true;
    }

    method Restart(stop: StopOutcome, spawn: SpawnOutcome) returns (ok: bool)
      requires Valid()
      modifies this
      ensures Valid() && callbacks == old(callbacks)
      ensures (View(), ok) == RestartStep(config, callbacks, old(View()), stop, spawn)
    {
      RestartSpec(config, callbacks, View(), stop, spawn);
      if restartCount >= config.maxRestartAttempts {
        return false;
      }
      var _ := Stop(true, stop);
      restartCount := restartCount + 1;
      ok := Start(spawn);
    }

    method Update(poll: PollOutcome, respawn: SpawnOutcome)
      requires Valid()
      modifies this
      ensures Valid() && callbacks == old(callbacks)
      ensures View() == UpdateStep(config, callbacks, old(View()), poll, respawn)
    {
      UpdatePreservesInv(config, callbacks, View(), poll, respawn);
      if state != Running || poll.StillRunning? {
        return;
      }
      var status := poll.status;
      if IsNormalExit(status) {
        if callbacks.onTerminated {
          events := events + [TerminatedEvent(pid, status)];
        }
        state, pid := Terminated, NoPid;
      } else {
        if callbacks.onCrashed {
          events := events + [CrashedEvent(pid, status)];
        }
        state, pid := Crashed, NoPid;
        if config.autoRestart {
          var _ := Restart(ShutdownTimedOut, respawn);
        }
      }
    }

    /** `is_running()` */
    function IsRunning(): (r: bool)
      reads this
      ensures r <==> state == Running
    {
      state == Running
    }

    /** `get_pid()`: positive while running, -1 otherwise. */
    function GetPid(): (p: int)
      requires Valid()
      reads this
      ensures IsRunning() <==> p > 0
      ensures !IsRunning() ==> p == NoPid
    {
      pid
    }

    /** `get_restart_count()`: never negative, never above the limit once a restart happened. */
    function GetRestartCount(): (n: int)
      requires Valid()
      reads this
      ensures 0 <= n
      ensures n == 0 || n <= config.maxRestartAttempts
    {
      restartCount
    }

    method SetStartedCallback()
      modifies this
      ensures callbacks == old(callbacks).(onStarted := true) && View() == old(View())
    {
      callbacks := callbacks.(onStarted := true);
    }

    method SetTerminatedCallback()
      modifies this
      ensures callbacks == old(callbacks).(onTerminated := true) && View() == old(View())
    {
      callbacks := callbacks.(onTerminated := true);
    }

    method SetCrashedCallback()
      modifies this
      ensures callbacks == old(callbacks).(onCrashed := true) && View() == old(View())
    {
      callbacks := callbacks.(onCrashed := true);
    }

    /** The destructor: a forceful `stop`, which always succeeds. */
    method Dispose(o: StopOutcome)
      requires Valid()
      modifies this
      ensures Valid() && state != Running && pid == NoPid
      ensures View() == StopStep(old(callbacks), old(View()), true, o).0
    {
      var _ := Stop(true, o);
    }
  }

  class PythonProcessManager {
    /** `launchers_`: each launcher is owned by the manager alone. */
    var launchers: seq<PythonLauncher>

    ghost predicate Valid()
      reads this, launchers
    {
      && (forall i, j :: 0 <= i < j < |launchers| ==> launchers[i] != launchers[j])
      && (forall i :: 0 <= i < |launchers| ==> launchers[i].Valid())
    }

    /** The state of each launcher, in the order they were added. */
    function States(): (s: seq<ProcessState>)
      reads this, launchers
      ensures |s| == |launchers|
      ensures forall i :: 0 <= i < |s| ==> s[i] == launchers[i].state
    {
      seq(|launchers|, i reads this, launchers requires 0 <= i < |launchers| => launchers[i].state)
    }

    constructor ()
      ensures Valid() && launchers == []
    {
      launchers := [];
    }

    /** `add_launcher`: takes ownership of one more launcher. */
    method AddLauncher(launcher: PythonLauncher)
      requires Valid() && launcher.Valid() && launcher !in launchers
      modifies this
      ensures Valid() && launchers == old(launchers) + [launcher]
    {
      launchers := launchers + [launcher];
    }

    /** `total_count()`: the number of launchers added. */
    function TotalCount(): (n: nat)
      reads this
      ensures n == |launchers|
    {
      |launchers|
    }

    /**
     * `start_all`: starts every launcher, each with its own spawn outcome,
     * and is true exactly when all of them are then running.
     */
    method StartAll(outcomes: seq<SpawnOutcome>) returns (all: bool)
      requires Valid() && |outcomes| == |launchers|
      modifies launchers
      ensures Valid()
      ensures forall i :: 0 <= i < |launchers| ==> launchers[i].callbacks == old(launchers[i].callbacks)
      ensures forall i :: 0 <= i < |launchers| ==>
                launchers[i].View() == StartStep(launchers[i].callbacks, old(launchers[i].View()), outcomes[i]).0
      ensures all <==> forall i :: 0 <= i < |launchers| ==> launchers[i].state == Running
    {
      all := true;
      var i := 0;
      while i < |launchers|
        invariant 0 <= i <= |launchers|
        invariant Valid()
        invariant forall j :: 0 <= j < |launchers| ==> launchers[j].callbacks == old(launchers[j].callbacks)
        invariant forall j :: 0 <= j < i ==>
                    launchers[j].View() == StartStep(launchers[j].callbacks, old(launchers[j].View()), outcomes[j]).0
        invariant forall j :: i <= j < |launchers| ==> launchers[j].View() == old(launchers[j].View())
        invariant all <==> forall j :: 0 <= j < i ==> launchers[j].state == Running
      {
        var started := launchers[i].Start(outcomes[i]);
        StartSpec(launchers[i].config, launchers[i].callbacks, old(launchers[i].View()), outcomes[i]);
        all := all && started;
        i := i + 1;
      }
    }

    /** `stop_all(force_kill)`: stops every launcher, each with its own outcome. */
    method StopAll(forceKill: bool, outcomes: seq<StopOutcome>)
      requires Valid() && |outcomes| == |launchers|
      modifies launchers
      ensures Valid()
      ensures forall i :: 0 <= i < |launchers| ==> launchers[i].callbacks == old(launchers[i].callbacks)
      ensures forall i :: 0 <= i < |launchers| ==>
                launchers[i].View() == StopStep(launchers[i].callbacks, old(launchers[i].View()), forceKill, outcomes[i]).0
      ensures forceKill ==> forall i :: 0 <= i < |launchers| ==> launchers[i].state != Running
    {
      var i := 0;
      while i < |launchers|
        invariant 0 <= i <= |launchers|
        invariant Valid()
        invariant forall j :: 0 <= j < |launchers| ==> launchers[j].callbacks == old(launchers[j].callbacks)
        invariant forall j :: 0 <= j < i ==>
                    launchers[j].View() == StopStep(launchers[j].callbacks, old(launchers[j].View()), forceKill, outcomes[j]).0
        invariant forceKill ==> forall j :: 0 <= j < i ==> launchers[j].state != Running
        invariant forall j :: i <= j < |launchers| ==> launchers[j].View() == old(launchers[j].View())
      {
        var stopped := launchers[i].Stop(forceKill, outcomes[i]);
        StopSpec(launchers[i].config, launchers[i].callbacks, old(launchers[i].View()), forceKill, outcomes[i]);
        i := i + 1;
      }
    }

    /** `update_all`: polls every launcher once. */
    method UpdateAll(polls: seq<PollOutcome>, respawns: seq<SpawnOutcome>)
      requires Valid() && |polls| == |launchers| && |respawns| == |launchers|
      modifies launchers
      ensures Valid()
      ensures forall i :: 0 <= i < |launchers| ==> launchers[i].callbacks == old(launchers[i].callbacks)
      ensures forall i :: 0 <= i < |launchers| ==>
                launchers[i].View()
                  == UpdateStep(launchers[i].config, launchers[i].callbacks, old(launchers[i].View()), polls[i], respawns[i])
    {
      var i := 0;
      while i < |launchers|
        invariant 0 <= i <= |launchers|
        invariant Valid()
        invariant forall j :: 0 <= j < |launchers| ==> launchers[j].callbacks == old(launchers[j].callbacks)
        invariant forall j :: 0 <= j < i ==>
                    launchers[j].View()
                      == UpdateStep(launchers[j].config, launchers[j].callbacks, old(launchers[j].View()), polls[j], respawns[j])
        invariant forall j :: i <= j < |launchers| ==> launchers[j].View() == old(launchers[j].View())
      {
        launchers[i].Update(polls[i], respawns[i]);
        i := i + 1;
      }
    }

    /** `all_running()`: every managed launcher is running. */
    method AllRunning() returns (all: bool)
      ensures all <==> forall i :: 0 <= i < |launchers| ==> launchers[i].IsRunning()
    {
      all := true;
      var i := 0;
      while i < |launchers|
        invariant 0 <= i <= |launchers|
        invariant all <==> forall j :: 0 <= j < i ==> launchers[j].IsRunning()
      {
        all := all && launchers[i].IsRunning();
        i := i + 1;
      }
    }

    /** `running_count()`: how many launchers are running; at most `total_count()`. */
    method RunningCount() returns (n: nat)
      ensures n == CountRunning(States())
      ensures n <= TotalCount()
    {
      n := 0;
      var i := 0;
      while i < |launchers|
        invariant 0 <= i <= |launchers|
        invariant n == CountRunning(States()[..i])
      {
        assert States()[..i + 1][..i] == States()[..i];
        if launchers[i].IsRunning() {
          n := n + 1;
        }
        i := i + 1;
      }
      assert States()[..i] == States();
      CountRunningBounds(States());
    }
  }

  /**
   * The manager's queries agree: all launchers are running exactly when
   * the running count equals the total count.
   */
  lemma AllRunningIffCountsAgree(m: PythonProcessManager)
    ensures (forall i :: 0 <= i < |m.launchers| ==> m.launchers[i].IsRunning())
            <==> CountRunning(m.States()) == m.TotalCount()
  {
    CountRunningBounds(m.States());
  }
}
