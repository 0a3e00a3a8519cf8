/** The capture loop's side of the ladder: persist and drain before acting, clear
    on a real frame, reboot behind a guard, give up after too many failures. */
module DetectLoop {
  import opened VisitLifecycle
  import opened VisitRuntime
  import opened Watchdog
  import opened Runs = WatchdogRuns

  /** One worker life.  `disk` is the state file, `runner` the open visits, if the
      capture flag is on; the ghost fields are the incident's history. */
  class CaptureLoop {
    const watchdog: MediaMtxWatchdog
    var runner: VisitRunner?
    var state: Persisted
    var disk: Persisted
    var consecutiveFailures: nat
    ghost var clock: real
    ghost var decisions: nat
    ghost var base: nat
    ghost var decided: seq<Decision>
    ghost var executed: seq<nat>
    ghost var reboots: seq<real>

    ghost predicate Ready()
      reads this, watchdog
    {
      ConfigOk(watchdog.config)
    }

    ghost function View(): World
      reads this, watchdog
    {
      World(disk, Alive(watchdog.Model(), state), clock, consecutiveFailures, decisions, base, decided, executed, reboots)
    }

    /** Every open visit has been handed over, and the file says so. */
    ghost predicate Drained()
      reads this, runner, if runner != null then {runner.tracker, runner.store} else {}
    {
      runner != null ==> runner.tracker.visits == map[] && runner.store.durable == runner.open
    }

    /** A worker starts from what the last life left in the file, or from whatever
        else it finds there. */
    constructor (config: Config, disk: Persisted, now: real, ghost past: World)
      requires ConfigOk(config) && past.life.Dead? && past.disk == disk && past.clock <= now
      ensures Ready() && fresh(watchdog) && watchdog.config == config && runner == null
      ensures Step(config, past, Boot(now), View())
    {
      var dog := new MediaMtxWatchdog(config);
      dog.Restore(disk.level, disk.lastActionAt, now);
      watchdog, runner := dog, null;
      this.state, this.disk, consecutiveFailures := disk, disk, 0;
      clock, decisions, base, decided, executed, reboots := now, 0, past.base, past.decided, past.executed, past.reboots;
    }

    /** One failed capture.  When the call gives up the process exits. */
    method HandleCaptureFailure(now: real, later: real, env: Env) returns (gaveUp: bool, ghost out: seq<Transition>)
      requires Ready() && clock <= now <= later && (runner != null ==> runner.Ready())
      modifies this, watchdog, if runner != null then {runner, runner.store} else {}
      ensures Ready() && runner == old(runner)
      ensures (if gaveUp then View().(life := Dead) else View()) == OnFail(watchdog.config, old(View()), Fail(now, later, Whole))
      ensures gaveUp <==> consecutiveFailures > 100
      ensures runner != null ==>
                if Fires(watchdog.config, Tallied(old(View()), now).life.dog, now) then
                  && ClosesLive(old(runner.tracker.visits), old(runner.tracker.visits).Keys, now, out)
                  && runner.View() == EndDrain(Drain(old(runner.View()), out, env))
                else runner.View() == old(runner.View())
    {
      consecutiveFailures := consecutiveFailures + 1;
      watchdog.OnCaptureFail();
      clock := now;
      assert View() == Tallied(old(View()), now);
      hide Fires, Act, ClosesLive, Drain;
      out := ClimbLadder(now, later, env);
      gaveUp := consecutiveFailures > GIVE_UP_AFTER;
    }

    /** The watchdog's check, and what follows when it acts. */
    method ClimbLadder(now: real, later: real, env: Env) returns (ghost out: seq<Transition>)
      requires Ready() && (runner != null ==> runner.Ready())
      modifies this, watchdog, if runner != null then {runner, runner.store} else {}
      ensures Ready() && runner == old(runner) && consecutiveFailures == old(consecutiveFailures)
      ensures View() == if Fires(watchdog.config, old(watchdog.Model()), now)
                        then Act(watchdog.config, old(View()), old(watchdog.Model()), Fail(now, later, Whole)) else old(View())
      ensures runner != null ==>
                if Fires(watchdog.config, old(watchdog.Model()), now) then
                  && ClosesLive(old(runner.tracker.visits), old(runner.tracker.visits).Keys, now, out)
                  && runner.View() == EndDrain(Drain(old(runner.View()), out, env))
                else runner.View() == old(runner.View())
    {
      var acts, action := watchdog.NextAction(now);
      out := [];
      hide Fires, Resolve, Fired, Escalated, ClosesLive, Drain;
      if acts {
        decisions := decisions + 1;
        out := Escalate(action, now, later, env);
      }
    }

    /** A decision just taken: persist, drain, act. */
    method Escalate(action: Action, now: real, later: real, env: Env) returns (ghost out: seq<Transition>)
      requires Ready() && (runner != null ==> runner.Ready())
      modifies this, if runner != null then {runner, runner.store} else {}
      ensures Ready() && runner == old(runner) && consecutiveFailures == old(consecutiveFailures)
      ensures View() == Escalated(old(View()), action, Fail(now, later, Whole))
      ensures runner != null ==>
                && ClosesLive(old(runner.tracker.visits), old(runner.tracker.visits).Keys, now, out)
                && runner.View() == EndDrain(Drain(old(runner.View()), out, env))
    {
      out := [];
      ghost var index := |decided|;
      decided := decided + [Decision(action, now)];
      PersistWatchdogLevel();
      if runner != null {
        out := runner.FinalizeOpenVisitsForEscalation(now, env);
      }
      hide ClosesLive, Drain;
      executed := executed + [index];
      ExecuteAction(action, later);
      clock := later;
    }

    /** The disruptive part.  It may cost the worker its life, so it is only
        reached with the ladder on disk and the open visits handed over. */
    method ExecuteAction(action: Action, later: real)
      requires disk == state == WithLadder(state, watchdog.Model()) && Drained()
      modifies this`state, this`disk, this`reboots
      ensures View() == if action.Reboot? then Runs.DoReboot(old(View()), later, Whole) else old(View())
    {
      if action == Reboot {
        var issued := DoReboot(later);
      }
    }

    method PersistWatchdogLevel()
      modifies this`state, this`disk
      ensures state == WithLadder(old(state), watchdog.Model()) && disk == state
    {
      var (level, lastActionAt) := watchdog.Snapshot();
      state := state.(level := Level(level), lastActionAt := lastActionAt);
      disk := state;
    }

    /** A real frame arrived. */
    method HandleFrame()
      requires Ready() && disk == state
      modifies this, watchdog
      ensures Ready() && View() == OnFrame(watchdog.config, old(View()), Whole) && runner == old(runner)
      ensures watchdog.level == 0 && watchdog.failures == 0 && consecutiveFailures == 0
      ensures old(watchdog.level) > 0 && old(disk.level).Level? && old(disk.level).value > 0 ==>
                disk == state == old(disk).(level := Level(0), lastActionAt := Missing)
    {
      consecutiveFailures := 0;
      decisions, decided, executed, base := 0, [], [], RestoredLevel(watchdog.config, disk.level);
      var recovered := watchdog.OnCaptureOk();
      if recovered {
        ClearWatchdogEscalation();
      }
    }

    /** Back to the bottom, but the last reboot time stays. */
    method ClearWatchdogEscalation()
      modifies this`state, this`disk, this`base
      ensures state == if old(state).level == BadLevel(true) || (old(state).level.Level? && old(state).level.value != 0)
                       then old(state).(level := Level(0), lastActionAt := Missing) else old(state)
      ensures disk == (if Truthy(old(state).level) then state else old(disk))
      ensures base == (if Truthy(old(state).level) then 0 else old(base))
    {
      if Truthy(state.level) {
        state := state.(level := Level(0), lastActionAt := Missing);
        disk := state;
        base := 0;
      }
    }

    /** The last resort, for the ladder and for the host alike. */
    method DoReboot(now: real) returns (issued: bool)
      modifies this`state, this`disk, this`reboots
      ensures View() == Runs.DoReboot(old(View()), now, Whole)
      ensures issued == RebootAllowed(old(state), now)
    {
      var last := Coerce(state.lastRebootAt, now);
      if now - last < REBOOT_MIN_INTERVAL_S {
        return false;
      }
      state := state.(lastRebootAt := Number(now));
      disk := state;
      RebootCommand(now);
      return true;
    }

    /** The command itself goes out only with its time on disk. */
    method RebootCommand(now: real)
      requires disk == state && disk.lastRebootAt == Number(now)
      modifies this`reboots
      ensures reboots == old(reboots) + [now]
    {
      reboots := reboots + [now];
    }
  }
}
