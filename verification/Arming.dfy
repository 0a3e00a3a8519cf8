/** The capture flag: arming builds a runner after recovery and sweep, disarming
    closes what is open first. */
module Arming {
  import opened VisitLifecycle
  import opened VisitRuntime
  import opened Recovery

  /** Boot and runtime flag flips share this path; recovery and sweep come before
      the first open.  Whatever recovery left in the table for a later boot, its
      scratch is already gone: no scratch at all outlives an arm. */
  method ArmVisitRunner(store: Store, firstId: VisitId, now: real, willing: set<Call>)
    returns (runner: VisitRunner, ghost luck: Luck)
    modifies store`durable, store`clips, store`scratch, store`emptyDirs, store`temps
    ensures luck == LuckOf(old(store.durable), old(store.clips), old(store.scratch), willing, now)
    ensures store.durable == Pass(old(store.durable), luck)
    ensures OnlyAdds(old(store.clips), store.clips, luck.published)
    ensures store.scratch == {} && store.emptyDirs == {} && store.temps == {}
    ensures fresh(runner) && fresh(runner.tracker) && runner.Ready() && runner.store == store
    ensures runner.tracker.nextId == firstId && runner.tracker.maxKeys == 32 && runner.lastAbsence == 30.0
    ensures runner.View() == RunnerState(map[], map[], store.durable, {}, map[], [], {}, 0, map[])
  {
    var tracker := new VisitTracker(DEFAULT_MAX_KEYS, firstId);
    runner := new VisitRunner(store, tracker);
    luck := RecoverAndSweep(store, now, willing);
  }

  method RecoverAndSweep(store: Store, now: real, willing: set<Call>) returns (ghost luck: Luck)
    modifies store`durable, store`clips, store`scratch, store`emptyDirs, store`temps
    ensures luck == LuckOf(old(store.durable), old(store.clips), old(store.scratch), willing, now)
    ensures store.durable == Pass(old(store.durable), luck)
    ensures OnlyAdds(old(store.clips), store.clips, luck.published)
    ensures store.scratch == {} && store.emptyDirs == {} && store.temps == {}
  {
    var summary, calls;
    summary, calls, luck := RecoverOpenVisits(store, now, willing);
    hide Pass, LuckOf, OnlyAdds, SummaryOf, CallsOnce, Orphans;
    PassKeepsCalled(old(store.durable), luck);
    NothingOwned(old(store.scratch), old(store.durable).Keys - luck.valid, store.durable.Keys);
    NothingOwned(old(store.emptyDirs), old(store.durable).Keys - luck.valid, store.durable.Keys);
    var reclaimed := SweepOrphans(store);
  }

  /** What a pass leaves in the table it has called the finalizer on. */
  lemma PassKeepsCalled(t: Table, luck: Luck)
    ensures Pass(t, luck).Keys <= t.Keys - luck.valid
  {
  }

  lemma NothingOwned(dirs: set<VisitId>, taken: set<VisitId>, owned: set<VisitId>)
    requires owned <= taken
    ensures (dirs - taken) * owned == {}
  {
  }

  /** The open visits are handed over before the runner is dropped; the finalize
      threads live on. */
  method DisarmVisitRunner(runner: VisitRunner, now: real, env: Env) returns (ghost out: seq<Transition>)
    requires runner.Ready()
    modifies runner, runner.store`durable, runner.store`scratch, runner.store`emptyDirs
    ensures ClosesLive(old(runner.tracker.visits), old(runner.tracker.visits).Keys, now, out)
    ensures runner.View() == EndDrain(Drain(old(runner.View()), out, env))
  {
    out := runner.FinalizeOpenVisitsForEscalation(now, env);
  }
}
