/** Worker lives under the ladder: failures, real frames, deaths at any point,
    restarts and host-requested reboots, under a clock that never goes back. */
module WatchdogRuns {
  import opened Watchdog

  const REBOOT_MIN_INTERVAL_S: real := 1800.0
  const GIVE_UP_AFTER: nat := 100

  /** The state file, and `_WATCHDOG_STATE` in memory: whatever is found there. */
  datatype Persisted = Persisted(level: LoadedLevel, lastActionAt: Loaded, lastRebootAt: Loaded)

  datatype Life = Dead | Alive(dog: Dog, state: Persisted)

  /** A decision of the ladder that reached the disk. */
  datatype Decision = Decision(action: Action, at: real)

  /** `base` is the rung this incident (the time since the last real frame)
      started on, `decided` its persisted decisions, `executed` the indices of
      those carried out; `reboots` are all reboot commands ever issued;
      `failuresInRow` and `decisions` count since the last real frame of this
      worker life. */
  datatype World = World(
    disk: Persisted, life: Life, clock: real, failuresInRow: nat, decisions: nat,
    base: nat, decided: seq<Decision>, executed: seq<nat>, reboots: seq<real>)

  /** Where a death may cut a step short. */
  datatype Cut = Whole | BeforePersist | BeforeAction | BeforeCommand

  datatype Event =
    | Boot(now: real)
    | Fail(now: real, later: real, cut: Cut)
    | Frame(cut: Cut)
    | HostReboot(now: real, cut: Cut)
    | Die

  /** No history, over any state file. */
  ghost predicate Initial(c: Config, w: World)
    requires ConfigOk(c)
  {
    w == World(w.disk, Dead, w.clock, 0, 0, RestoredLevel(c, w.disk.level), [], [], [])
  }

  // ------------------------------------------------------------------ steps

  /** A stamp from the file; corrupt, absent or future ones read as zero. */
  function Coerce(s: Loaded, now: real): real {
    if s.Number? && s.value <= now then s.value else 0.0
  }

  /** The boot-loop guard. */
  predicate RebootAllowed(state: Persisted, now: real) {
    now - Coerce(state.lastRebootAt, now) >= REBOOT_MIN_INTERVAL_S
  }

  function SetBoth(w: World, dog: Dog, state: Persisted): World {
    w.(disk := state, life := Alive(dog, state))
  }

  /** `_do_reboot`: the time is saved before the command goes out. */
  function DoReboot(w: World, now: real, cut: Cut): World
    requires w.life.Alive?
  {
    if !RebootAllowed(w.life.state, now) then w
    else
      var w1 := SetBoth(w, w.life.dog, w.life.state.(lastRebootAt := Number(now)));
      if cut.BeforeCommand? then w1.(life := Dead) else w1.(reboots := w1.reboots + [now])
  }

  function RestoredDog(c: Config, s: Persisted, now: real): Dog
    requires ConfigOk(c)
  {
    Dog(0, RestoredStamp(s.lastActionAt, now), RestoredLevel(c, s.level), 0)
  }

  /** What memory is written over with after an action. */
  function WithLadder(state: Persisted, dog: Dog): Persisted {
    state.(level := Level(dog.level), lastActionAt := Saved(dog.lastActionAt))
  }

  /** A decision just taken: persisted, then carried out. */
  function Escalated(w: World, action: Action, e: Event): World
    requires w.life.Alive? && e.Fail?
  {
    if e.cut.BeforePersist? then w.(life := Dead)
    else
      var w1 := SetBoth(w, w.life.dog, WithLadder(w.life.state, w.life.dog)).(decided := w.decided + [Decision(action, e.now)]);
      if e.cut.BeforeAction? then w1.(life := Dead)
      else
        var w2 := w1.(executed := w.executed + [|w.decided|]);
        if action.Reboot? then DoReboot(w2, e.later, e.cut).(clock := e.later) else w2.(clock := e.later)
  }

  /** A failed capture on which the ladder acts. */
  function Act(c: Config, w: World, dog: Dog, e: Event): World
    requires ConfigOk(c) && w.life.Alive? && e.Fail?
  {
    Escalated(w.(life := Alive(Fired(c, dog, e.now), w.life.state), decisions := w.decisions + 1), Resolve(c, dog.level), e)
  }

  /** A failed capture before the ladder looks at it. */
  function Tallied(w: World, now: real): World
    requires w.life.Alive?
  {
    w.(clock := now, failuresInRow := w.failuresInRow + 1,
       life := Alive(w.life.dog.(failures := w.life.dog.failures + 1), w.life.state))
  }

  /** `_handle_capture_failure`. */
  function OnFail(c: Config, w: World, e: Event): World
    requires ConfigOk(c) && w.life.Alive? && e.Fail?
  {
    var w0 := Tallied(w, e.now);
    var w1 := if Fires(c, w0.life.dog, e.now) then Act(c, w0, w0.life.dog, e) else w0;
    if w1.failuresInRow > GIVE_UP_AFTER then w1.(life := Dead) else w1
  }

  predicate Truthy(level: LoadedLevel) {
    match level
    case BadLevel(truthy) => truthy
    case Level(n) => n != 0
  }

  /** A real frame ends the incident; the file follows unless death intervenes. */
  function OnFrame(c: Config, w: World, cut: Cut): World
    requires ConfigOk(c) && w.life.Alive?
  {
    var dog := w.life.dog.(failures := 0, level := 0);
    var w0 := w.(failuresInRow := 0, decisions := 0, decided := [], executed := [], base := RestoredLevel(c, w.disk.level));
    if cut.BeforePersist? then w0.(life := Dead)
    else if w.life.dog.level != 0 && Truthy(w.life.state.level) then
      SetBoth(w0, dog, w.life.state.(level := Level(0), lastActionAt := Missing)).(base := 0)
    else w0.(life := Alive(dog, w.life.state))
  }

  ghost predicate Step(c: Config, w: World, e: Event, w': World)
    requires ConfigOk(c)
  {
    match e
    case Boot(now) =>
      && w.life.Dead? && w.clock <= now
      && w' == w.(life := Alive(RestoredDog(c, w.disk, now), w.disk), clock := now, failuresInRow := 0, decisions := 0)
    case Fail(now, later, cut) =>
      w.life.Alive? && w.clock <= now <= later && w' == OnFail(c, w, e)
    case Frame(cut) =>
      w.life.Alive? && w' == OnFrame(c, w, cut)
    case HostReboot(now, cut) =>
      w.life.Alive? && w.clock <= now && w' == DoReboot(w, now, cut).(clock := now)
    case Die =>
      w' == w.(life := Dead)
  }

  ghost predicate Run(c: Config, states: seq<World>, events: seq<Event>) {
    && ConfigOk(c) && |states| == |events| + 1 && Initial(c, states[0])
    && forall i :: 0 <= i < |events| ==> Step(c, states[i], events[i], states[i + 1])
  }

  // -------------------------------------------------------------- invariant

  /** Memory and file agree between steps. */
  ghost predicate Consistent(c: Config, w: World)
    requires ConfigOk(c)
  {
    w.life.Alive? ==> w.life.state == w.disk && w.life.dog.level == RestoredLevel(c, w.disk.level)
  }

  /** Decision `k` of an incident that began on rung `base` is that rung's. */
  predicate OnRung(c: Config, base: nat, decided: seq<Decision>, k: nat)
    requires ConfigOk(c) && k < |decided|
  {
    decided[k].action == Resolve(c, Min(base + k, Top(c)))
  }

  /** The decision after `k` came no sooner than its gate allows. */
  predicate AfterGate(c: Config, base: nat, decided: seq<Decision>, k: nat)
    requires ConfigOk(c) && k + 1 < |decided|
  {
    decided[k + 1].at - decided[k].at >= Required(c, Min(base + k + 1, Top(c)))
  }

  ghost predicate Climb(c: Config, base: nat, decided: seq<Decision>)
    requires ConfigOk(c)
  {
    && (forall k :: 0 <= k < |decided| ==> OnRung(c, base, decided, k))
    && (forall k :: 0 <= k < |decided| - 1 ==> AfterGate(c, base, decided, k))
  }

  lemma ClimbOneMore(c: Config, base: nat, decided: seq<Decision>, d: Decision)
    requires ConfigOk(c) && Climb(c, base, decided) && d.action == Resolve(c, Min(base + |decided|, Top(c)))
    requires decided != [] ==> d.at - decided[|decided| - 1].at >= Required(c, Min(base + |decided|, Top(c)))
    ensures Climb(c, base, decided + [d])
  {
    var all := decided + [d];
    forall k | 0 <= k < |all| ensures OnRung(c, base, all, k) {
      if k < |decided| { assert OnRung(c, base, decided, k); }
    }
    forall k | 0 <= k < |all| - 1 ensures AfterGate(c, base, all, k) {
      if k < |decided| - 1 { assert AfterGate(c, base, decided, k); }
    }
  }

  /** The persisted decisions of the incident are consecutive rungs from `base`,
      each as late as its gate demands, and the file is where they left it. */
  ghost predicate Climbing(c: Config, w: World)
    requires ConfigOk(c)
  {
    && w.base <= Top(c) && RestoredLevel(c, w.disk.level) == Min(w.base + |w.decided|, Top(c))
    && Climb(c, w.base, w.decided)
    && (w.decided != [] ==>
          var last := w.decided[|w.decided| - 1].at;
          last <= w.clock && w.disk.lastActionAt == Number(last) && (w.life.Alive? ==> w.life.dog.lastActionAt == At(last)))
    && (forall i, j :: 0 <= i < j < |w.executed| ==> w.executed[i] < w.executed[j])
    && (forall i :: 0 <= i < |w.executed| ==> w.executed[i] < |w.decided|)
  }

  predicate FarApart(reboots: seq<real>) {
    forall i :: 0 <= i < |reboots| - 1 ==> reboots[i + 1] - reboots[i] >= REBOOT_MIN_INTERVAL_S
  }

  /** Reboots are far apart, and the file knows a time no earlier than the last. */
  predicate Spaced(w: World) {
    && FarApart(w.reboots)
    && (w.reboots != [] ==>
          w.disk.lastRebootAt.Number? && w.reboots[|w.reboots| - 1] <= w.disk.lastRebootAt.value <= w.clock)
  }

  function DogFailures(w: World): nat {
    if w.life.Alive? then w.life.dog.failures else 0
  }

  /** The two counters of one life. */
  predicate Counted(c: Config, w: World) {
    c.failThreshold * w.decisions + DogFailures(w) <= w.failuresInRow <= GIVE_UP_AFTER + 1
  }

  predicate StillTrying(w: World) {
    w.life.Alive? ==> w.failuresInRow <= GIVE_UP_AFTER
  }

  ghost predicate Core(c: Config, w: World)
    requires ConfigOk(c)
  {
    Consistent(c, w) && Climbing(c, w) && Spaced(w) && Counted(c, w)
  }

  ghost predicate Inv(c: Config, w: World)
    requires ConfigOk(c)
  {
    Core(c, w) && StillTrying(w)
  }

  lemma RebootKeepsCore(c: Config, w: World, now: real, cut: Cut)
    requires ConfigOk(c) && Core(c, w) && w.life.Alive? && w.clock <= now
    ensures Core(c, DoReboot(w, now, cut).(clock := now))
    ensures DoReboot(w, now, cut).failuresInRow == w.failuresInRow
  {
    if RebootAllowed(w.life.state, now) {
      var all := w.reboots + [now];
      assert FarApart(all) by {
        forall i | 0 <= i < |all| - 1 ensures all[i + 1] - all[i] >= REBOOT_MIN_INTERVAL_S {
          if i < |w.reboots| - 1 { assert all[i + 1] == w.reboots[i + 1]; }
        }
      }
    }
  }

  /** The part of `Act` up to the persisted decision. */
  function Decide(c: Config, w: World, now: real): World
    requires ConfigOk(c) && w.life.Alive?
  {
    var fired := Fired(c, w.life.dog, now);
    SetBoth(w, fired, WithLadder(w.life.state, fired))
    .(decisions := w.decisions + 1, decided := w.decided + [Decision(Resolve(c, w.life.dog.level), now)])
  }

  lemma DecideCounts(c: Config, w: World, now: real)
    requires ConfigOk(c) && Counted(c, w) && w.life.Alive? && Fires(c, w.life.dog, now)
    ensures c.failThreshold * (w.decisions + 1) <= w.failuresInRow <= GIVE_UP_AFTER + 1
  {
    assert c.failThreshold * (w.decisions + 1) == c.failThreshold * w.decisions + c.failThreshold;
  }

  lemma DecideKeepsCore(c: Config, w: World, now: real)
    requires ConfigOk(c) && Core(c, w) && w.life.Alive? && w.clock == now && Fires(c, w.life.dog, now)
    ensures Core(c, Decide(c, w, now))
  {
    DecideCounts(c, w, now);
    ClimbOneMore(c, w.base, w.decided, Decision(Resolve(c, w.life.dog.level), now));
    hide Climb, FarApart;
  }

  lemma DieKeepsCore(c: Config, w: World)
    requires ConfigOk(c) && Core(c, w)
    ensures Inv(c, w.(life := Dead))
  {
  }

  /** A persisted decision, carried out. */
  lemma CarryOutKeepsCore(c: Config, w: World, e: Event, action: Action)
    requires ConfigOk(c) && Core(c, w) && e.Fail? && w.life.Alive? && w.clock == e.now <= e.later && w.decided != []
    requires forall i :: 0 <= i < |w.executed| ==> w.executed[i] < |w.decided| - 1
    ensures var w2 := w.(executed := w.executed + [|w.decided| - 1]);
            var w' := if action.Reboot? then DoReboot(w2, e.later, e.cut).(clock := e.later) else w2.(clock := e.later);
            Core(c, w') && w'.failuresInRow == w.failuresInRow
  {
    hide Climb, FarApart;
    var w2 := w.(executed := w.executed + [|w.decided| - 1]);
    assert Core(c, w2);
    if action.Reboot? { RebootKeepsCore(c, w2, e.later, e.cut); }
  }

  lemma DeadKeepsCore(c: Config, w: World)
    requires ConfigOk(c) && Core(c, w) && w.life.Alive? && Fires(c, w.life.dog, w.clock)
    ensures Core(c, w.(life := Dead, decisions := w.decisions + 1))
  {
    DecideCounts(c, w, w.clock);
    hide Climb, FarApart;
  }

  lemma ActKeepsCore(c: Config, w: World, e: Event)
    requires ConfigOk(c) && Core(c, w) && e.Fail? && w.life.Alive? && w.clock == e.now <= e.later
    requires Fires(c, w.life.dog, e.now)
    ensures Core(c, Act(c, w, w.life.dog, e))
    ensures Act(c, w, w.life.dog, e).failuresInRow == w.failuresInRow
  {
    var w1 := Decide(c, w, e.now);
    if e.cut.BeforePersist? {
      DeadKeepsCore(c, w);
    } else {
      DecideKeepsCore(c, w, e.now);
      assert forall i :: 0 <= i < |w1.executed| ==> w1.executed[i] < |w1.decided| - 1;
      hide Core, DoReboot, Fires, Resolve, Fired;
      if e.cut.BeforeAction? {
        DieKeepsCore(c, w1);
      } else {
        CarryOutKeepsCore(c, w1, e, Resolve(c, w.life.dog.level));
      }
    }
  }

  lemma TallyKeepsCore(c: Config, w: World, now: real)
    requires ConfigOk(c) && Inv(c, w) && w.life.Alive? && w.clock <= now
    ensures Core(c, Tallied(w, now))
  {
    hide Climb, FarApart;
  }

  lemma GiveUpKeepsInv(c: Config, w: World)
    requires ConfigOk(c) && Core(c, w)
    ensures Inv(c, if w.failuresInRow > GIVE_UP_AFTER then w.(life := Dead) else w)
  {
    if w.failuresInRow > GIVE_UP_AFTER { DieKeepsCore(c, w); }
  }

  lemma FailKeepsInv(c: Config, w: World, e: Event)
    requires ConfigOk(c) && Inv(c, w) && e.Fail? && w.life.Alive? && w.clock <= e.now <= e.later
    ensures Inv(c, OnFail(c, w, e))
  {
    TallyKeepsCore(c, w, e.now);
    hide Core, Act, Fires;
    var w0 := Tallied(w, e.now);
    if Fires(c, w0.life.dog, e.now) {
      ActKeepsCore(c, w0, e);
      GiveUpKeepsInv(c, Act(c, w0, w0.life.dog, e));
    } else {
      GiveUpKeepsInv(c, w0);
    }
  }

  lemma FrameKeepsInv(c: Config, w: World, cut: Cut)
    requires ConfigOk(c) && Inv(c, w) && w.life.Alive?
    ensures Inv(c, OnFrame(c, w, cut))
  {
  }

  lemma StepKeepsInv(c: Config, w: World, e: Event, w': World)
    requires ConfigOk(c) && Inv(c, w) && Step(c, w, e, w')
    ensures Inv(c, w')
  {
    match e
    case Boot(now) =>
    case Fail(_, _, _) => FailKeepsInv(c, w, e);
    case Frame(cut) => FrameKeepsInv(c, w, cut);
    case HostReboot(now, cut) => RebootKeepsCore(c, w, now, cut);
    case Die => DieKeepsCore(c, w);
  }

  lemma {:induction false} InvOnEveryRun(c: Config, states: seq<World>, events: seq<Event>, n: nat)
    requires Run(c, states, events) && n < |states|
    ensures Inv(c, states[n])
  {
    if n > 0 {
      var i := n - 1;
      InvOnEveryRun(c, states, events, i);
      assert Step(c, states[i], events[i], states[i + 1]);
      StepKeepsInv(c, states[i], events[i], states[n]);
    }
  }

  // --------------------------------------------------------------- theorems

  /** The ladder survives worker death: within one incident, whatever deaths and
      restarts interrupt it, the persisted decisions are consecutive rungs, and
      the executed ones are some of them, in order. */
  lemma LadderSurvivesDeath(c: Config, states: seq<World>, events: seq<Event>, n: nat)
    requires Run(c, states, events) && n < |states|
    ensures var w := states[n];
            && (forall k :: 0 <= k < |w.decided| ==> w.decided[k].action == Resolve(c, Min(w.base + k, Top(c))))
            && (forall i, j :: 0 <= i < j < |w.executed| ==> w.executed[i] < w.executed[j] < |w.decided|)
  {
    InvOnEveryRun(c, states, events, n);
    forall k | 0 <= k < |states[n].decided| ensures states[n].decided[k].action == Resolve(c, Min(states[n].base + k, Top(c))) {
      assert OnRung(c, states[n].base, states[n].decided, k);
    }
  }

  /** On the default ladder a reboot is the fifth decision of an incident that
      began at the bottom, or a later one: every lower rung was decided first. */
  lemma NoRebootBeforeLowerRungs(c: Config, states: seq<World>, events: seq<Event>, n: nat, k: nat)
    requires Run(c, states, events) && n < |states|
    requires c == DefaultConfig(c.failThreshold, c.cooldown, c.allowReboot)
    requires k < |states[n].decided| && states[n].decided[k].action.Reboot?
    ensures c.allowReboot && states[n].base + k >= 4
    ensures forall i :: 0 <= i < |states[n].decided| ==>
              (states[n].base + i < 4 ==> states[n].decided[i].action == c.ladder[states[n].base + i])
  {
    LadderSurvivesDeath(c, states, events, n);
  }

  /** Only the level and the time of the last action are persisted, yet in one
      incident every decision keeps the dwell of the one before it. */
  lemma DwellAcrossRestarts(c: Config, states: seq<World>, events: seq<Event>, n: nat, k: nat)
    requires Run(c, states, events) && n < |states|
    requires c == DefaultConfig(c.failThreshold, c.cooldown, c.allowReboot)
    requires k + 1 < |states[n].decided|
    ensures states[n].decided[k + 1].at - states[n].decided[k].at >= Dwell(c, states[n].decided[k].action)
  {
    InvOnEveryRun(c, states, events, n);
    var w := states[n];
    assert OnRung(c, w.base, w.decided, k) && AfterGate(c, w.base, w.decided, k);
    DefaultGatesKeepDwell(c.failThreshold, c.cooldown, c.allowReboot, Min(w.base + k, Top(c)));
  }

  /** From the bottom, the first reboot decision comes no sooner than six and a
      half cooldowns after the first decision. */
  lemma FirstRebootIsLate(c: Config, states: seq<World>, events: seq<Event>, n: nat, k: nat)
    requires Run(c, states, events) && n < |states|
    requires c == DefaultConfig(c.failThreshold, c.cooldown, c.allowReboot) && c.cooldown >= 0.0
    requires states[n].base == 0 && k < |states[n].decided| && states[n].decided[k].action.Reboot?
    ensures states[n].decided[k].at - states[n].decided[0].at >= 6.5 * c.cooldown
  {
    NoRebootBeforeLowerRungs(c, states, events, n, k);
    var d := states[n].decided;
    DwellAcrossRestarts(c, states, events, n, 0);
    DwellAcrossRestarts(c, states, events, n, 1);
    DwellAcrossRestarts(c, states, events, n, 2);
    DwellAcrossRestarts(c, states, events, n, 3);
    LaterIsNotEarlier(c, states, events, n, 4, k);
  }

  lemma {:induction false} LaterIsNotEarlier(c: Config, states: seq<World>, events: seq<Event>, n: nat, i: nat, k: nat)
    requires Run(c, states, events) && n < |states|
    requires c == DefaultConfig(c.failThreshold, c.cooldown, c.allowReboot) && c.cooldown >= 0.0
    requires i <= k < |states[n].decided|
    ensures states[n].decided[i].at <= states[n].decided[k].at
    decreases k
  {
    if i < k {
      LaterIsNotEarlier(c, states, events, n, i, k - 1);
      DwellAcrossRestarts(c, states, events, n, k - 1);
    }
  }

  /** Reboot commands are 1800 s apart across clears, restarts and requests from
      the host, so any span of time holds few of them. */
  lemma RebootsAreSpaced(c: Config, states: seq<World>, events: seq<Event>, n: nat, i: nat, j: nat)
    requires Run(c, states, events) && n < |states| && i <= j < |states[n].reboots|
    ensures states[n].reboots[j] - states[n].reboots[i] >= 1800.0 * (j - i) as real
    ensures j - i + 1 <= ((states[n].reboots[j] - states[n].reboots[i]) / 1800.0).Floor + 1
  {
    InvOnEveryRun(c, states, events, n);
    SpacingAddsUp(states[n].reboots, i, j);
  }

  lemma {:induction false} SpacingAddsUp(reboots: seq<real>, i: nat, j: nat)
    requires FarApart(reboots) && i <= j < |reboots|
    ensures reboots[j] - reboots[i] >= 1800.0 * (j - i) as real
    decreases j
  {
    if i < j { SpacingAddsUp(reboots, i, j - 1); }
  }

  /** With the threshold of 30 the worker uses, one life without a real frame
      makes at most three decisions before it gives up, each after at least 30
      failures in a row since the one before. */
  lemma AtMostThreeDecisionsPerLife(c: Config, states: seq<World>, events: seq<Event>, n: nat)
    requires Run(c, states, events) && n < |states| && c.failThreshold == 30
    ensures 30 * states[n].decisions <= states[n].failuresInRow <= 101
    ensures states[n].decisions <= 3
  {
    InvOnEveryRun(c, states, events, n);
  }
}
