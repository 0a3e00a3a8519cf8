/** The ladder from the outside: when a failure is answered and with what, and what
    a real frame undoes, in terms of tallies, clock, ladder and file alone. */
module WatchdogLaws {
  import opened Watchdog
  import opened WatchdogRuns

  /** The action of a rung, the last one standing for all above it; a reboot that is
      not allowed restarts the daemon. */
  function RungAction(c: Config, level: nat): Action
    requires ConfigOk(c)
  {
    var a := c.ladder[if level < |c.ladder| then level else |c.ladder| - 1];
    if a == Reboot && !c.allowReboot then RestartNvargus else a
  }

  /** The time a decision has to wait on this rung: the cooldown at the bottom,
      otherwise what the action of the rung below was given. */
  function Gate(c: Config, level: nat): real
    requires ConfigOk(c)
  {
    if level == 0 then c.cooldown
    else
      var below := c.ladder[if level <= |c.ladder| then level - 1 else |c.ladder| - 1];
      if below in c.dwells then c.dwells[below] else c.cooldown
  }

  /** The ladder may act: it never has, or the clock went back, or the wait is over. */
  predicate Waited(c: Config, dog: Dog, now: real)
    requires ConfigOk(c)
  {
    dog.lastActionAt == Never || now < dog.lastActionAt.t || now - dog.lastActionAt.t >= Gate(c, dog.level)
  }

  /** A failed capture that no death cuts short is answered if and only if it is at
      least the threshold-th in a row since the last answer and the ladder has
      waited; then the rung's action is decided and carried out, and the file has
      the next rung and this moment.  Otherwise the file stays as it is. */
  lemma FailIsAnsweredExactly(c: Config, w: World, e: Event, w': World)
    requires ConfigOk(c) && e.Fail? && e.cut == Whole && Step(c, w, e, w')
    ensures if w.life.dog.failures + 1 >= c.failThreshold && Waited(c, w.life.dog, e.now) then Answered(c, w, e, w')
            else w'.decided == w.decided && w'.executed == w.executed && w'.disk == w.disk && w'.reboots == w.reboots
    ensures w'.failuresInRow == w.failuresInRow + 1 && (w'.life.Dead? <==> w'.failuresInRow > 100)
  {
    var w0 := Tallied(w, e.now);
    assert Fires(c, w0.life.dog, e.now) <==> w.life.dog.failures + 1 >= c.failThreshold && Waited(c, w.life.dog, e.now);
    hide Fires, Waited, Answered;
    if Fires(c, w0.life.dog, e.now) {
      ActAnswers(c, w, e);
    }
  }

  predicate Answered(c: Config, w: World, e: Event, w': World)
    requires ConfigOk(c) && w.life.Alive? && e.Fail?
  {
    var level := w.life.dog.level;
    && w'.decided == w.decided + [Decision(RungAction(c, level), e.now)]
    && w'.executed == w.executed + [|w.decided|]
    && w'.disk.level == Level(if level + 1 < |c.ladder| then level + 1 else |c.ladder| - 1)
    && w'.disk.lastActionAt == Number(e.now)
  }

  lemma ActAnswers(c: Config, w: World, e: Event)
    requires ConfigOk(c) && w.life.Alive? && e.Fail? && e.cut == Whole
    ensures var w0 := Tallied(w, e.now);
            var w1 := Act(c, w0, w0.life.dog, e);
            && Answered(c, w, e, w1) && Answered(c, w, e, w1.(life := Dead))
            && w1.life.Alive? && w1.failuresInRow == w.failuresInRow + 1
  {
  }

  // ----------------------------------------------------------- on whole runs

  /** Whole failures, and nothing else, from state `n` on. */
  predicate OnlyFails(events: seq<Event>, n: nat, i: nat) {
    n + i <= |events| && forall j :: n <= j < n + i ==> events[j].Fail? && events[j].cut == Whole
  }

  /** A life that starts from a file without an action time makes its first
      decision at the threshold-th failure in a row, and none before. */
  lemma {:induction false} FirstDecisionComes(c: Config, states: seq<World>, events: seq<Event>, n: nat, i: nat)
    requires Run(c, states, events) && n < |events| && events[n].Boot? && states[n].disk.lastActionAt == Missing
    requires OnlyFails(events, n + 1, i) && i <= c.failThreshold && c.failThreshold >= 1
    ensures i < c.failThreshold ==>
              (states[n + 1 + i].life.Alive? ==> states[n + 1 + i].life.dog == states[n + 1].life.dog.(failures := i))
    ensures states[n + 1].life.Alive? && states[n + 1].life.dog.lastActionAt == Never
    ensures states[n + 1 + i].decided == states[n].decided +
              if i < c.failThreshold then []
              else [Decision(RungAction(c, states[n + 1].life.dog.level), events[n + i].now)]
  {
    assert Step(c, states[n], events[n], states[n + 1]);
    if i > 0 {
      FirstDecisionComes(c, states, events, n, i - 1);
      assert Step(c, states[n + i], events[n + i], states[n + 1 + i]);
      FailIsAnsweredExactly(c, states[n + i], events[n + i], states[n + 1 + i]);
    }
  }

  /** On the default ladder, once the incident has a decision, a whole failure makes
      the next one if and only if it is debounced and the last action has had its
      time: 0.75 cooldowns for the server, 2.5 for the daemon or the host. */
  lemma NextDecisionComes(c: Config, states: seq<World>, events: seq<Event>, n: nat)
    requires Run(c, states, events) && n < |events| && events[n].Fail? && events[n].cut == Whole
    requires c == DefaultConfig(c.failThreshold, c.cooldown, c.allowReboot) && states[n].decided != []
    ensures var d := states[n].decided;
            var last := d[|d| - 1];
            && states[n].life.Alive?
            && (states[n + 1].decided != d <==>
                  && states[n].life.dog.failures + 1 >= c.failThreshold
                  && events[n].now - last.at >= (if last.action == RestartMediamtx then 0.75 else 2.5) * c.cooldown)
            && (states[n + 1].decided != d ==>
                  |states[n + 1].decided| == |d| + 1 && states[n + 1].decided[|d|].at == events[n].now)
  {
    InvOnEveryRun(c, states, events, n);
    var w := states[n];
    assert Step(c, w, events[n], states[n + 1]);
    assert OnRung(c, w.base, w.decided, |w.decided| - 1);
    FailIsAnsweredExactly(c, w, events[n], states[n + 1]);
  }

  /** A real frame, seen to its end, sends the ladder back to the bottom, in memory
      and in the file, wherever the incident had got to; and if the ladder had been
      climbed, the file has no action time any more. */
  lemma FrameEndsIncident(c: Config, states: seq<World>, events: seq<Event>, n: nat)
    requires Run(c, states, events) && n < |events| && events[n] == Frame(Whole)
    ensures var w, w' := states[n], states[n + 1];
            && w.life.Alive? && w'.life.Alive? && w'.life.dog.level == 0 && w'.life.dog.failures == 0
            && w'.base == 0 && w'.decided == [] && w'.failuresInRow == 0
            && (w'.disk.level.BadLevel? || w'.disk.level.value <= 0 || |c.ladder| == 1)
            && (w.life.dog.level > 0 ==> w'.disk.lastActionAt == Missing && w'.disk.level == Level(0))
            && w'.disk.lastRebootAt == w.disk.lastRebootAt
  {
    InvOnEveryRun(c, states, events, n);
    assert Step(c, states[n], events[n], states[n + 1]);
    hide Climbing, Spaced, Counted;
  }

  /** No other step moves where the incident began, and decisions are kept. */
  lemma {:induction false} BaseStays(c: Config, states: seq<World>, events: seq<Event>, n: nat, m: nat)
    requires Run(c, states, events) && n <= m < |states| && forall j :: n <= j < m ==> !events[j].Frame?
    ensures states[m].base == states[n].base
  {
    if n < m {
      BaseStays(c, states, events, n, m - 1);
      assert Step(c, states[m - 1], events[m - 1], states[m]);
    }
  }

  /** The last real frame was seen to its end by step `n`. */
  predicate LastFrame(events: seq<Event>, n: nat, m: nat) {
    n < m <= |events| && events[n] == Frame(Whole) && forall j :: n < j < m ==> !events[j].Frame?
  }

  /** So the first decision after a real frame is the bottom rung's, and the others
      follow rung by rung. */
  lemma NextIncidentStartsAtBottom(c: Config, states: seq<World>, events: seq<Event>, n: nat, m: nat, k: nat)
    requires Run(c, states, events) && m < |states| && LastFrame(events, n, m) && k < |states[m].decided|
    ensures states[m].base == 0 && states[m].decided[k].action == RungAction(c, k)
  {
    FrameEndsIncident(c, states, events, n);
    BaseStays(c, states, events, n + 1, m);
    LadderSurvivesDeath(c, states, events, m);
  }

  /** On the default ladder no reboot is decided after a real frame before four
      other actions, two of them restarts of the daemon, and six and a half
      cooldowns. */
  lemma RebootComesLast(c: Config, states: seq<World>, events: seq<Event>, n: nat, m: nat, k: nat)
    requires Run(c, states, events) && m < |states| && LastFrame(events, n, m)
    requires c == DefaultConfig(c.failThreshold, c.cooldown, c.allowReboot) && c.cooldown >= 0.0
    requires k < |states[m].decided| && states[m].decided[k].action == Reboot
    ensures k >= 4 && states[m].decided[k].at - states[m].decided[0].at >= 6.5 * c.cooldown
    ensures var d := states[m].decided;
            && d[0].action == RestartMediamtx && d[1].action == RestartMediamtx
            && d[2].action == RestartNvargus && d[3].action == RestartNvargus
  {
    NextIncidentStartsAtBottom(c, states, events, n, m, k);
    NoRebootBeforeLowerRungs(c, states, events, m, k);
    FirstRebootIsLate(c, states, events, m, k);
  }

  /** From the fifth decision on each one is a reboot, if reboots are allowed. */
  lemma RebootsComeInTheEnd(c: Config, states: seq<World>, events: seq<Event>, n: nat, m: nat, k: nat)
    requires Run(c, states, events) && m < |states| && LastFrame(events, n, m)
    requires c == DefaultConfig(c.failThreshold, c.cooldown, c.allowReboot)
    requires 4 <= k < |states[m].decided|
    ensures states[m].decided[k].action == if c.allowReboot then Reboot else RestartNvargus
  {
    NextIncidentStartsAtBottom(c, states, events, n, m, k);
    assert RungAction(c, k) == RungAction(c, 4);
  }

  // --------------------------------------------------------- the boot-loop guard

  /** The host's reboot is commanded, with its time in the file, if and only if the
      last one the file knows of is half an hour ago; a time that is missing,
      corrupt or in the future counts as that of the epoch. */
  lemma RebootGoesOutExactly(c: Config, states: seq<World>, events: seq<Event>, n: nat)
    requires Run(c, states, events) && n < |events| && events[n].HostReboot? && events[n].cut == Whole
    ensures var w, w', now := states[n], states[n + 1], events[n].now;
            var since := if w.disk.lastRebootAt.Number? && w.disk.lastRebootAt.value <= now
                         then now - w.disk.lastRebootAt.value else now;
            if since >= 1800.0 then w'.reboots == w.reboots + [now] && w'.disk == w.disk.(lastRebootAt := Number(now))
            else w'.reboots == w.reboots && w'.disk == w.disk
  {
    InvOnEveryRun(c, states, events, n);
    assert Step(c, states[n], events[n], states[n + 1]);
    hide Climbing, Spaced, Counted;
  }

  /** The ladder's own reboot passes the same guard, when it comes to act. */
  lemma LadderRebootGoesOutExactly(c: Config, states: seq<World>, events: seq<Event>, n: nat)
    requires Run(c, states, events) && n < |events| && events[n].Fail? && events[n].cut == Whole
    requires var d := states[n + 1].decided; d != states[n].decided && d != [] && d[|d| - 1].action == Reboot
    ensures var w, w', now := states[n], states[n + 1], events[n].later;
            var since := if w.disk.lastRebootAt.Number? && w.disk.lastRebootAt.value <= now
                         then now - w.disk.lastRebootAt.value else now;
            w'.reboots == if since >= 1800.0 then w.reboots + [now] else w.reboots
  {
    InvOnEveryRun(c, states, events, n);
    assert Step(c, states[n], events[n], states[n + 1]);
    hide Climbing, Spaced, Counted;
  }
}
