/** Runs from the first boot in which promises of the source fail. */
module PipelineExamples {
  import opened VisitLifecycle
  import opened VisitRuntime
  import opened Recovery
  import opened Pipeline
  import opened PipelineInvariant
  import opened PipelineTheorems
  import opened PipelineHandOffs
  import opened PipelineLosses

  const KEY: Key := "person:front"

  function Last(states: seq<World>): World
    requires states != []
  {
    states[|states| - 1]
  }

  ghost predicate RunTo(states: seq<World>, events: seq<Event>, s: World) {
    Path(states, events) && Initial(states[0]) && Last(states) == s
  }

  /** One step further. */
  lemma Then(states: seq<World>, events: seq<Event>, s: World, e: Event, s': World)
    requires RunTo(states, events, s) && Step(s, e, s')
    ensures RunTo(states + [s'], events + [e], s')
  {
    var states', events' := states + [s'], events + [e];
    forall i | 0 <= i < |events'| ensures Step(states'[i], events'[i], states'[i + 1]) {
      if i < |events| { assert Step(states[i], events[i], states[i + 1]); }
    }
  }

  function Quiet(mode: Mode): World {
    World(mode, RunnerState(map[], map[], map[], {}, map[], [], {}, 0, map[]), {}, {}, 0, 0.0, DEFAULT_MAX_KEYS, [], {}, [])
  }

  /** The first boot finds nothing and arms a runner. */
  lemma FlagUp() returns (states: seq<World>, events: seq<Event>)
    ensures RunTo(states, events, Quiet(Armed)) && Crash !in events
  {
    states, events := [Quiet(Off)], [];
    Then(states, events, Quiet(Off), Boot(0.0, []), Quiet(Recovering([], Nobody)));
    states, events := states + [Quiet(Recovering([], Nobody))], events + [Boot(0.0, [])];
    Then(states, events, Quiet(Recovering([], Nobody)), Arm, Quiet(Armed));
    states, events := states + [Quiet(Armed)], events + [Arm];
  }

  /** A subject seen at 10 seconds. */
  function Seen(): World {
    var t: Table := map[0 := Entry(OPEN, KEY, 8.0, 8.0, 10.0, 0, 30.0, 0)];
    World(Armed, RunnerState(map[KEY := Present(0, 10.0, 10.0, 8.0, 0)], t, t, {}, map[], [], {0}, 0, map[]),
          {}, {}, 1, 10.0, DEFAULT_MAX_KEYS, [], {}, [])
  }

  /** And again at 12, with segments copied. */
  function SeenTwice(): World {
    var t: Table := map[0 := Entry(OPEN, KEY, 8.0, 12.0, 12.0, 0, 30.0, 0)];
    World(Armed, RunnerState(map[KEY := Present(0, 10.0, 12.0, 8.0, 0)], t, t, {0}, map[], [], {0}, 0,
                             map[0 := Span(8.0, 12.0)]),
          {}, {}, 1, 12.0, DEFAULT_MAX_KEYS, [], {}, [])
  }

  const SLIDERS: Knobs := Knobs(2.0, 30.0, 150.0)
  const ROOM: Env := Env(map[], {0}, {0})

  lemma FirstDetection() returns (e: Event)
    ensures !e.Crash? && Step(Quiet(Armed), e, Seen())
  {
    var s, s', tr := Quiet(Armed), Seen(), Open(KEY, 0, 8.0, 0);
    e := Observe(KEY, 10.0, SLIDERS, ROOM, s'.r.visits, [tr], 1);
    assert s'.r.visits - {KEY} == map[] && LivePart(s.r.visits) == map[];
    assert [tr][..1] == [tr];
    HandleOne(s.r.(visits := s'.r.visits), tr, 10.0, 30.0, ROOM);
    assert EvictedIds(s.r.visits, s'.r.visits, KEY) == {};
  }

  lemma SecondDetection() returns (e: Event)
    ensures !e.Crash? && Step(Seen(), e, SeenTwice())
  {
    var s, s', tr := Seen(), SeenTwice(), Extend(KEY, 0, 12.0);
    e := Observe(KEY, 12.0, SLIDERS, ROOM, s'.r.visits, [tr], 1);
    assert [tr][..1] == [tr];
    HandleOne(s.r.(visits := s'.r.visits), tr, 12.0, 30.0, ROOM);
    assert EvictedIds(s.r.visits, s'.r.visits, KEY) == {};
    assert {} + {0} * {0} == {0};
  }

  lemma VisitOpen() returns (states: seq<World>, events: seq<Event>)
    ensures RunTo(states, events, SeenTwice()) && Crash !in events
  {
    states, events := FlagUp();
    var e1 := FirstDetection();
    var e2 := SecondDetection();
    hide Step;
    Then(states, events, Quiet(Armed), e1, Seen());
    states, events := states + [Seen()], events + [e1];
    Then(states, events, Seen(), e2, SeenTwice());
    states, events := states + [SeenTwice()], events + [e2];
  }

  // ------------------------------------------------- lost without any crash

  /** The open visit is drained. */
  function Drained(mode: Mode, durable: Table, posted: set<VisitId>): World {
    World(mode, RunnerState(map[], map[], durable, {0}, map[0 := Job(8.0, 12.0, Waiting)], [0], posted, 0,
                            map[0 := Span(8.0, 12.0)]),
          {}, {}, 1, 13.0, DEFAULT_MAX_KEYS, [], {}, [])
  }

  lemma DrainVisit() returns (e: Event)
    ensures !e.Crash? && Step(SeenTwice(), e, Drained(Draining, SeenTwice().r.table, {0}))
  {
    var s, tr := SeenTwice(), Finalize(KEY, 0, 8.0, 12.0, 0);
    e := DrainStart(13.0, ROOM, [tr]);
    assert Closes([tr], [tr][0].key);
    assert [tr][1..] == [] && s.r.table - {0} == map[];
    assert {0} + {0} * {0} == {0};
  }

  lemma VisitDrained() returns (states: seq<World>, events: seq<Event>)
    ensures RunTo(states, events, Drained(Draining, SeenTwice().r.table, {0})) && Crash !in events
  {
    states, events := VisitOpen();
    var e := DrainVisit();
    hide Step;
    var s' := Drained(Draining, SeenTwice().r.table, {0});
    Then(states, events, SeenTwice(), e, s');
    states, events := states + [s'], events + [e];
  }

  /** The capture flag goes down before the clip is cut. */
  lemma FlagDown() returns (states: seq<World>, events: seq<Event>)
    ensures RunTo(states, events, Drained(Off, map[], {})) && Crash !in events
  {
    states, events := VisitDrained();
    Then(states, events, Last(states), DrainEnd, Drained(Armed, map[], {0}));
    states, events := states + [Drained(Armed, map[], {0})], events + [DrainEnd];
    Then(states, events, Drained(Armed, map[], {0}), Disarm, Drained(Off, map[], {}));
    states, events := states + [Drained(Off, map[], {})], events + [Disarm];
  }

  /** Arming a runner over finalize threads does happen: the flag goes up again
      at once, and the clip of a visit that was handed over is lost for good. */
  lemma ToggleLosesTheClip() returns (states: seq<World>, events: seq<Event>)
    ensures Path(states, events) && Initial(states[0]) && Crash !in events
    ensures var last := Last(states);
            last.mode.Armed? && last.r.handed == [0] && last.published == [] && !MayPublish(last, 0)
  {
    states, events := FlagDown();
    var s6 := Drained(Off, map[], {});
    var s7 := s6.(mode := Recovering([], Nobody));
    var s8 := s7.(mode := Armed, r := s7.r.(scratch := {}));
    assert Step(s6, Boot(13.0, []), s7) && Step(s7, Arm, s8);
    hide Step, MayPublish, Hopeless;
    Then(states, events, s6, Boot(13.0, []), s7);
    Then(states + [s7], events + [Boot(13.0, [])], s7, Arm, s8);
    states, events := states + [s7] + [s8], events + [Boot(13.0, [])] + [Arm];
    LastIsHopeless(states, events, s8, 0);
  }

  lemma LastIsHopeless(states: seq<World>, events: seq<Event>, s: World, id: VisitId)
    requires RunTo(states, events, s) && Hopeless(s, id)
    ensures !MayPublish(s, id)
  {
    InvOnEveryRun(states, events, |states| - 1);
    HopelessMeansNever(s, id);
  }

  /** The drained table on disk, and then a crash: the visit handed over is lost. */
  lemma CrashLosesTheClip() returns (states: seq<World>, events: seq<Event>)
    ensures Path(states, events) && Initial(states[0]) && |events| > 0 && events[|events| - 1] == Crash
    ensures var last := Last(states); last.r.handed == [0] && last.published == [] && !MayPublish(last, 0)
  {
    states, events := VisitDrained();
    var s1, s2 := Drained(Armed, map[], {0}), AfterCrash(Drained(Armed, map[], {0}));
    assert Step(Last(states), DrainEnd, s1) && Step(s1, Crash, s2) && Hopeless(s2, 0);
    hide Step, MayPublish, Hopeless;
    Then(states, events, Last(states), DrainEnd, s1);
    Then(states + [s1], events + [DrainEnd], s1, Crash, s2);
    states, events := states + [s1] + [s2], events + [DrainEnd] + [Crash];
    LastIsHopeless(states, events, s2, 0);
  }

  // -------------------------------------------------- below the disk floor

  const FULL: Env := Env(map[0 := 0], {}, {})

  /** The visit has ended by absence while the disk was full. */
  function Overdue(): World {
    World(Armed, RunnerState(map[KEY := Idle(45.0)], map[], map[], {0}, map[0 := Job(8.0, 42.0, Waiting)], [0], {0}, 0,
                             map[0 := Span(8.0, 12.0)]),
          {}, {}, 1, 45.0, DEFAULT_MAX_KEYS, [], {}, [])
  }

  lemma LastTick() returns (e: Event)
    ensures Step(SeenTwice(), e, Overdue())
  {
    var s, tr := SeenTwice(), Finalize(KEY, 0, 8.0, 42.0, 0);
    e := Tick(45.0, 30.0, FULL, Overdue().r.visits, [tr], 1);
    assert Closes([tr], [tr][0].key) && [tr][..1] == [tr];
    HandleOne(s.r.(visits := e.visits), tr, 45.0, 30.0, FULL);
    assert s.r.table - {0} == map[];
  }

  /** The window handed over claims thirty seconds more than were copied, three
      times what the check of a clip's duration tolerates. */
  lemma FloorOutrunsTheCopies() returns (states: seq<World>, events: seq<Event>)
    ensures Path(states, events) && Initial(states[0]) && Last(states) == Overdue()
    ensures var r := Last(states).r;
            0 in r.jobs && 0 in r.lastCopy && !Covered(r, 0) && r.jobs[0].endTs - r.lastCopy[0].untilTs == 30.0
  {
    states, events := VisitOpen();
    var e := LastTick();
    hide Step;
    Then(states, events, SeenTwice(), e, Overdue());
    states, events := states + [Overdue()], events + [e];
  }

  // ---------------------------------------------------------- after a crash

  function Entry0(attempts: nat): Entry {
    Entry(if attempts == 0 then OPEN else FINALIZING, KEY, 8.0, 12.0, 12.0, 0, 30.0, attempts)
  }

  /** The worker is down, or recovering the visit, after so many calls. */
  function Recovered(mode: Mode, scratch: set<VisitId>, calls: nat): World {
    World(mode, RunnerState(map[], map[], map[0 := Entry0(calls)], scratch, map[], [], {}, 0, map[0 := Span(8.0, 12.0)]),
          {}, {}, 1, 12.0, DEFAULT_MAX_KEYS, [], {}, seq(calls, i => Call(0, 8.0, 12.0)))
  }

  lemma Crashed() returns (states: seq<World>, events: seq<Event>)
    ensures RunTo(states, events, Recovered(Off, {0}, 0))
  {
    states, events := VisitOpen();
    Then(states, events, SeenTwice(), Crash, Recovered(Off, {0}, 0));
    states, events := states + [Recovered(Off, {0}, 0)], events + [Crash];
  }

  const BOOT: Event := Boot(12.0, [0])
  const TRYING: Mode := Recovering([0], Trying(0, Waiting, false, false))

  lemma BootAndMark(scratch: set<VisitId>, calls: nat)
    ensures Step(Recovered(Off, scratch, calls), BOOT, Recovered(Recovering([0], Nobody), scratch, calls))
    ensures Step(Recovered(Recovering([0], Nobody), scratch, calls), RecoverMark, Recovered(TRYING, scratch, calls + 1))
  {
    assert map[0 := Entry0(calls)][0 := Marked(Entry0(calls))] == map[0 := Entry0(calls + 1)];
    assert seq(calls + 1, i => Call(0, 8.0, 12.0)) == seq(calls, i => Call(0, 8.0, 12.0)) + [Call(0, 8.0, 12.0)];
  }

  /** Boot and mark the entry, in a run. */
  lemma TryAgain(states: seq<World>, events: seq<Event>, scratch: set<VisitId>, calls: nat)
    returns (states': seq<World>, events': seq<Event>)
    requires RunTo(states, events, Recovered(Off, scratch, calls))
    ensures RunTo(states', events', Recovered(TRYING, scratch, calls + 1))
    ensures events' == events + [BOOT, RecoverMark] && states <= states' && |states'| >= 2
    ensures states'[|states'| - 2] == Recovered(Recovering([0], Nobody), scratch, calls)
  {
    BootAndMark(scratch, calls);
    hide Step, Recovered;
    var s1, s2 := Recovered(Recovering([0], Nobody), scratch, calls), Recovered(TRYING, scratch, calls + 1);
    Then(states, events, Recovered(Off, scratch, calls), BOOT, s1);
    Then(states + [s1], events + [BOOT], s1, RecoverMark, s2);
    states', events' := states + [s1] + [s2], events + [BOOT] + [RecoverMark];
  }

  /** The first attempt fails: scratch gone, entry kept. */
  lemma ReapAndReturn()
    ensures var s3 := Recovered(Recovering([0], Trying(0, Waiting, true, false)), {}, 1);
            && Step(Recovered(TRYING, {0}, 1), RecoverReap, s3)
            && Step(s3, RecoverReturn, Recovered(Recovering([], Nobody), {}, 1))
            && Step(Recovered(Recovering([], Nobody), {}, 1), Crash, Recovered(Off, {}, 1))
  {
    assert {0} - {0} == {} && [0][1..] == [];
  }

  lemma RecoveredFacts(mode: Mode, scratch: set<VisitId>, calls: nat)
    ensures var s := Recovered(mode, scratch, calls);
            s.mode == mode && |s.calls| == calls && s.published == [] && s.r.scratch == scratch
  {
  }

  lemma TryingIsHopeless(calls: nat)
    ensures Hopeless(Recovered(TRYING, {}, calls), 0)
  {
  }

  /** The visit was marked with its scratch still there. */
  ghost predicate MarkedWithScratch(states: seq<World>, events: seq<Event>, n: nat) {
    && n < |events| && n < |states| && events[n] == RecoverMark
    && states[n].mode == Recovering([0], Nobody) && 0 in states[n].r.scratch
  }

  lemma FailsOnce() returns (states: seq<World>, events: seq<Event>, n: nat)
    ensures RunTo(states, events, Recovered(Recovering([], Nobody), {}, 1)) && MarkedWithScratch(states, events, n)
  {
    states, events := Crashed();
    states, events := TryAgain(states, events, {0}, 0);
    n := |events| - 1;
    RecoveredFacts(Recovering([0], Nobody), {0}, 0);
    ReapAndReturn();
    hide Step, Recovered;
    var s3 := Recovered(Recovering([0], Trying(0, Waiting, true, false)), {}, 1);
    var s4 := Recovered(Recovering([], Nobody), {}, 1);
    Then(states, events, Recovered(TRYING, {0}, 1), RecoverReap, s3);
    Then(states + [s3], events + [RecoverReap], s3, RecoverReturn, s4);
    states, events := states + [s3] + [s4], events + [RecoverReap] + [RecoverReturn];
  }

  lemma TryAgainMarked(states: seq<World>, events: seq<Event>, scratch: set<VisitId>, calls: nat, n: nat)
    returns (states': seq<World>, events': seq<Event>)
    requires RunTo(states, events, Recovered(Off, scratch, calls)) && MarkedWithScratch(states, events, n)
    ensures RunTo(states', events', Recovered(TRYING, scratch, calls + 1)) && MarkedWithScratch(states', events', n)
  {
    states', events' := TryAgain(states, events, scratch, calls);
    assert states'[n] == states[n];
  }

  /** A visit whose scratch survived the crash is retried in vain: the first
      attempt returns without a clip and takes the scratch, yet the entry stays,
      and the next boot calls the finalizer on it once more. */
  lemma RetriedInVain() returns (states: seq<World>, events: seq<Event>, n: nat)
    ensures Path(states, events) && Initial(states[0]) && MarkedWithScratch(states, events, n)
    ensures var last := Last(states);
            && last.mode == TRYING && |last.calls| == 2 && last.published == []
            && 0 !in last.r.scratch && !MayPublish(last, 0)
  {
    states, events, n := FailsOnce();
    ReapAndReturn();
    Then(states, events, Recovered(Recovering([], Nobody), {}, 1), Crash, Recovered(Off, {}, 1));
    states, events := states + [Recovered(Off, {}, 1)], events + [Crash];
    assert MarkedWithScratch(states, events, n);
    hide MarkedWithScratch;
    states, events := TryAgainMarked(states, events, {}, 1, n);
    TryingIsHopeless(2);
    RecoveredFacts(TRYING, {}, 2);
    hide Step, Recovered, Hopeless, MayPublish;
    LastIsHopeless(states, events, Recovered(TRYING, {}, 2), 0);
  }

  const CAT: Key := "cat:front"

  /** A runner armed over the leftover, and one detection of another subject. */
  function Overwritten(): World {
    var t: Table := map[1 := Entry(OPEN, CAT, 18.0, 18.0, 20.0, 0, 30.0, 0)];
    var s := Recovered(Armed, {}, 1);
    s.(r := s.r.(visits := map[CAT := Present(1, 20.0, 20.0, 18.0, 0)], table := t, durable := t, posted := {1}),
       nextId := 2, clock := 20.0)
  }

  lemma CatDetected() returns (e: Event)
    ensures Step(Recovered(Armed, {}, 1), e, Overwritten())
  {
    var s, s', tr := Recovered(Armed, {}, 1), Overwritten(), Open(CAT, 1, 18.0, 0);
    e := Observe(CAT, 20.0, SLIDERS, ROOM, s'.r.visits, [tr], 1);
    assert s'.r.visits - {CAT} == map[] && LivePart(s.r.visits) == map[];
    assert [tr][..1] == [tr];
    HandleOne(s.r.(visits := s'.r.visits), tr, 20.0, 30.0, ROOM);
    assert EvictedIds(s.r.visits, s'.r.visits, CAT) == {};
  }

  lemma ArmOverLeftover()
    ensures Step(Recovered(Recovering([], Nobody), {}, 1), Arm, Recovered(Armed, {}, 1))
    ensures var s := Recovered(Armed, {}, 1); s.mode.Armed? && 0 in s.r.durable && s.r.durable[0].attempts == 1
  {
  }

  /** An entry left for a later retry after one attempt of three is erased by the
      first detection after the boot. */
  lemma FirstWriteErasesLeftover() returns (states: seq<World>, events: seq<Event>)
    ensures Path(states, events) && Initial(states[0]) && |events| >= 2 && events[|events| - 2] == Arm
    ensures var armed, last := states[|states| - 2], Last(states);
            && 0 in armed.r.durable && armed.r.durable[0].attempts == 1
            && last.mode.Armed? && 0 !in last.r.durable && last.published == []
  {
    var n;
    states, events, n := FailsOnce();
    ArmOverLeftover();
    var e := CatDetected();
    assert 0 !in Overwritten().r.durable && Overwritten().mode.Armed? && Overwritten().published == [];
    hide Step, Recovered, Overwritten;
    var s1, s2 := Recovered(Armed, {}, 1), Overwritten();
    Then(states, events, Recovered(Recovering([], Nobody), {}, 1), Arm, s1);
    Then(states + [s1], events + [Arm], s1, e, s2);
    states, events := states + [s1] + [s2], events + [Arm] + [e];
  }

  /** A finalizer that takes the worker down each time is called again on every
      boot: there are runs with any number of calls for one visit. */
  lemma {:induction false} CrashingRecoveryNeverGivesUp(n: nat) returns (states: seq<World>, events: seq<Event>)
    ensures RunTo(states, events, Recovered(Off, {0}, n))
    ensures Last(states).r.durable[0].attempts == |Last(states).calls| == n
  {
    if n == 0 {
      states, events := Crashed();
    } else {
      states, events := CrashingRecoveryNeverGivesUp(n - 1);
      states, events := TryAgain(states, events, {0}, n - 1);
      var s, s' := Recovered(TRYING, {0}, n), Recovered(Off, {0}, n);
      Then(states, events, s, Crash, s');
      states, events := states + [s'], events + [Crash];
    }
  }

  // ----------------------------------------------------- published twice

  /** The drained visit's thread has published, but the drain has yet to write. */
  function Cut(mode: Mode, entry: Entry, scratch: set<VisitId>, temps: set<VisitId>, published: seq<VisitId>, calls: seq<Call>): World {
    World(mode, RunnerState(map[], map[], map[0 := entry], scratch, map[], [0], {}, 0, map[0 := Span(8.0, 12.0)]),
          temps, {0}, 1, 13.0, DEFAULT_MAX_KEYS, published, {}, calls)
  }

  lemma ThreadPublishes() returns (states: seq<World>, events: seq<Event>)
    ensures RunTo(states, events, Cut(Off, Entry0(0), {0}, {}, [0], []))
  {
    states, events := VisitDrained();
    var s := Drained(Draining, SeenTwice().r.table, {0});
    var s1 := s.(r := s.r.(jobs := map[0 := Job(8.0, 12.0, Concatenated)]), temps := {0});
    var s2 := s1.(r := s1.r.(jobs := map[0 := Job(8.0, 12.0, Stage.Published)]), temps := {}, clips := {0}, published := [0]);
    assert s1.temps - {0} == {};
    Then(states, events, s, JobConcat(0), s1);
    Then(states + [s1], events + [JobConcat(0)], s1, JobPublish(0), s2);
    Then(states + [s1] + [s2], events + [JobConcat(0)] + [JobPublish(0)], s2, Crash, Cut(Off, Entry0(0), {0}, {}, [0], []));
    states := states + [s1] + [s2] + [Cut(Off, Entry0(0), {0}, {}, [0], [])];
    events := events + [JobConcat(0)] + [JobPublish(0)] + [Crash];
  }

  const CALL: Call := Call(0, 8.0, 12.0)

  function Again(stage: Stage, temps: set<VisitId>, published: seq<VisitId>): World {
    Cut(Recovering([0], Trying(0, stage, false, true)), Entry0(1), {0}, temps, published, [CALL])
  }

  lemma BootRejects()
    ensures var s, s1 := Cut(Off, Entry0(0), {0}, {}, [0], []), Cut(Recovering([0], Nobody), Entry0(0), {0}, {}, [0], []);
            Step(s, Boot(13.0, [0]), s1) && Step(s1, RecoverMark, Again(Waiting, {}, [0]))
  {
    assert map[0 := Entry0(0)][0 := Marked(Entry0(0))] == map[0 := Entry0(1)];
  }

  lemma ConcatAgain()
    ensures Step(Again(Waiting, {}, [0]), RecoverConcat, Again(Concatenated, {0}, [0]))
  {
  }

  lemma PublishAgain()
    ensures Step(Again(Concatenated, {0}, [0]), RecoverPublish, Again(Stage.Published, {}, [0, 0]))
  {
    assert {0} - {0} == {} && [0] + [0] == [0, 0];
  }

  /** A clip published just before a crash is published over at the next boot,
      when its entry and scratch are still there and the probe fails on it. */
  lemma SlowProbePublishesTwice() returns (states: seq<World>, events: seq<Event>)
    ensures Path(states, events) && Initial(states[0]) && Last(states).published == [0, 0]
  {
    states, events := ThreadPublishes();
    BootRejects();
    ConcatAgain();
    PublishAgain();
    assert Again(Stage.Published, {}, [0, 0]).published == [0, 0];
    hide Step, Cut, Again;
    var s, s1 := Cut(Off, Entry0(0), {0}, {}, [0], []), Cut(Recovering([0], Nobody), Entry0(0), {0}, {}, [0], []);
    var s2, s3, s4 := Again(Waiting, {}, [0]), Again(Concatenated, {0}, [0]), Again(Stage.Published, {}, [0, 0]);
    Then(states, events, s, Boot(13.0, [0]), s1);
    Then(states + [s1], events + [Boot(13.0, [0])], s1, RecoverMark, s2);
    states, events := states + [s1] + [s2], events + [Boot(13.0, [0])] + [RecoverMark];
    Then(states, events, s2, RecoverConcat, s3);
    Then(states + [s3], events + [RecoverConcat], s3, RecoverPublish, s4);
    states, events := states + [s3] + [s4], events + [RecoverConcat] + [RecoverPublish];
  }
}
