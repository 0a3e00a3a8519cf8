/** What an earlier recovery left in the durable table, once a runner is armed
    over it: the runner starts with an empty table and writes that. */
module PipelineLeftovers {
  import opened VisitLifecycle
  import opened VisitRuntime
  import opened Recovery
  import opened Pipeline
  import opened PipelineInvariant
  import opened PipelineFrames
  import opened PipelineTheorems
  import opened PipelineHandOffs
  import opened PipelineLosses

  /** A runner is alive. */
  predicate Up(s: World) {
    s.mode.Armed? || s.mode.Draining?
  }

  // ----------------------------------------------------------------- posts

  lemma {:induction false} HandleKeepsPosts(r: RunnerState, out: seq<Transition>, now: real, absence: real, env: Env)
    ensures r.posted <= Handle(r, out, now, absence, env).posted
    decreases |out|
  {
    if out != [] {
      assert r.posted <= Apply(r, out[0], now, absence, env).posted;
      HandleKeepsPosts(Apply(r, out[0], now, absence, env), out[1..], now, absence, env);
    }
  }

  lemma {:induction false} DrainKeepsPosts(r: RunnerState, out: seq<Transition>, env: Env)
    requires forall i :: 0 <= i < |out| ==> out[i].Finalize?
    ensures Drain(r, out, env).posted == r.posted
    decreases |out|
  {
    if out != [] { DrainKeepsPosts(DrainOne(r, out[0], env), out[1..], env); }
  }

  lemma DrainStepKeepsPosts(s: World, e: Event, s': World)
    requires e.DrainStart? && StepDrain(s, e, s')
    ensures s'.r.posted == s.r.posted
  {
    forall i | 0 <= i < |e.out| ensures e.out[i].Finalize? { assert ClosesAtLastSeen(s.r.visits, e.now, e.out[i]); }
    DrainKeepsPosts(s.r, e.out, e.env);
  }

  /** While a runner lives its posts only grow. */
  lemma StepKeepsPosts(s: World, e: Event, s': World)
    requires Step(s, e, s') && Up(s) && Up(s')
    ensures s.r.posted <= s'.r.posted
  {
    hide Observed, Ticked, ClosesLive, Handle, Drain;
    if e.Tick? {
      HandleKeepsPosts(s.r.(visits := e.visits), e.out[..e.upto], e.now, e.absence, e.env);
    } else if e.Observe? {
      HandleKeepsPosts(s.r.(visits := e.visits), e.out[..e.upto], e.now, e.knobs.absence, e.env);
    } else if e.DrainStart? {
      DrainStepKeepsPosts(s, e, s');
    }
  }

  lemma StepForgetsPosts(s: World, e: Event, s': World)
    requires Step(s, e, s') && !Up(s') && (!Up(s) ==> s.r.posted == {})
    ensures s'.r.posted == {}
  {
    hide Observed, Ticked, ClosesLive, Handle, Drain;
  }

  lemma {:induction false} PostsNeedARunner(states: seq<World>, events: seq<Event>, n: nat)
    requires Path(states, events) && Initial(states[0]) && n < |states| && !Up(states[n])
    ensures states[n].r.posted == {}
  {
    if n > 0 {
      var i := n - 1;
      assert Step(states[i], events[i], states[i + 1]);
      if !Up(states[i]) { PostsNeedARunner(states, events, i); }
      hide Step, Path;
      StepForgetsPosts(states[i], events[i], states[n]);
    }
  }

  // ------------------------------------------------------------- first write

  /** The runner armed in `s0` has not written the table yet. */
  ghost predicate Unwritten(s0: World, s: World, id: VisitId) {
    && s.r.table == map[] && s.r.posted == {} && s.r.durable == s0.r.durable
    && (id in s.r.scratch <==> id in s0.r.scratch)
  }

  lemma NothingLive(s: World)
    requires Inv(s) && s.r.table == map[]
    ensures forall k :: !Live(s.r.visits, k)
  {
    assert forall k :: Live(s.r.visits, k) ==> Agrees(s.r.table, k, s.r.visits[k]);
  }

  lemma TickClosesLive(v: Visits, v': Visits, now: real, absence: real, out: seq<Transition>)
    requires Ticked(v, v', now, absence, out) && out != []
    ensures Live(v, out[0].key)
  {
    assert ClosesAtDeadline(v, now, absence, out[0]);
  }

  lemma DrainClosesLive(v: Visits, now: real, out: seq<Transition>)
    requires ClosesLive(v, v.Keys, now, out) && out != []
    ensures Live(v, out[0].key)
  {
    assert ClosesAtLastSeen(v, now, out[0]);
  }

  lemma TickWritesNothing(s: World, e: Event, s': World)
    requires e.Tick? && StepTick(s, e, s') && forall k :: !Live(s.r.visits, k)
    ensures s'.r == s.r.(visits := e.visits)
  {
    if e.out != [] {
      TickClosesLive(s.r.visits, e.visits, e.now, e.absence, e.out);
      assert false;
    }
  }

  lemma DrainStartWritesNothing(s: World, e: Event, s': World)
    requires e.DrainStart? && StepDrain(s, e, s') && forall k :: !Live(s.r.visits, k)
    ensures s'.r == s.r.(visits := map[])
  {
    if e.out != [] {
      DrainClosesLive(s.r.visits, e.now, e.out);
      assert false;
    }
  }

  /** A first sight is refused, or writes the table of the new visit alone. */
  lemma ObserveWrites(s: World, e: Event, s': World)
    requires e.Observe? && StepObserve(s, e, s') && s'.mode.Armed? && (forall k :: !Live(s.r.visits, k)) && s.r.table == map[]
    ensures s'.r.scratch == s.r.scratch
    ensures || (s'.r.posted == s.r.posted && s'.r.table == map[] && s'.r.durable == s.r.durable)
            || (s'.r.posted == s.r.posted + {s.nextId} && s'.r.durable.Keys == {s.nextId})
  {
    assert !Live(s.r.visits, e.key) && |e.out| == 1 && e.out[0].Open? && e.out[0].visitId == s.nextId;
    hide Observed;
    assert e.out[..e.upto] == [e.out[0]];
    HandleOne(s.r.(visits := e.visits), e.out[0], e.now, e.knobs.absence, e.env);
  }

  /** The next step leaves the file alone, or takes the leftover out of it. */
  ghost predicate WritesOrNot(s0: World, e: Event, s': World, id: VisitId) {
    if s'.r.posted == {} && e != DrainEnd then Unwritten(s0, s', id) else id !in s'.r.durable
  }

  lemma ObserveWritesOrNot(s0: World, s: World, e: Event, s': World, id: VisitId)
    requires Inv(s) && Unwritten(s0, s, id) && Up(s') && e.Observe? && StepObserve(s, e, s') && id < s.nextId
    ensures WritesOrNot(s0, e, s', id)
  {
    NothingLive(s);
    hide Inv;
    assert s'.mode.Armed? by { hide Observed, Handle; }
    ObserveWrites(s, e, s');
    hide StepObserve;
    assert s.nextId in s.r.posted + {s.nextId};
  }

  lemma OtherWritesOrNot(s0: World, s: World, e: Event, s': World, id: VisitId)
    requires Unwritten(s0, s, id) && Up(s) && Up(s') && Step(s, e, s') && id !in s.r.jobs && !HandlesVisits(e)
    ensures WritesOrNot(s0, e, s', id)
  {
    hide StepTick, StepObserve, ClosesLive, Drain;
  }

  lemma StepWritesOrNot(s0: World, s: World, e: Event, s': World, id: VisitId)
    requires Inv(s) && Unwritten(s0, s, id) && Up(s) && Up(s') && Step(s, e, s') && id !in s.r.jobs && id < s.nextId
    ensures WritesOrNot(s0, e, s', id)
  {
    if e.Observe? {
      ObserveWritesOrNot(s0, s, e, s', id);
    } else if HandlesVisits(e) {
      NothingLive(s);
      hide Inv;
      if e.Tick? { TickWritesNothing(s, e, s'); } else { DrainStartWritesNothing(s, e, s'); }
      hide Step;
    } else {
      OtherWritesOrNot(s0, s, e, s', id);
    }
  }

  /** In no table, and in no thread's hands. */
  predicate Unowned(s: World, id: VisitId) {
    id < s.nextId && id !in s.r.table && id !in s.r.jobs
  }

  lemma StepKeepsApart(s: World, e: Event, s': World, id: VisitId)
    requires Inv(s) && Step(s, e, s') && Unowned(s, id)
    ensures Unowned(s', id) && Descends(s.r.durable, s'.r.durable, id)
  {
    StepDescends(s, e, s', id);
    if HandlesVisits(e) {
      StepSpares(s, e, s', id);
    } else if id in s'.r.jobs {
      OthersStartNone(s, e, s', id);
    }
  }

  ghost predicate Quiet(states: seq<World>, events: seq<Event>, n: nat, m: nat)
    requires n < m < |states| && |states| == |events| + 1
  {
    states[m].r.posted == {} && forall k :: n < k < m ==> events[k] != DrainEnd
  }

  lemma ArmBegins(s: World, s': World, id: VisitId)
    requires Inv(s) && Step(s, Arm, s') && s.r.posted == {} && id in s'.r.durable
    ensures Stands(s', s', id, true) && s'.r.posted == {}
  {
  }

  /** Where the leftover stands after `quiet` steps, or others. */
  ghost predicate Stands(s0: World, s: World, id: VisitId, quiet: bool) {
    Unowned(s, id) && if quiet then Unwritten(s0, s, id) else id !in s.r.durable
  }

  lemma LeftoverStep(s0: World, s: World, e: Event, s': World, id: VisitId, quiet: bool)
    requires Inv(s) && Step(s, e, s') && Up(s) && Up(s') && Stands(s0, s, id, quiet)
    ensures Stands(s0, s', id, quiet && s'.r.posted == {} && e != DrainEnd)
    ensures s.r.posted <= s'.r.posted
  {
    StepKeepsApart(s, e, s', id);
    StepKeepsPosts(s, e, s');
    hide Inv, Step;
    if quiet { StepWritesOrNot(s0, s, e, s', id); }
  }

  lemma QuietOneMore(states: seq<World>, events: seq<Event>, n: nat, m: nat)
    requires n < m && m + 1 < |states| && |states| == |events| + 1 && states[m].r.posted <= states[m + 1].r.posted
    ensures Quiet(states, events, n, m + 1) <==>
              Quiet(states, events, n, m) && states[m + 1].r.posted == {} && events[m] != DrainEnd
  {
  }

  lemma LeftoverArmed(states: seq<World>, events: seq<Event>, n: nat, id: VisitId)
    requires Path(states, events) && Initial(states[0]) && n < |events| && events[n] == Arm
    requires id in states[n + 1].r.durable
    ensures Stands(states[n + 1], states[n + 1], id, true) && states[n + 1].r.posted == {}
  {
    StepOfRun(states, events, n);
    PostsNeedARunner(states, events, n) by { ArmFromRecovery(states[n], states[n + 1]); }
    ArmBegins(states[n], states[n + 1], id);
  }

  lemma {:induction false} LeftoverInduction(states: seq<World>, events: seq<Event>, n: nat, m: nat, id: VisitId)
    requires Path(states, events) && Initial(states[0]) && n < m < |states| && events[n] == Arm
    requires id in states[n + 1].r.durable && forall k :: n < k <= m ==> Up(states[k])
    ensures |states| == |events| + 1 && Stands(states[n + 1], states[m], id, Quiet(states, events, n, m))
    decreases m
  {
    var i := m - 1;
    StepOfRun(states, events, i);
    hide Path, Initial, Inv, Step, Stands;
    if i == n {
      LeftoverArmed(states, events, n, id);
    } else {
      LeftoverInduction(states, events, n, i, id);
      LeftoverStep(states[n + 1], states[i], events[i], states[m], id, Quiet(states, events, n, i));
      QuietOneMore(states, events, n, i);
      hide Quiet;
    }
  }

  lemma ArmFromRecovery(s: World, s': World)
    requires Step(s, Arm, s')
    ensures !Up(s)
  {
  }

  /** The first write of a runner erases what recovery left behind, and nothing
      else does: as long as the runner is alive, a leftover entry is on disk if and
      only if no open was accepted since it was armed and no drain has ended.  Until
      then its visit can still be published, given scratch, by the recovery of a
      later boot; after that, by nothing. */
  lemma LeftoverSurvivesExactly(states: seq<World>, events: seq<Event>, n: nat, m: nat, id: VisitId)
    requires Path(states, events) && Initial(states[0]) && n < m < |states| && events[n] == Arm
    requires id in states[n + 1].r.durable && forall k :: n < k <= m ==> Up(states[k])
    ensures id in states[m].r.durable <==>
              states[m].r.posted == {} && forall k :: n < k < m ==> events[k] != DrainEnd
    ensures MayPublish(states[m], id) <==> id in states[m].r.durable && id in states[n].r.scratch
  {
    LeftoverInduction(states, events, n, m, id);
    StepOfRun(states, events, n);
    InvOnEveryRun(states, events, m);
    hide Path, Initial, Inv, MayPublish;
    ArmKeepsDisk(states[n], states[n + 1], id);
    IdleMayPublish(states[m], id);
  }
}
