/** What the invariant means for whole runs of the worker. */
module PipelineTheorems {
  import opened Collections
  import opened VisitLifecycle
  import opened VisitRuntime
  import opened Recovery
  import opened Pipeline
  import opened PipelineInvariant
  import opened PipelineFrames

  /** The visits a live tracker record of `k` must be known by, everywhere. */
  predicate InAgreement(s: World, k: Key)
    requires Live(s.r.visits, k)
  {
    && Agrees(s.r.table, k, s.r.visits[k])
    && Agrees(s.r.durable, k, s.r.visits[k])
  }

  /** Tracker, table and disk agree whenever a runner is armed. */
  lemma ThreeWayAgreement(states: seq<World>, events: seq<Event>, n: nat)
    requires Path(states, events) && Initial(states[0]) && n < |states| && states[n].mode.Armed?
    ensures forall k :: Live(states[n].r.visits, k) ==> InAgreement(states[n], k)
    ensures var s := states[n];
            forall id :: id in s.r.table ==>
              id in s.evicted || (Live(s.r.visits, s.r.table[id].key) && s.r.visits[s.r.table[id].key].visitId == id)
    ensures |states[n].r.visits| <= states[n].maxKeys
  {
    InvOnEveryRun(states, events, n);
    var s := states[n];
    forall k | Live(s.r.visits, k) ensures InAgreement(s, k) {
      assert Agrees(s.r.table, k, s.r.visits[k]);
    }
    forall id | id in s.r.table
      ensures id in s.evicted || (Live(s.r.visits, s.r.table[id].key) && s.r.visits[s.r.table[id].key].visitId == id)
    {
      assert EntryOk(s.r, ContextOf(s), id, {});
    }
  }

  // --------------------------------------------------------------- crashes

  /** From its open post to its hand-off, at every instant, a visit is on disk
      with a sane window; and whatever takes the runner away, in the middle of a
      batch or between steps, either it was handed over just before or its entry
      survives as it was, for the next boot to take up. */
  lemma OpenVisitSurvivesCrash(states: seq<World>, events: seq<Event>, n: nat, id: VisitId, now: real, ids: seq<VisitId>,
                               booted: World)
    requires Path(states, events) && Initial(states[0]) && n < |events|
    requires id in states[n].r.posted && id !in states[n].r.handed
    requires states[n + 1].mode.Off? && Step(states[n + 1], Boot(now, ids), booted)
    ensures id in states[n].r.durable && Sane(states[n].r.durable[id], states[n].clock)
    ensures || id in states[n + 1].r.handed
            || (id in booted.r.durable && booted.r.durable[id] == states[n].r.durable[id] && id in booted.mode.todo)
  {
    InvOnEveryRun(states, events, n);
    var s := states[n];
    assert id in s.r.table;
    assert Step(s, events[n], states[n + 1]);
    CutKeepsOrHands(s, events[n], states[n + 1], id);
  }

  /** Such a visit is never finalized by recovery over anything but exactly the
      footage it claimed before the crash, in whichever later boot. */
  lemma RecoveredOverItsWindow(states: seq<World>, events: seq<Event>, n: nat, m: nat, id: VisitId)
    requires Path(states, events) && Initial(states[0]) && n < m < |events|
    requires id in states[n].r.posted && id !in states[n].r.handed && states[n + 1].mode.Off?
    requires events[m] == RecoverMark && states[m].mode.Recovering? && states[m].mode.todo != [] && states[m].mode.todo[0] == id
    ensures id in states[n].r.durable
    ensures var e := states[n].r.durable[id];
            states[m + 1].calls == states[m].calls + [Call(id, e.startTs, e.lastExtend)]
  {
    hide *;
    StepOfRun(states, events, n);
    StepOfRun(states, events, m);
    CutFacts(states[n], events[n], states[n + 1], id);
    EntryDescends(states, events, n + 1, m, id);
    MarkCallsAsCut(states[n], states[n + 1], states[m], states[m + 1], id);
  }

  lemma MarkCallsAsCut(s: World, cut: World, t: World, t': World, id: VisitId)
    requires id in s.r.durable && (id in cut.r.durable ==> cut.r.durable[id] == s.r.durable[id])
    requires Descends(cut.r.durable, t.r.durable, id) && Inv(t) && Step(t, RecoverMark, t')
    requires t.mode.Recovering? && t.mode.todo != [] && t.mode.todo[0] == id
    ensures t'.calls == t.calls + [Call(id, s.r.durable[id].startTs, s.r.durable[id].lastExtend)]
  {
    MarkCalls(t, t');
    hide Inv, Step;
  }

  /** The window is within the past, so the clock does not cut it. */
  lemma MarkCalls(s: World, s': World)
    requires Inv(s) && Step(s, RecoverMark, s')
    ensures s.mode.Recovering? && s.mode.todo != [] && s.mode.todo[0] in s.r.durable
    ensures var id := s.mode.todo[0];
            s'.calls == s.calls + [Call(id, s.r.durable[id].startTs, s.r.durable[id].lastExtend)]
  {
    hide Core, ClipsOk, ModeOk;
    assert Sane(s.r.durable[s.mode.todo[0]], s.clock);
  }

  /** After the cut the visit is in no table, and on disk only as it was. */
  lemma CutFacts(s: World, e: Event, s': World, id: VisitId)
    requires Inv(s) && Inv(s') && Step(s, e, s') && s'.mode.Off? && id in s.r.posted && id !in s.r.handed
    ensures id in s.r.durable && id !in s'.r.table && id < s'.nextId
    ensures id in s'.r.durable ==> s'.r.durable[id] == s.r.durable[id]
  {
    assert id in s.r.table;
    CutKeepsOrHands(s, e, s', id);
    hide Step;
  }

  // ------------------------------------------------------------- publishing

  lemma HandedOverOnce(states: seq<World>, events: seq<Event>, n: nat)
    requires Path(states, events) && Initial(states[0]) && n < |states|
    ensures Distinct(states[n].r.handed)
  {
    InvOnEveryRun(states, events, n);
  }

  /** The publish of an attempt whose probe failed on a good clip. */
  predicate Republishes(s: World, e: Event) {
    e.RecoverPublish? && s.mode.Recovering? && s.mode.current.Trying? && s.mode.current.rejected
  }

  /** A step takes no valid clip away and publishes at most one.  It publishes
      over a valid clip exactly when the probe had rejected that clip. */
  lemma PublishStep(s: World, e: Event, s': World)
    requires Inv(s) && Step(s, e, s')
    ensures s.clips <= s'.clips
    ensures s'.published == s.published ||
            exists id :: s'.published == s.published + [id] && s'.clips == s.clips + {id}
                      && (id in s.clips <==> Republishes(s, e))
    ensures Republishes(s, e) ==> s'.published != s.published
  {
    hide Inv, Observed, Ticked, ClosesLive, Handle, Drain;
    if e.JobPublish? {
      JobKeepsInv(s, e, s');
    } else if e.RecoverPublish? {
      AttemptKeepsInv(s, e, s');
    }
  }

  /** Under any schedule of crashes and boots, each visit is published at most
      once, if and only if no attempt that published had started from a probe
      that failed on a good clip. */
  lemma {:induction false} PublishedOnceExactly(states: seq<World>, events: seq<Event>, n: nat)
    requires Path(states, events) && Initial(states[0]) && n < |states|
    ensures Distinct(states[n].published) <==> forall k :: 0 <= k < n ==> !Republishes(states[k], events[k])
  {
    if n > 0 {
      var i := n - 1;
      StepOfRun(states, events, i);
      hide *;
      PublishedOnceExactly(states, events, i);
      PublishStepOnce(states[i], events[i], states[n]);
      assert (forall k :: 0 <= k < n ==> !Republishes(states[k], events[k])) <==>
             (forall k :: 0 <= k < i ==> !Republishes(states[k], events[k])) && !Republishes(states[i], events[i]);
    }
  }

  lemma PublishStepOnce(s: World, e: Event, s': World)
    requires Inv(s) && Step(s, e, s')
    ensures Distinct(s'.published) <==> Distinct(s.published) && !Republishes(s, e)
  {
    PublishStep(s, e, s');
    assert forall id :: id in s.published <==> id in s.clips;
    hide Inv, Step, Distinct, Republishes;
    DistinctStep(s.published, s'.published);
  }

  lemma DistinctStep(ids: seq<VisitId>, ids': seq<VisitId>)
    requires ids' == ids || exists id :: ids' == ids + [id]
    ensures ids' == ids || |ids'| == |ids| + 1
    ensures Distinct(ids') <==> Distinct(ids) && (ids' == ids || ids'[|ids'| - 1] !in ids)
  {
    if ids' != ids {
      var id :| ids' == ids + [id];
      if id !in ids && Distinct(ids) { DistinctOneMore(ids, id); }
      if Distinct(ids') {
        assert forall i :: 0 <= i < |ids| ==> ids'[i] == ids[i];
        assert ids'[|ids|] == id;
      }
    }
  }

  /** Every window handed to a finalize thread is forward and in the past. */
  lemma HandedWindowsAreSane(states: seq<World>, events: seq<Event>, n: nat, id: VisitId)
    requires Path(states, events) && Initial(states[0]) && n < |states| && id in states[n].r.jobs
    ensures states[n].r.jobs[id].startTs <= states[n].r.jobs[id].endTs <= states[n].clock
  {
    InvOnEveryRun(states, events, n);
    assert JobOk(states[n].r, ContextOf(states[n]), id);
  }

  /** Recovery never claims footage that was not copied: the window it asks the
      finalizer for is empty, or lies within the last copy call of the visit,
      made by whichever life. */
  lemma RecoveryStaysWithinCopies(states: seq<World>, events: seq<Event>, n: nat, id: VisitId, now: real)
    requires Path(states, events) && Initial(states[0]) && n < |states| && id in states[n].r.durable
    requires states[n].clock <= now
    ensures var call, r := RecoveryCall(id, states[n].r.durable[id], now), states[n].r;
            && call.startTs <= call.endTs <= states[n].clock
            && (call.startTs < call.endTs ==>
                  id in r.lastCopy && r.lastCopy[id].startTs == call.startTs && call.endTs <= r.lastCopy[id].untilTs)
  {
    InvOnEveryRun(states, events, n);
  }

  // ------------------------------------------------------- the attempt limit

  /** Entries the runner makes have not been tried. */
  ghost predicate Untried(t: Table) {
    forall id :: id in t ==> t[id].attempts == 0
  }

  /** The table has untried entries and entries of `old`. */
  ghost predicate OldOrUntried(before: Table, t: Table) {
    forall id :: id in t ==> t[id].attempts == 0 || (id in before && t[id] == before[id])
  }

  lemma ApplyLeavesUntried(r: RunnerState, before: Table, tr: Transition, now: real, absence: real, env: Env)
    requires Untried(r.table) && OldOrUntried(before, r.durable)
    ensures var r' := Apply(r, tr, now, absence, env); Untried(r'.table) && OldOrUntried(before, r'.durable)
  {
  }

  lemma {:induction false} HandleLeavesUntried(r: RunnerState, before: Table, out: seq<Transition>, now: real, absence: real, env: Env)
    requires Untried(r.table) && OldOrUntried(before, r.durable)
    ensures var r' := Handle(r, out, now, absence, env); Untried(r'.table) && OldOrUntried(before, r'.durable)
    decreases |out|
  {
    if out != [] {
      ApplyLeavesUntried(r, before, out[0], now, absence, env);
      hide Apply, Untried, OldOrUntried;
      HandleLeavesUntried(Apply(r, out[0], now, absence, env), before, out[1..], now, absence, env);
    }
  }

  lemma DrainLeavesUntried(s: World, e: Event, s': World)
    requires Inv(s) && e.DrainStart? && StepDrain(s, e, s') && Untried(s.r.table)
    ensures Untried(s'.r.table) && s'.r.durable == s.r.durable
  {
    forall i | 0 <= i < |e.out| ensures e.out[i].Finalize? { assert ClosesAtLastSeen(s.r.visits, e.now, e.out[i]); }
    hide Inv, ClosesLive, Drain;
    DrainOnlyCloses(s.r, e.out, e.env);
  }

  lemma BatchLeavesUntried(s: World, visits: Visits, out: seq<Transition>, upto: nat, now: real, absence: real, env: Env)
    requires Untried(s.r.table) && upto <= |out|
    ensures var s' := AfterBatch(s, visits, out, upto, now, absence, env);
            Untried(s'.r.table) && OldOrUntried(s.r.durable, s'.r.durable)
  {
    HandleLeavesUntried(s.r.(visits := visits), s.r.durable, out[..upto], now, absence, env);
  }

  lemma VisitsLeaveUntried(s: World, e: Event, s': World)
    requires Inv(s) && HandlesVisits(e) && Step(s, e, s') && Untried(s.r.table)
    ensures Untried(s'.r.table) && OldOrUntried(s.r.durable, s'.r.durable) && s'.calls == s.calls
  {
    hide Inv, Ticked, Observed, Handle, ClosesLive, Drain, Untried;
    if e.Tick? {
      BatchLeavesUntried(s, e.visits, e.out, e.upto, e.now, e.absence, e.env);
    } else if e.Observe? {
      BatchLeavesUntried(s, e.visits, e.out, e.upto, e.now, e.knobs.absence, e.env);
    } else {
      DrainLeavesUntried(s, e, s');
    }
  }

  /** Only a mark of recovery counts an attempt. */
  lemma StepMarks(s: World, e: Event, s': World)
    requires Inv(s) && Step(s, e, s') && Untried(s.r.table)
    ensures Untried(s'.r.table)
    ensures !e.RecoverMark? ==> OldOrUntried(s.r.durable, s'.r.durable) && s'.calls == s.calls
  {
    hide Inv, StepTick, StepObserve;
    if HandlesVisits(e) {
      hide Step;
      VisitsLeaveUntried(s, e, s');
    }
  }

  /** Attempt number `b` of recovering `id` is in progress. */
  predicate Attempting(s: World, id: VisitId, b: nat) {
    && s.mode.Recovering? && s.mode.current.Trying? && s.mode.current.visitId == id
    && id in s.r.durable && s.r.durable[id].attempts == b
  }

  /** A crash takes the worker down while attempt `b` is in progress. */
  predicate CutShort(s: World, e: Event, id: VisitId, b: nat) {
    e.Crash? && Attempting(s, id, b)
  }

  /** From the limit on, an attempt that is not cut short is the last one. */
  lemma AttemptEnds(s: World, e: Event, s': World, id: VisitId, b: nat)
    requires Step(s, e, s') && Attempting(s, id, b) && b >= 3 && !e.Crash?
    ensures Attempting(s', id, b) || id !in s'.r.durable
  {
    hide Observed, Ticked, ClosesLive, Handle, Drain;
  }

  /** An attempt that returns without a clip leaves the entry as it is if and only
      if it was not the third, or a later one; after a publish the entry goes. */
  lemma ReturnKeepsExactly(s: World, s': World)
    requires Step(s, RecoverReturn, s')
    ensures s.mode.Recovering? && s.mode.current.Trying? && s.mode.current.visitId in s.r.durable
    ensures var id := s.mode.current.visitId;
            && (id in s'.r.durable <==> !s.mode.current.stage.Published? && s.r.durable[id].attempts < 3)
            && (id in s'.r.durable ==> s'.r.durable == s.r.durable)
  {
    hide Observed, Ticked, ClosesLive, Handle, Drain;
  }

  function CallsOf(calls: seq<Call>, id: VisitId): nat {
    if calls == [] then 0
    else CallsOf(calls[..|calls| - 1], id) + if calls[|calls| - 1].visitId == id then 1 else 0
  }

  lemma CallsOfOneMore(calls: seq<Call>, call: Call, id: VisitId)
    ensures CallsOf(calls + [call], id) == CallsOf(calls, id) + if call.visitId == id then 1 else 0
  {
    assert (calls + [call])[..|calls|] == calls;
  }

  /** The attempts of an entry are the finalizer calls made for it. */
  predicate Counted(s: World, id: VisitId) {
    && (id in s.r.table || id >= s.nextId ==> CallsOf(s.calls, id) == 0)
    && (id in s.r.durable ==> CallsOf(s.calls, id) == s.r.durable[id].attempts)
  }

  lemma StepCounts(s: World, e: Event, s': World, id: VisitId)
    requires Inv(s) && Step(s, e, s') && Untried(s.r.table) && Counted(s, id)
    ensures Counted(s', id)
  {
    StepMarks(s, e, s');
    IdsGrow(s, e, s');
    if e.RecoverMark? {
      CallsOfOneMore(s.calls, s'.calls[|s.calls|], id);
    } else if id !in s.r.table && id < s.nextId {
      StepDescends(s, e, s', id);
      StepKeepsEntry(s, e, s', id);
      hide Inv, Step;
    } else {
      hide Inv, Step, CallsOf;
    }
  }

  lemma IdsGrow(s: World, e: Event, s': World)
    requires Step(s, e, s')
    ensures s.nextId <= s'.nextId
  {
    hide Observed, Ticked, ClosesLive, Handle, Drain;
  }

  lemma StepKeepsEntry(s: World, e: Event, s': World, id: VisitId)
    requires Inv(s) && Step(s, e, s') && !e.RecoverMark? && id !in s.r.table && id < s.nextId
    ensures id in s'.r.durable ==> id in s.r.durable && s'.r.durable[id] == s.r.durable[id]
  {
    hide Inv, Observed, Ticked, ClosesLive, Handle, Drain;
    if HandlesVisits(e) { StepSpares(s, e, s', id); }
  }

  lemma {:induction false} AttemptsAreCalls(states: seq<World>, events: seq<Event>, n: nat, id: VisitId)
    requires Path(states, events) && Initial(states[0]) && n < |states|
    ensures Untried(states[n].r.table) && Counted(states[n], id)
  {
    if n > 0 {
      var i := n - 1;
      AttemptsAreCalls(states, events, i, id);
      InvOnEveryRun(states, events, i);
      assert Step(states[i], events[i], states[i + 1]);
      hide Inv, Step, Untried, Counted;
      StepMarks(states[i], events[i], states[n]);
      StepCounts(states[i], events[i], states[n], id);
    }
  }

  /** Past the limit: either attempt `b` is still in progress, or it was cut. */
  lemma {:induction false} PastTheLimit(states: seq<World>, events: seq<Event>, n: nat, id: VisitId, b: nat)
    requires Path(states, events) && Initial(states[0]) && n < |states| && b >= 3
    requires id in states[n].r.durable && states[n].r.durable[id].attempts >= b
    ensures Attempting(states[n], id, b) || exists k :: 0 <= k < n && CutShort(states[k], events[k], id, b)
  {
    if n > 0 {
      var i := n - 1;
      StepOfRun(states, events, i);
      AttemptsAreCalls(states, events, i, id);
      hide Path, Initial, Inv, Step, Untried, Counted;
      var s, e, s' := states[i], events[i], states[i + 1];
      if id in s.r.durable && s.r.durable[id].attempts >= b {
        PastTheLimit(states, events, i, id, b);
        if Attempting(s, id, b) {
          if e.Crash? { assert CutShort(states[i], events[i], id, b); } else { AttemptEnds(s, e, s', id, b); }
        }
      } else {
        AttemptBegins(s, e, s', id, b);
      }
    }
  }

  lemma AttemptBegins(s: World, e: Event, s': World, id: VisitId, b: nat)
    requires Inv(s) && Step(s, e, s') && Untried(s.r.table) && b > 0
    requires id in s.r.durable ==> s.r.durable[id].attempts < b
    requires id in s'.r.durable && s'.r.durable[id].attempts >= b
    ensures Attempting(s', id, b)
  {
    StepMarks(s, e, s');
    hide Inv;
    assert e.RecoverMark?;
  }

  /** The limit of three attempts holds but for crashes.  When an entry is marked
      again, attempt `b >= 3`, the last one allowed or a later one, has been made
      if and only if a crash cut it short; so the finalizer is called a fourth
      time exactly when attempt three never returned. */
  lemma AttemptLimit(states: seq<World>, events: seq<Event>, n: nat, b: nat)
    requires Path(states, events) && Initial(states[0]) && n < |events| && events[n] == RecoverMark
    requires b >= 3
    ensures states[n].mode.Recovering? && states[n].mode.todo != [] && states[n].mode.todo[0] in states[n].r.durable
    ensures var id := states[n].mode.todo[0];
            && CallsOf(states[n].calls, id) == states[n].r.durable[id].attempts
            && (states[n].r.durable[id].attempts >= b <==> exists k :: 0 <= k < n && CutShort(states[k], events[k], id, b))
  {
    StepOfRun(states, events, n);
    MarkCalls(states[n], states[n + 1]);
    var id := states[n].mode.todo[0];
    AttemptsAreCalls(states, events, n, id);
    hide Inv, Untried, CallsOf, Path;
    if states[n].r.durable[id].attempts >= b {
      PastTheLimit(states, events, n, id, b);
      assert !Attempting(states[n], id, b);
    }
    if k :| 0 <= k < n && CutShort(states[k], events[k], id, b) {
      StepOfRun(states, events, k);
      CutAttemptStays(states, events, k, n, id, b);
    }
  }

  lemma CutAttemptStays(states: seq<World>, events: seq<Event>, k: nat, n: nat, id: VisitId, b: nat)
    requires Path(states, events) && Initial(states[0]) && k < n < |events| && CutShort(states[k], events[k], id, b)
    requires id in states[n].r.durable
    ensures states[n].r.durable[id].attempts >= b
  {
    StepOfRun(states, events, k);
    EntryDescends(states, events, k + 1, n, id);
  }

  /** Without such a crash no visit costs recovery more than three calls. */
  lemma {:induction false} MoreCallsNeedACrash(states: seq<World>, events: seq<Event>, n: nat, id: VisitId)
    requires Path(states, events) && Initial(states[0]) && n < |states|
    requires CallsOf(states[n].calls, id) > 3
    ensures exists k :: 0 <= k < n && CutShort(states[k], events[k], id, 3)
  {
    if n > 0 {
      var i := n - 1;
      assert Step(states[i], events[i], states[i + 1]);
      AttemptsAreCalls(states, events, i, id);
      InvOnEveryRun(states, events, i);
      StepMarks(states[i], events[i], states[n]);
      if events[i].RecoverMark? && CallsOf(states[i].calls, id) <= 3 {
        CallsOfOneMore(states[i].calls, states[n].calls[|states[i].calls|], id);
        AttemptLimit(states, events, i, 3);
      } else {
        MoreCallsNeedACrash(states, events, i, id);
      }
    }
  }
}
