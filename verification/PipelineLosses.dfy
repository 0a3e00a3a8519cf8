/** Clips that are lost, or published twice: from which states a visit can still
    be published, by whatever the worker does next. */
module PipelineLosses {
  import opened Collections
  import opened VisitLifecycle
  import opened VisitRuntime
  import opened Recovery
  import opened Pipeline
  import opened PipelineInvariant
  import opened PipelineFrames
  import opened PipelineTheorems

  /** A path from `s` on which `id` is published, perhaps not for the first time. */
  ghost predicate Publishes(states: seq<World>, events: seq<Event>, s: World, id: VisitId) {
    && Path(states, events) && states[0] == s
    && var later := states[|states| - 1].published;
       s.published <= later && id in later[|s.published|..]
  }

  /** Some schedule of what may happen after `s` publishes `id`. */
  ghost predicate MayPublish(s: World, id: VisitId) {
    exists states, events :: Publishes(states, events, s, id)
  }

  /** A finalize of `id` could rename its output into place. */
  predicate Renamable(s: World, id: VisitId) {
    && id in s.temps
    && (|| (id in s.r.jobs && s.r.jobs[id].stage.Concatenated?)
        || (s.mode.Recovering? && s.mode.current.Trying? && s.mode.current.visitId == id
            && s.mode.current.stage.Concatenated?))
  }

  /** `id` has no output about to become a clip, and nothing left from which
      anyone would make one. */
  predicate Hopeless(s: World, id: VisitId) {
    && id < s.nextId && id !in s.r.table && !Renamable(s, id)
    && (id !in s.r.scratch || (id !in s.r.durable && (id in s.r.jobs ==> !s.r.jobs[id].stage.Waiting?)))
  }

  /** `later` has grown from `ids`, by no `id`. */
  predicate GrownWithout(ids: seq<VisitId>, later: seq<VisitId>, id: VisitId) {
    ids <= later && id !in later[|ids|..]
  }

  lemma OtherStepKeepsHopeless(s: World, e: Event, s': World, id: VisitId)
    requires Inv(s) && Step(s, e, s') && Hopeless(s, id) && !HandlesVisits(e)
    ensures Hopeless(s', id) && GrownWithout(s.published, s'.published, id)
  {
    hide Inv, StepTick, StepObserve, ClosesLive, Drain;
  }

  lemma StepKeepsHopeless(s: World, e: Event, s': World, id: VisitId)
    requires Inv(s) && Step(s, e, s') && Hopeless(s, id)
    ensures Hopeless(s', id) && GrownWithout(s.published, s'.published, id)
  {
    if HandlesVisits(e) {
      StepSpares(s, e, s', id);
      hide Inv, Step;
    } else {
      hide *;
      OtherStepKeepsHopeless(s, e, s', id);
    }
  }

  lemma GrowsOn(a: seq<VisitId>, b: seq<VisitId>, c: seq<VisitId>, id: VisitId)
    requires GrownWithout(a, b, id) && GrownWithout(b, c, id)
    ensures GrownWithout(a, c, id)
  {
    assert c[|a|..] == b[|a|..] + c[|b|..];
  }

  /** Once hopeless, never published again, whatever happens next. */
  lemma {:induction false} HopelessForever(states: seq<World>, events: seq<Event>, id: VisitId, n: nat)
    requires Path(states, events) && Inv(states[0]) && Hopeless(states[0], id) && n < |states|
    ensures Hopeless(states[n], id) && GrownWithout(states[0].published, states[n].published, id)
  {
    if n > 0 {
      var i := n - 1;
      assert Step(states[i], events[i], states[i + 1]);
      InvOnEveryPath(states, events, i);
      HopelessForever(states, events, id, i);
      hide *;
      StepKeepsHopeless(states[i], events[i], states[n], id);
      GrowsOn(states[0].published, states[i].published, states[n].published, id);
    }
  }

  lemma HopelessMeansNever(s: World, id: VisitId)
    requires Inv(s) && Hopeless(s, id)
    ensures !MayPublish(s, id)
  {
    forall states, events | Publishes(states, events, s, id) ensures false {
      hide Step;
      HopelessForever(states, events, id, |states| - 1);
    }
  }

  lemma StepPublished(s: World, e: Event, s': World)
    requires Inv(s) && Step(s, e, s')
    ensures s.published <= s'.published
  {
    PublishStep(s, e, s');
  }

  lemma {:induction false} PublishedGrows(states: seq<World>, events: seq<Event>, n: nat)
    requires Path(states, events) && Inv(states[0]) && n < |states|
    ensures states[0].published <= states[n].published
  {
    if n > 0 {
      var i := n - 1;
      assert Step(states[i], events[i], states[i + 1]);
      InvOnEveryPath(states, events, i);
      PublishedGrows(states, events, i);
      hide *;
      StepPublished(states[i], events[i], states[n]);
    }
  }

  lemma PartOfPath(states: seq<World>, events: seq<Event>, n: nat, m: nat)
    requires Path(states, events) && n <= m < |states|
    ensures Path(states[n..m + 1], events[n..m])
  {
    forall i | 0 <= i < m - n ensures Step(states[n..m + 1][i], events[n..m][i], states[n..m + 1][i + 1]) {
      assert Step(states[n + i], events[n + i], states[n + i + 1]);
    }
  }

  /** On any run, what can no longer be published is not. */
  lemma NotPublishedLater(states: seq<World>, events: seq<Event>, n: nat, m: nat, id: VisitId)
    requires Path(states, events) && Initial(states[0]) && n <= m < |states| && !MayPublish(states[n], id)
    ensures id in states[m].published <==> id in states[n].published
  {
    InvOnEveryRun(states, events, n);
    PartOfPath(states, events, n, m);
    var part, now, later := states[n..m + 1], states[n].published, states[m].published;
    assert part[0] == states[n] && part[m - n] == part[|part| - 1] == states[m];
    PublishedGrows(part, events[n..m], m - n);
    assert now <= later && later == now + later[|now|..];
    assert !Publishes(part, events[n..m], states[n], id);
    hide Path, Inv;
  }

  // --------------------------------------------------------------- recovery

  /** An attempt, once begun, can concat and publish from its scratch. */
  lemma AttemptPublishes(s: World, id: VisitId)
    requires s.mode.Recovering? && s.mode.current.Trying? && s.mode.current.visitId == id && s.mode.todo != []
    requires s.mode.current.stage.Waiting? && !s.mode.current.reaped && id in s.r.durable && id in s.r.scratch
    ensures MayPublish(s, id)
  {
    var s1 := s.(mode := s.mode.(current := s.mode.current.(stage := Concatenated)), temps := s.temps + {id});
    var s2 := s1.(mode := s1.mode.(current := s1.mode.current.(stage := Published)), temps := s1.temps - {id},
                  clips := s1.clips + {id}, published := s1.published + [id]);
    assert Step(s, RecoverConcat, s1) && Step(s1, RecoverPublish, s2);
    hide Step;
    assert s2.published[|s.published|..] == [id];
    assert Publishes([s, s1, s2], [RecoverConcat, RecoverPublish], s, id);
  }

  /** What decides a recovery attempt is known when the entry is marked: the
      finalizer can publish if and only if there is scratch; without, the visit
      is not published by this attempt or any later one.  It makes no difference
      whether the visit already has a clip, so a clip that the probe failed to
      see is published over exactly when its scratch survived too. */
  lemma MarkedMayPublish(states: seq<World>, events: seq<Event>, n: nat)
    requires Path(states, events) && Initial(states[0]) && n < |events| && events[n] == RecoverMark
    ensures states[n].mode.Recovering? && states[n].mode.todo != []
    ensures var id := states[n].mode.todo[0]; MayPublish(states[n + 1], id) <==> id in states[n].r.scratch
  {
    StepOfRun(states, events, n);
    hide Path, Initial, MayPublish;
    var s', id := states[n + 1], states[n].mode.todo[0];
    if id in states[n].r.scratch {
      AttemptPublishes(s', id);
    } else {
      HopelessMeansNever(s', id);
    }
  }

  lemma ReturnedIsHopeless(s: World, s': World)
    requires Inv(s) && Step(s, RecoverReturn, s')
    ensures s.mode.Recovering? && s.mode.current.Trying? && Hopeless(s', s.mode.current.visitId)
    ensures s'.published == s.published
    ensures s.mode.current.visitId in s.published <==> s.mode.current.stage.Published? || s.mode.current.rejected
  {
  }

  /** The promised later retry is futile.  A recovery attempt that returns has
      taken the scratch with it, so nothing that happens later publishes its
      visit; it is published in a later state only if this attempt did so, or if
      it had a clip before. */
  lemma FailedRecoveryIsFinal(states: seq<World>, events: seq<Event>, n: nat, m: nat)
    requires Path(states, events) && Initial(states[0]) && n < m < |states| && events[n] == RecoverReturn
    ensures states[n].mode.Recovering? && states[n].mode.current.Trying?
    ensures var c := states[n].mode.current;
            && !MayPublish(states[n + 1], c.visitId)
            && (c.visitId in states[m].published <==> c.stage.Published? || c.rejected)
  {
    StepOfRun(states, events, n);
    hide Path, Initial, MayPublish;
    ReturnedIsHopeless(states[n], states[n + 1]);
    HopelessMeansNever(states[n + 1], states[n].mode.current.visitId);
    NotPublishedLater(states, events, n + 1, m, states[n].mode.current.visitId);
  }

  /** A listing of the table that begins with `id`. */
  lemma ListingFrom(t: Table, id: VisitId) returns (ids: seq<VisitId>)
    requires id in t
    ensures Enumerates(ids, t) && ids[0] == id
  {
    var rest := Listing(t.Keys - {id});
    ids := [id] + rest;
    assert forall i :: 1 <= i < |ids| ==> ids[i] == rest[i - 1] && ids[i] in rest;
  }

  lemma MayPublishBefore(s: World, e: Event, s': World, id: VisitId)
    requires Step(s, e, s') && s'.published == s.published && MayPublish(s', id)
    ensures MayPublish(s, id)
  {
    hide Step;
    var states, events :| Publishes(states, events, s', id);
    var states', events' := [s] + states, [e] + events;
    forall i | 0 <= i < |events'| ensures Step(states'[i], events'[i], states'[i + 1]) {
      if i >= 1 { assert Step(states[i - 1], events[i - 1], states[i]); }
    }
    assert Publishes(states', events', s, id);
  }

  lemma BootMayPublish(s: World, id: VisitId)
    requires s.mode.Off? && id in s.r.durable && id in s.r.scratch
    ensures MayPublish(s, id)
  {
    var ids := ListingFrom(s.r.durable, id);
    var s1 := s.(mode := Recovering(ids, Nobody));
    var s2 := s1.(mode := Recovering(ids, Trying(id, Waiting, false, id in s.clips)),
                  r := s.r.(durable := s.r.durable[id := Marked(s.r.durable[id])]),
                  calls := s.calls + [RecoveryCall(id, s.r.durable[id], s.clock)]);
    assert Step(s, Boot(s.clock, ids), s1) && Step(s1, RecoverMark, s2);
    hide Step, Enumerates, MayPublish;
    AttemptPublishes(s2, id);
    MayPublishBefore(s1, RecoverMark, s2, id);
    MayPublishBefore(s, Boot(s.clock, ids), s1, id);
  }

  /** While the worker is down, a visit no thread works on can still be
      published exactly if both its entry and its scratch have survived. */
  lemma DownMayPublish(states: seq<World>, events: seq<Event>, n: nat, id: VisitId)
    requires Path(states, events) && Initial(states[0]) && n < |states| && states[n].mode.Off?
    requires id < states[n].nextId && id !in states[n].r.jobs
    ensures MayPublish(states[n], id) <==> id in states[n].r.durable && id in states[n].r.scratch
  {
    InvOnEveryRun(states, events, n);
    hide Path, Initial, MayPublish;
    if id in states[n].r.durable && id in states[n].r.scratch {
      BootMayPublish(states[n], id);
    } else {
      HopelessMeansNever(states[n], id);
    }
  }

  // ------------------------------------------------------- finalize threads

  /** A finalize thread works on `id`, or takes it over in this step. */
  predicate InHands(s: World, s': World, id: VisitId) {
    id in s.r.jobs || (id in s.r.table && id in s'.r.handed)
  }

  lemma NotInTable(s: World, id: VisitId)
    requires Inv(s) && id in s.r.jobs
    ensures id !in s.r.table
  {
    if id in s.r.table { TableIsKept(s, id); }
  }

  lemma CrashFacts(s: World, e: Event, s': World)
    requires Step(s, e, s') && s'.mode.Off? && s.mode.Draining?
    ensures s'.r.durable == s.r.durable && s'.r.scratch == s.r.scratch && s'.r.handed == s.r.handed
  {
    hide Ticked, Observed, Handle, ClosesLive, Drain;
  }

  lemma JobOnDisk(s: World, e: Event, s': World, id: VisitId)
    requires Inv(s) && Step(s, e, s') && s'.mode.Off? && id in s.r.jobs
    ensures id in s'.r.durable <==> s.mode.Draining? && id in s.r.durable
    ensures id < s.nextId
  {
    assert JobOk(s.r, ContextOf(s), id) && id < s.nextId;
    NotInTable(s, id);
    hide Core, DurableOk, ClipsOk, Step;
    StepDescends(s, e, s', id);
    if s.mode.Draining? { CrashFacts(s, e, s'); }
  }

  lemma HandedOnDisk(s: World, e: Event, s': World, id: VisitId)
    requires Inv(s) && Step(s, e, s') && s'.mode.Off? && id in s.r.table && id in s'.r.handed
    ensures id !in s'.r.durable && !s.mode.Draining? && id < s.nextId
  {
    assert EntryOk(s.r, ContextOf(s), id, {}) && id < s.nextId;
    TableIsKept(s, id);
    hide Inv, Step;
    CutKeepsOrHands(s, e, s', id);
    if s.mode.Draining? { CrashFacts(s, e, s'); }
  }

  /** The entry of such a visit is on disk only while a drain has yet to write. */
  lemma InHandsOnDisk(s: World, e: Event, s': World, id: VisitId)
    requires Inv(s) && Step(s, e, s') && s'.mode.Off? && InHands(s, s', id)
    ensures id in s'.r.durable <==> s.mode.Draining? && id in s.r.durable
    ensures s.mode.Draining? ==> s'.r.scratch == s.r.scratch
    ensures id < s'.nextId
  {
    hide Inv, Step;
    IdsGrow(s, e, s');
    if s.mode.Draining? { CrashFacts(s, e, s'); }
    if id in s.r.jobs { JobOnDisk(s, e, s', id); } else { HandedOnDisk(s, e, s', id); }
  }

  /** Crash protection ends at the hand-off.  After a crash, in the middle of a
      batch or between steps, a visit that was in the hands of a finalize thread
      is published by whatever comes next if and only if the crash hit a drain
      whose table had not reached the disk, and its scratch was still there. */
  lemma CrashOrphansFinalizes(states: seq<World>, events: seq<Event>, n: nat, id: VisitId)
    requires Path(states, events) && Initial(states[0]) && n < |events|
    requires states[n + 1].mode.Off? && states[n + 1].r.jobs == map[] && InHands(states[n], states[n + 1], id)
    ensures MayPublish(states[n + 1], id) <==>
              states[n].mode.Draining? && id in states[n].r.durable && id in states[n].r.scratch
  {
    StepOfRun(states, events, n);
    hide Path, Initial, MayPublish;
    InHandsOnDisk(states[n], events[n], states[n + 1], id);
    DownMayPublish(states, events, n + 1, id);
  }

  lemma ArmedIsHopeless(s: World, s': World, id: VisitId)
    requires Inv(s) && Step(s, Arm, s') && id in s.r.jobs
    ensures Hopeless(s', id) && s'.published == s.published
    ensures id in s.published <==> s.r.jobs[id].stage.Published?
  {
    assert JobOk(s.r, ContextOf(s), id);
  }

  /** With neither a thread nor a runner, the disk decides. */
  lemma IdleMayPublish(s: World, id: VisitId)
    requires Inv(s) && id < s.nextId && id !in s.r.jobs && id !in s.r.table
    requires s.mode.Recovering? ==> s.mode.current.Nobody?
    ensures MayPublish(s, id) <==> id in s.r.durable && id in s.r.scratch
  {
    hide MayPublish;
    if id in s.r.durable && id in s.r.scratch {
      BootMayPublish(AfterCrash(s), id);
      MayPublishBefore(s, Crash, AfterCrash(s), id);
    } else {
      HopelessMeansNever(s, id);
    }
  }

  lemma ArmKeepsDisk(s: World, s': World, id: VisitId)
    requires Inv(s) && Step(s, Arm, s')
    ensures s.mode.Recovering? && s.mode.current.Nobody? && s.r.table == s'.r.table == map[]
    ensures s'.r.jobs == s.r.jobs && s'.r.durable == s.r.durable && s'.nextId == s.nextId && s'.mode.Armed?
    ensures id in s.r.durable ==> (id in s'.r.scratch <==> id in s.r.scratch)
  {
  }

  /** Arming spares every visit no thread works on. */
  lemma ArmSparesOthers(s: World, s': World, id: VisitId)
    requires Inv(s) && Step(s, Arm, s') && id < s.nextId && id !in s.r.jobs
    ensures MayPublish(s', id) <==> MayPublish(s, id)
  {
    StepKeepsInv(s, Arm, s');
    ArmKeepsDisk(s, s', id);
    hide Inv, Step, MayPublish;
    IdleMayPublish(s, id);
    IdleMayPublish(s', id);
  }

  /** The thread that works on `id` can still get to its clip. */
  predicate CanFinish(s: World, id: VisitId)
    requires id in s.r.jobs
  {
    (s.r.jobs[id].stage.Waiting? && id in s.r.scratch) || (s.r.jobs[id].stage.Concatenated? && id in s.temps)
  }

  lemma ConcatenatedMayPublish(s: World, id: VisitId)
    requires id in s.r.jobs && s.r.jobs[id].stage.Concatenated? && id in s.temps
    ensures MayPublish(s, id)
  {
    var job := s.r.jobs[id];
    var s1 := s.(r := s.r.(jobs := s.r.jobs[id := job.(stage := Published)]), temps := s.temps - {id},
                 clips := s.clips + {id}, published := s.published + [id]);
    assert Step(s, JobPublish(id), s1);
    hide Step;
    assert s1.published[|s.published|..] == [id];
    assert Publishes([s, s1], [JobPublish(id)], s, id);
  }

  lemma ThreadMayPublish(s: World, id: VisitId)
    requires Inv(s) && id in s.r.jobs && id !in s.r.durable
    ensures MayPublish(s, id) <==> CanFinish(s, id)
  {
    assert JobOk(s.r, ContextOf(s), id);
    NotInTable(s, id);
    if s.r.jobs[id].stage.Concatenated? && id in s.temps {
      ConcatenatedMayPublish(s, id);
    } else if CanFinish(s, id) {
      var s1 := s.(r := s.r.(jobs := s.r.jobs[id := s.r.jobs[id].(stage := Concatenated)]), temps := s.temps + {id});
      assert Step(s, JobConcat(id), s1);
      hide Inv, Step, MayPublish;
      ConcatenatedMayPublish(s1, id);
      MayPublishBefore(s, JobConcat(id), s1, id);
    } else {
      assert Hopeless(s, id);
      HopelessMeansNever(s, id);
    }
  }

  /** What arming a runner costs, exactly: after it a visit can still be published
      if and only if it could before and no finalize thread works on it.  So a
      clip is lost to the sweep just when a thread of the last runner could still
      have finished it; visits no thread works on are spared. */
  lemma ArmCostsExactly(states: seq<World>, events: seq<Event>, n: nat, id: VisitId)
    requires Path(states, events) && Initial(states[0]) && n < |events| && events[n] == Arm && id < states[n].nextId
    ensures MayPublish(states[n + 1], id) <==> MayPublish(states[n], id) && id !in states[n].r.jobs
    ensures MayPublish(states[n], id) && !MayPublish(states[n + 1], id) <==>
              id in states[n].r.jobs && CanFinish(states[n], id)
  {
    StepOfRun(states, events, n);
    hide Path, Initial, MayPublish;
    if id in states[n].r.jobs {
      ArmedIsHopeless(states[n], states[n + 1], id);
      HopelessMeansNever(states[n + 1], id);
      ThreadMayPublish(states[n], id);
    } else {
      ArmSparesOthers(states[n], states[n + 1], id);
    }
  }

  /** On a run, a visit in the hands of a finalize thread when a runner is armed is
      published in a later state exactly when it already was at the arm. */
  lemma RearmKillsFinalizes(states: seq<World>, events: seq<Event>, n: nat, m: nat, id: VisitId)
    requires Path(states, events) && Initial(states[0]) && n < m < |states| && events[n] == Arm
    requires id in states[n].r.jobs
    ensures !MayPublish(states[n + 1], id)
    ensures id in states[m].published <==> states[n].r.jobs[id].stage.Published?
  {
    StepOfRun(states, events, n);
    hide Path, Initial, MayPublish;
    ArmedIsHopeless(states[n], states[n + 1], id);
    HopelessMeansNever(states[n + 1], id);
    NotPublishedLater(states, events, n + 1, m, id);
  }
}
