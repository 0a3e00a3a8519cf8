/** Visits the tracker drops to stay within its cap. */
module PipelineEvictions {
  import opened VisitLifecycle
  import opened VisitRuntime
  import opened Recovery
  import opened Pipeline
  import opened PipelineInvariant
  import opened PipelineFrames
  import opened PipelineTheorems

  /** No live record is that of an evicted visit. */
  ghost predicate EvictedAreDead(s: World) {
    forall id :: id in s.evicted ==> id < s.nextId && Dead(s.r.visits, id)
  }

  /** Live records of two keys are two visits. */
  lemma LiveDiffer(s: World, j: Key, k: Key)
    requires Inv(s) && Live(s.r.visits, j) && Live(s.r.visits, k) && j != k
    ensures s.r.visits[j].visitId != s.r.visits[k].visitId && s.r.visits[j].visitId < s.nextId
  {
    assert Agrees(s.r.table, j, s.r.visits[j]) && Agrees(s.r.table, k, s.r.visits[k]);
    assert EntryOk(s.r, ContextOf(s), s.r.visits[j].visitId, {});
  }

  /** After a detection of `k`, a live record is an old one, or of a new visit. */
  lemma ObservedLive(v: Visits, v': Visits, k: Key, now: real, knobs: Knobs, id: VisitId, maxKeys: nat,
                     out: seq<Transition>, j: Key)
    requires Observed(v, v', k, now, knobs, id, maxKeys, out) && Live(v', j)
    ensures v'[j].visitId == id || (Live(v, j) && v'[j].visitId == v[j].visitId)
  {
    if j != k { ObserveKeeps(v, v', k, now, knobs, id, maxKeys, out, j); }
  }

  /** Handlers only take records away. */
  lemma {:induction false} HandleKeepsRecords(r: RunnerState, out: seq<Transition>, now: real, absence: real, env: Env, k: Key)
    ensures var v := Handle(r, out, now, absence, env).visits; k in v ==> k in r.visits && v[k] == r.visits[k]
    decreases |out|
  {
    if out != [] {
      var r1 := Apply(r, out[0], now, absence, env);
      assert k in r1.visits ==> k in r.visits && r1.visits[k] == r.visits[k];
      HandleKeepsRecords(r1, out[1..], now, absence, env, k);
    }
  }

  lemma BatchKeepsDead(s: World, visits: Visits, out: seq<Transition>, upto: nat, now: real, absence: real, env: Env, id: VisitId)
    requires upto <= |out| && Dead(visits, id)
    ensures Dead(AfterBatch(s, visits, out, upto, now, absence, env).r.visits, id)
  {
    var r1 := Handle(s.r.(visits := visits), out[..upto], now, absence, env);
    forall k | Live(r1.visits, k) ensures r1.visits[k].visitId != id {
      HandleKeepsRecords(s.r.(visits := visits), out[..upto], now, absence, env, k);
    }
  }

  lemma TickKeepsDead(s: World, e: Event, s': World, id: VisitId)
    requires e.Tick? && StepTick(s, e, s') && Dead(s.r.visits, id)
    ensures Dead(s'.r.visits, id)
  {
    BatchKeepsDead(s, e.visits, e.out, e.upto, e.now, e.absence, e.env, id);
  }

  lemma ObserveKeepsDead(s: World, e: Event, s': World, id: VisitId)
    requires Inv(s) && e.Observe? && StepObserve(s, e, s') && id < s.nextId
    requires Dead(s.r.visits, id) || id in EvictedIds(s.r.visits, e.visits, e.key)
    ensures Dead(s'.r.visits, id)
  {
    forall k | Live(e.visits, k) ensures e.visits[k].visitId != id {
      ObservedLive(s.r.visits, e.visits, e.key, e.now, e.knobs, s.nextId, s.maxKeys, e.out, k);
      if !Dead(s.r.visits, id) {
        var j :| j in s.r.visits && s.r.visits[j].Present? && j != e.key && j !in e.visits && s.r.visits[j].visitId == id;
        if Live(s.r.visits, k) { LiveDiffer(s, j, k); }
      }
    }
    hide Inv, Observed;
    BatchKeepsDead(s, e.visits, e.out, e.upto, e.now, e.knobs.absence, e.env, id);
  }

  lemma StepKeepsDead(s: World, e: Event, s': World, id: VisitId)
    requires Inv(s) && Step(s, e, s') && Dead(s.r.visits, id) && id < s.nextId
    ensures Dead(s'.r.visits, id)
  {
    hide Inv, ClosesLive, Drain, StepTick, StepObserve;
    if e.Tick? {
      hide Step;
      TickKeepsDead(s, e, s', id);
    } else if e.Observe? {
      hide Step;
      ObserveKeepsDead(s, e, s', id);
    }
  }

  lemma EvictedByObserve(s: World, e: Event, s': World)
    requires Step(s, e, s')
    ensures s'.evicted == s.evicted || (e.Observe? && s'.evicted == s.evicted + EvictedIds(s.r.visits, e.visits, e.key))
  {
    hide Observed, Ticked, ClosesLive, Handle, Drain, EvictedIds;
  }

  lemma EvictedNow(s: World, e: Event, s': World, id: VisitId)
    requires Inv(s) && Step(s, e, s') && id in s'.evicted && id !in s.evicted
    ensures e.Observe? && id < s.nextId && id in EvictedIds(s.r.visits, e.visits, e.key)
  {
    EvictedByObserve(s, e, s');
    hide Step;
    var j :| j in s.r.visits && s.r.visits[j].Present? && s.r.visits[j].visitId == id;
    assert Agrees(s.r.table, j, s.r.visits[j]);
    assert EntryOk(s.r, ContextOf(s), id, {});
  }

  lemma StepKeepsEvictedDead(s: World, e: Event, s': World)
    requires Inv(s) && Step(s, e, s') && EvictedAreDead(s)
    ensures EvictedAreDead(s')
  {
    IdsGrow(s, e, s');
    forall id | id in s'.evicted ensures id < s'.nextId && Dead(s'.r.visits, id) {
      if id in s.evicted {
        StepKeepsDead(s, e, s', id);
      } else {
        EvictedNow(s, e, s', id);
        ObserveKeepsDead(s, e, s', id);
      }
    }
  }

  lemma NoneEvicted(s: World)
    requires Initial(s)
    ensures EvictedAreDead(s)
  {
  }

  lemma {:induction false} EvictedAreDeadOnRuns(states: seq<World>, events: seq<Event>, n: nat)
    requires Path(states, events) && Initial(states[0]) && n < |states|
    ensures EvictedAreDead(states[n])
  {
    hide Initial, Inv, Step, EvictedAreDead;
    if n == 0 {
      NoneEvicted(states[0]);
    } else {
      StepOfRun(states, events, n - 1);
      EvictedAreDeadOnRuns(states, events, n - 1);
      StepKeepsEvictedDead(states[n - 1], events[n - 1], states[n]);
    }
  }

  /** In no thread's hands, and no record from which it could get there. */
  ghost predicate Shelved(s: World, id: VisitId) {
    id < s.nextId && id !in s.r.jobs && id !in s.r.handed && Dead(s.r.visits, id)
  }

  /** The visits in the table stay there until the runner is gone. */
  predicate StaysListed(s: World, s': World, id: VisitId) {
    id in s.r.table && !s'.mode.Off? ==> id in s'.r.table
  }

  lemma AloneStaysShelved(s: World, s': World, id: VisitId)
    requires Shelved(s, id) && LeavesAlone(s, s', id) && Dead(s'.r.visits, id)
    ensures Shelved(s', id) && StaysListed(s, s', id) && s'.published == s.published
  {
  }

  lemma OtherStaysShelved(s: World, e: Event, s': World, id: VisitId)
    requires Inv(s) && Step(s, e, s') && Shelved(s, id) && !HandlesVisits(e)
    ensures Shelved(s', id) && StaysListed(s, s', id)
    ensures s'.published == s.published || e.RecoverPublish? || s'.published[|s.published|] != id
  {
    hide Core, DurableOk, ClipsOk, StepTick, StepObserve, ClosesLive, Drain;
  }

  lemma StepShelves(s: World, e: Event, s': World, id: VisitId)
    requires Inv(s) && Step(s, e, s') && Shelved(s, id)
    ensures Shelved(s', id) && s.published <= s'.published
    ensures id in s.r.table && !s'.mode.Off? ==> id in s'.r.table
    ensures id in s'.published[|s.published|..] ==> e.RecoverPublish?
  {
    PublishStep(s, e, s');
    if HandlesVisits(e) {
      StepKeepsDead(s, e, s', id);
      StepLeavesAlone(s, e, s', id);
      hide Inv, Step, Dead, Untouched;
      AloneStaysShelved(s, s', id);
    } else {
      OtherStaysShelved(s, e, s', id);
    }
  }

  lemma {:induction false} ShelvedForever(states: seq<World>, events: seq<Event>, n: nat, m: nat, id: VisitId)
    requires Path(states, events) && Initial(states[0]) && n <= m < |states| && Shelved(states[n], id)
    ensures Shelved(states[m], id)
  {
    if n < m {
      hide Initial, Inv, Step, Shelved;
      var i := m - 1;
      StepOfRun(states, events, i);
      ShelvedForever(states, events, n, i, id);
      StepShelves(states[i], events[i], states[m], id);
    }
  }

  lemma {:induction false} ListedWhileUp(states: seq<World>, events: seq<Event>, n: nat, m: nat, id: VisitId)
    requires Path(states, events) && Initial(states[0]) && n <= m < |states| && Shelved(states[n], id)
    requires id in states[n].r.table && forall k :: n <= k <= m ==> !states[k].mode.Off?
    ensures id in states[m].r.table
  {
    if n < m {
      hide Initial, Inv, Step, Shelved;
      var i := m - 1;
      StepOfRun(states, events, i);
      ListedWhileUp(states, events, n, i, id);
      ShelvedForever(states, events, n, i, id);
      StepShelves(states[i], events[i], states[m], id);
    }
  }

  /** An evicted visit leaks.  Its entry stays in the table as long as the runner
      lives, no runner ever hands it to a finalize thread, and if it is published
      at all, then by the recovery of a later boot. */
  lemma EvictedOnlyRecovered(states: seq<World>, events: seq<Event>, n: nat, m: nat, id: VisitId)
    requires Path(states, events) && Initial(states[0]) && n <= m < |events|
    requires id in states[n].evicted && id in states[n].r.table
    ensures id !in states[m].r.handed && id !in states[m].r.jobs && id !in states[n].published
    ensures (forall k :: n <= k <= m ==> !states[k].mode.Off?) ==> id in states[m].r.table
    ensures states[m].published <= states[m + 1].published
    ensures id in states[m + 1].published[|states[m].published|..] ==> events[m] == RecoverPublish
  {
    InvOnEveryRun(states, events, n);
    EvictedAreDeadOnRuns(states, events, n);
    assert EntryOk(states[n].r, ContextOf(states[n]), id, {});
    assert Shelved(states[n], id);
    ShelvedForever(states, events, n, m, id);
    StepOfRun(states, events, m);
    hide Path, Initial, Inv, Step, Dead;
    if forall k :: n <= k <= m ==> !states[k].mode.Off? { ListedWhileUp(states, events, n, m, id); }
    StepShelves(states[m], events[m], states[m + 1], id);
  }
}
