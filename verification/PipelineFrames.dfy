/** What one step can do to a visit that is not, or no longer, in the table. */
module PipelineFrames {
  import opened VisitLifecycle
  import opened VisitRuntime
  import opened Recovery
  import opened Pipeline
  import opened PipelineInvariant

  predicate SameAt<T(==)>(m: map<VisitId, T>, m': map<VisitId, T>, id: VisitId) {
    (id in m' <==> id in m) && (id in m ==> m'[id] == m[id])
  }

  /** Nothing happened to `id`, but that its entry may have been written or lost. */
  predicate Untouched(r: RunnerState, r': RunnerState, id: VisitId) {
    && SameAt(r.table, r'.table, id) && SameAt(r.jobs, r'.jobs, id) && SameAt(r.lastCopy, r'.lastCopy, id)
    && (id in r'.scratch <==> id in r.scratch) && (id in r'.handed <==> id in r.handed)
    && (id in r'.durable ==>
          (id in r.durable && r'.durable[id] == r.durable[id]) || (id in r.table && r'.durable[id] == r.table[id]))
  }

  /** At `id`, `r'` has nothing that `r` did not have. */
  predicate LosesOnly(r: RunnerState, r': RunnerState, id: VisitId) {
    && id !in r'.table
    && (id in r'.scratch ==> id in r.scratch) && (id in r'.handed ==> id in r.handed)
    && (id in r'.jobs ==> id in r.jobs && r'.jobs[id] == r.jobs[id])
    && (id in r'.durable ==> id in r.durable && r'.durable[id] == r.durable[id])
    && SameAt(r.lastCopy, r'.lastCopy, id)
  }

  lemma UntouchedTwice(r: RunnerState, r1: RunnerState, r2: RunnerState, id: VisitId)
    requires Untouched(r, r1, id) && Untouched(r1, r2, id)
    ensures Untouched(r, r2, id)
  {
  }

  lemma OpenElsewhere(r: RunnerState, tr: Transition, now: real, absence: real, env: Env, id: VisitId)
    requires tr.Open? && tr.visitId != id
    ensures Untouched(r, OnOpen(r, tr, now, absence, env), id)
  {
  }

  lemma ExtendElsewhere(r: RunnerState, tr: Transition, now: real, env: Env, id: VisitId)
    requires tr.Extend? && tr.visitId != id
    ensures Untouched(r, OnExtend(r, tr, now, env), id)
  {
  }

  lemma DrainOneElsewhere(r: RunnerState, tr: Transition, env: Env, id: VisitId)
    requires tr.Finalize? && tr.visitId != id
    ensures Untouched(r, DrainOne(r, tr, env), id)
    ensures SameAt(r.table, r.table - {tr.visitId}, id)
  {
  }

  lemma FinalizeElsewhere(r: RunnerState, tr: Transition, env: Env, id: VisitId)
    requires tr.Finalize? && tr.visitId != id
    ensures Untouched(r, OnFinalize(r, tr, env), id)
  {
    OnFinalizeIsDrainOne(r, tr, env);
    DrainOneElsewhere(r, tr, env, id);
    hide OnFinalize, DrainOne;
  }

  lemma ApplyElsewhere(r: RunnerState, tr: Transition, now: real, absence: real, env: Env, id: VisitId)
    requires tr.visitId != id
    ensures Untouched(r, Apply(r, tr, now, absence, env), id)
  {
    hide Untouched, OnOpen, OnExtend, OnFinalize;
    match tr
    case Open(_, _, _, _) => OpenElsewhere(r, tr, now, absence, env, id);
    case Extend(_, _, _) => ExtendElsewhere(r, tr, now, env, id);
    case Finalize(_, _, _, _, _) => FinalizeElsewhere(r, tr, env, id);
  }

  lemma {:induction false} HandleElsewhere(r: RunnerState, out: seq<Transition>, now: real, absence: real, env: Env, id: VisitId)
    requires forall i :: 0 <= i < |out| ==> out[i].visitId != id
    ensures Untouched(r, Handle(r, out, now, absence, env), id)
    decreases |out|
  {
    if out != [] {
      var r1 := Apply(r, out[0], now, absence, env);
      ApplyElsewhere(r, out[0], now, absence, env, id);
      hide Apply, Untouched;
      HandleElsewhere(r1, out[1..], now, absence, env, id);
      UntouchedTwice(r, r1, Handle(r1, out[1..], now, absence, env), id);
    }
  }

  lemma {:induction false} DrainElsewhere(r: RunnerState, out: seq<Transition>, env: Env, id: VisitId)
    requires forall i :: 0 <= i < |out| ==> out[i].Finalize? && out[i].visitId != id
    ensures Untouched(r, Drain(r, out, env), id)
    decreases |out|
  {
    if out != [] {
      var r1 := DrainOne(r, out[0], env);
      DrainOneElsewhere(r, out[0], env, id);
      hide DrainOne, Untouched;
      DrainElsewhere(r1, out[1..], env, id);
      UntouchedTwice(r, r1, Drain(r1, out[1..], env), id);
    }
  }

  /** Visits and posts are not about one visit. */
  lemma UntouchedByVisits(r: RunnerState, r1: RunnerState, v: Visits, id: VisitId)
    ensures Untouched(r.(visits := v), r1, id) <==> Untouched(r, r1, id)
    ensures Untouched(r, r1.(visits := v), id) <==> Untouched(r, r1, id)
  {
  }

  /** No live record is that of `id`. */
  ghost predicate Dead(v: Visits, id: VisitId) {
    forall k :: Live(v, k) ==> v[k].visitId != id
  }

  lemma NotInTableIsDead(s: World, id: VisitId)
    requires Inv(s) && id !in s.r.table
    ensures Dead(s.r.visits, id)
  {
    forall k | Live(s.r.visits, k) ensures s.r.visits[k].visitId != id { assert Agrees(s.r.table, k, s.r.visits[k]); }
  }

  /** A batch only concerns the live visits and the visit it opens. */
  lemma TickConcerns(s: World, e: Event, s': World, id: VisitId)
    requires e.Tick? && StepTick(s, e, s') && Dead(s.r.visits, id)
    ensures forall i :: 0 <= i < |e.out| ==> e.out[i].visitId != id
  {
    forall i | 0 <= i < |e.out| ensures e.out[i].visitId != id {
      assert ClosesAtDeadline(s.r.visits, e.now, e.absence, e.out[i]);
    }
  }

  lemma ObservedIds(v: Visits, v': Visits, k: Key, now: real, knobs: Knobs, id: VisitId, maxKeys: nat,
                    out: seq<Transition>, i: nat)
    requires Observed(v, v', k, now, knobs, id, maxKeys, out) && i < |out|
    ensures out[i].visitId == id || (Live(v, k) && out[i].visitId == v[k].visitId)
    ensures i < |out| - 1 ==> out[i].Finalize?
  {
  }

  lemma ObserveConcerns(s: World, e: Event, s': World, id: VisitId)
    requires e.Observe? && StepObserve(s, e, s') && Dead(s.r.visits, id) && id < s.nextId
    ensures forall i :: 0 <= i < |e.out| ==> e.out[i].visitId != id
  {
    hide Observed;
    forall i | 0 <= i < |e.out| ensures e.out[i].visitId != id {
      ObservedIds(s.r.visits, e.visits, e.key, e.now, e.knobs, s.nextId, s.maxKeys, e.out, i);
    }
  }

  lemma DrainConcerns(s: World, e: Event, s': World, id: VisitId)
    requires e.DrainStart? && StepDrain(s, e, s') && Dead(s.r.visits, id)
    ensures forall i :: 0 <= i < |e.out| ==> e.out[i].Finalize? && e.out[i].visitId != id
  {
    forall i | 0 <= i < |e.out| ensures e.out[i].Finalize? && e.out[i].visitId != id {
      assert ClosesAtLastSeen(s.r.visits, e.now, e.out[i]);
    }
  }

  predicate HandlesVisits(e: Event) {
    e.Tick? || e.Observe? || e.DrainStart?
  }

  /** Nothing happens to `id`, but that a crash takes the memory of it. */
  predicate LeavesAlone(s: World, s': World, id: VisitId) {
    && s'.temps == s.temps && s'.clips == s.clips && s'.published == s.published && s'.calls == s.calls
    && s.nextId <= s'.nextId
    && match s'.mode
       case Off => s'.r == WithoutMemory(s'.r) && Untouched(s.r, Remembering(s'.r, s.r), id)
       case Recovering(_, _) => false
       case _ => Untouched(s.r, s'.r, id)
  }

  /** What is left on disk, with the memory of another state. */
  function Remembering(disk: RunnerState, memory: RunnerState): RunnerState {
    disk.(visits := memory.visits, table := memory.table, jobs := memory.jobs, posted := memory.posted)
  }

  lemma UntouchedLost(r: RunnerState, r1: RunnerState, id: VisitId)
    requires Untouched(r, r1, id)
    ensures Untouched(r, Remembering(WithoutMemory(r1), r), id)
  {
  }

  lemma BatchLeavesAlone(s: World, visits: Visits, out: seq<Transition>, upto: nat, now: real, absence: real, env: Env, id: VisitId)
    requires s.mode.Armed? && upto <= |out| && forall i :: 0 <= i < |out| ==> out[i].visitId != id
    ensures LeavesAlone(s, AfterBatch(s, visits, out, upto, now, absence, env), id)
  {
    var r1 := Handle(s.r.(visits := visits), out[..upto], now, absence, env);
    HandleElsewhere(s.r.(visits := visits), out[..upto], now, absence, env, id);
    UntouchedByVisits(s.r, r1, visits, id);
    UntouchedLost(s.r, r1, id);
    hide Handle, Untouched;
  }

  /** A tick, an observe or a drain, cut short or not. */
  lemma StepLeavesAlone(s: World, e: Event, s': World, id: VisitId)
    requires HandlesVisits(e) && Step(s, e, s') && Dead(s.r.visits, id) && id < s.nextId
    ensures LeavesAlone(s, s', id)
  {
    hide Observed, Ticked, ClosesLive, Dead, Untouched;
    if e.Tick? {
      TickConcerns(s, e, s', id);
      BatchLeavesAlone(s, e.visits, e.out, e.upto, e.now, e.absence, e.env, id);
    } else if e.Observe? {
      ObserveConcerns(s, e, s', id);
      BatchLeavesAlone(s, e.visits, e.out, e.upto, e.now, e.knobs.absence, e.env, id);
    } else {
      DrainConcerns(s, e, s', id);
      DrainElsewhere(s.r, e.out, e.env, id);
      UntouchedByVisits(s.r, Drain(s.r, e.out, e.env), map[], id);
    }
  }

  /** Nothing happens for `id` in this step, but it may be lost from memory. */
  predicate Spares(s: World, s': World, id: VisitId) {
    && LosesOnly(s.r, s'.r, id) && s'.temps == s.temps && s'.clips == s.clips && s'.published == s.published
    && s'.calls == s.calls && s.nextId <= s'.nextId && !s'.mode.Recovering?
  }

  lemma StepSpares(s: World, e: Event, s': World, id: VisitId)
    requires Inv(s) && HandlesVisits(e) && Step(s, e, s') && id !in s.r.table && id < s.nextId
    ensures Spares(s, s', id)
  {
    NotInTableIsDead(s, id);
    hide Inv, Step, Dead;
    StepLeavesAlone(s, e, s', id);
    AloneIsSpared(s, s', id);
  }

  lemma AloneIsSpared(s: World, s': World, id: VisitId)
    requires LeavesAlone(s, s', id) && id !in s.r.table
    ensures Spares(s, s', id)
  {
  }

  // ------------------------------------------------- the durable entry later

  /** What recovery may do to an entry: mark it, or drop it. */
  predicate Descends(t: Table, t': Table, id: VisitId) {
    id in t' ==>
      && id in t
      && t'[id].startTs == t[id].startTs && t'[id].lastExtend == t[id].lastExtend && t'[id].attempts >= t[id].attempts
  }

  lemma StepDescends(s: World, e: Event, s': World, id: VisitId)
    requires Inv(s) && Step(s, e, s') && id !in s.r.table && id < s.nextId
    ensures id !in s'.r.table && id < s'.nextId && Descends(s.r.durable, s'.r.durable, id)
  {
    hide Inv, Observed, Ticked, ClosesLive, Handle, Drain;
    if HandlesVisits(e) { StepSpares(s, e, s', id); }
  }

  lemma {:induction false} EntryDescends(states: seq<World>, events: seq<Event>, n: nat, m: nat, id: VisitId)
    requires Path(states, events) && Inv(states[0]) && n <= m < |states|
    requires id !in states[n].r.table && id < states[n].nextId
    ensures id !in states[m].r.table && id < states[m].nextId
    ensures Descends(states[n].r.durable, states[m].r.durable, id)
  {
    if n < m {
      var i := m - 1;
      EntryDescends(states, events, n, i, id);
      InvOnEveryPath(states, events, i);
      assert Step(states[i], events[i], states[i + 1]);
      hide Inv, Step, Path;
      StepDescends(states[i], events[i], states[m], id);
    }
  }

  // -------------------------------------------------- a batch cut by a crash

  /** The visit is still in the table and on disk as it was, or in the hands of a
      thread. */
  predicate KeptOrHanded(r: RunnerState, id: VisitId, e: Entry) {
    if id in r.table then id !in r.handed && id in r.durable && r.table[id] == r.durable[id] == e
    else id in r.handed && id !in r.durable
  }

  lemma {:induction false} FinalizesKeepOrHand(r: RunnerState, out: seq<Transition>, now: real, absence: real, env: Env,
                                               id: VisitId, e: Entry)
    requires forall i :: 0 <= i < |out| ==> out[i].Finalize?
    requires r.table.Keys !! r.jobs.Keys && KeptOrHanded(r, id, e)
    ensures KeptOrHanded(Handle(r, out, now, absence, env), id, e)
    decreases |out|
  {
    if out != [] {
      var r1 := OnFinalize(r, out[0], env);
      assert r1.table.Keys !! r1.jobs.Keys && KeptOrHanded(r1, id, e);
      FinalizesKeepOrHand(r1, out[1..], now, absence, env, id, e);
    }
  }

  lemma TableIsKept(s: World, id: VisitId)
    requires Inv(s) && id in s.r.table
    ensures s.r.table.Keys !! s.r.jobs.Keys && id !in s.r.handed && id in s.r.durable && s.r.durable[id] == s.r.table[id]
  {
    forall i | i in s.r.table ensures i !in s.r.jobs && i !in s.r.handed { assert EntryOk(s.r, ContextOf(s), i, {}); }
  }

  lemma TickFinalizes(s: World, e: Event, s': World)
    requires e.Tick? && StepTick(s, e, s')
    ensures forall i :: 0 <= i < |e.out| ==> e.out[i].Finalize?
  {
    assert forall i :: 0 <= i < |e.out| ==> ClosesAtDeadline(s.r.visits, e.now, e.absence, e.out[i]);
  }

  lemma ObserveFinalizesFirst(s: World, e: Event, s': World)
    requires e.Observe? && StepObserve(s, e, s')
    ensures forall i :: 0 <= i < |e.out| - 1 ==> e.out[i].Finalize?
  {
    hide Observed;
    forall i | 0 <= i < |e.out| - 1 ensures e.out[i].Finalize? {
      ObservedIds(s.r.visits, e.visits, e.key, e.now, e.knobs, s.nextId, s.maxKeys, e.out, i);
    }
  }

  predicate OnDiskOrHanded(s: World, id: VisitId, e: Entry) {
    if id in s.r.durable then id !in s.r.handed && s.r.durable[id] == e else id in s.r.handed
  }

  lemma BatchCut(s: World, visits: Visits, out: seq<Transition>, upto: nat, now: real, absence: real, env: Env, id: VisitId)
    requires Inv(s) && id in s.r.table && upto < |out|
    requires forall i :: 0 <= i < upto ==> out[i].Finalize?
    ensures OnDiskOrHanded(AfterBatch(s, visits, out, upto, now, absence, env), id, s.r.table[id])
  {
    TableIsKept(s, id);
    hide Inv;
    FinalizesKeepOrHand(s.r.(visits := visits), out[..upto], now, absence, env, id, s.r.table[id]);
  }

  lemma TickCut(s: World, e: Event, s': World, id: VisitId)
    requires Inv(s) && e.Tick? && StepTick(s, e, s') && s'.mode.Off? && id in s.r.table
    ensures OnDiskOrHanded(s', id, s.r.table[id])
  {
    TickFinalizes(s, e, s');
    hide Inv, Ticked, Handle;
    BatchCut(s, e.visits, e.out, e.upto, e.now, e.absence, e.env, id);
  }

  lemma ObserveCut(s: World, e: Event, s': World, id: VisitId)
    requires Inv(s) && e.Observe? && StepObserve(s, e, s') && s'.mode.Off? && id in s.r.table
    ensures OnDiskOrHanded(s', id, s.r.table[id])
  {
    hide Inv, Observed, Handle;
    ObserveFinalizesFirst(s, e, s');
    BatchCut(s, e.visits, e.out, e.upto, e.now, e.knobs.absence, e.env, id);
  }

  lemma OtherCut(s: World, e: Event, s': World)
    requires Step(s, e, s') && s'.mode.Off? && !e.Tick? && !e.Observe?
    ensures s'.r.durable == s.r.durable && s'.r.handed == s.r.handed
  {
    hide Drain, ClosesLive, Enumerates;
  }

  /** A step that ends in a crash handles finalizes only before it. */
  lemma CutKeepsOrHands(s: World, e: Event, s': World, id: VisitId)
    requires Inv(s) && Step(s, e, s') && s'.mode.Off? && id in s.r.table
    ensures id in s.r.durable && s.r.durable[id] == s.r.table[id]
    ensures OnDiskOrHanded(s', id, s.r.table[id])
  {
    TableIsKept(s, id);
    hide Inv;
    if e.Tick? {
      TickCut(s, e, s', id);
    } else if e.Observe? {
      ObserveCut(s, e, s', id);
    } else {
      hide Step;
      OtherCut(s, e, s');
    }
  }
}
