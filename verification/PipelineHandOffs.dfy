/** The windows handed to finalize threads, and what was copied for them. */
module PipelineHandOffs {
  import opened VisitLifecycle
  import opened VisitRuntime
  import opened Recovery
  import opened Pipeline
  import opened PipelineInvariant
  import opened PipelineFrames
  import opened PipelineTheorems

  predicate DistinctIds(out: seq<Transition>) {
    forall i, j :: 0 <= i < j < |out| ==> out[i].visitId != out[j].visitId
  }

  /** `tr` was handed over, right after a copy over the same band unless the disk
      was too full for one. */
  predicate HandedOver(r: RunnerState, r': RunnerState, tr: Transition, env: Env) {
    && tr.Finalize? && tr.visitId in r'.jobs && r'.jobs[tr.visitId] == Job(tr.startTs, tr.endTs, Waiting)
    && if Below(env, tr.visitId) then SameAt(r.lastCopy, r'.lastCopy, tr.visitId)
       else tr.visitId in r'.lastCopy && r'.lastCopy[tr.visitId] == Span(tr.startTs, tr.endTs)
  }

  lemma HandedOverNow(r: RunnerState, tr: Transition, now: real, absence: real, env: Env, r': RunnerState)
    requires tr.visitId !in r.jobs && Untouched(Apply(r, tr, now, absence, env), r', tr.visitId) && tr.visitId in r'.jobs
    ensures HandedOver(r, r', tr, env)
  {
  }

  lemma DrainedNow(r: RunnerState, tr: Transition, env: Env, r': RunnerState)
    requires tr.Finalize? && tr.visitId !in r.jobs && Untouched(DrainOne(r, tr, env), r', tr.visitId)
    ensures HandedOver(r, r', tr, env)
  {
  }

  lemma HandedOverLater(r: RunnerState, r1: RunnerState, r': RunnerState, tr: Transition, env: Env)
    requires Untouched(r, r1, tr.visitId) && HandedOver(r1, r', tr, env)
    ensures HandedOver(r, r', tr, env)
  {
  }

  lemma RestDiffers(out: seq<Transition>)
    requires DistinctIds(out) && out != []
    ensures DistinctIds(out[1..]) && forall j :: 0 <= j < |out[1..]| ==> out[1..][j].visitId != out[0].visitId
  {
    assert forall j :: 0 <= j < |out[1..]| ==> out[1..][j] == out[j + 1];
  }

  /** Handling `out` starts a thread for `id` only by handing it over. */
  lemma {:induction false} HandleHandsOver(r: RunnerState, out: seq<Transition>, now: real, absence: real, env: Env, id: VisitId)
    returns (i: nat)
    requires DistinctIds(out) && id !in r.jobs && id in Handle(r, out, now, absence, env).jobs
    ensures i < |out| && out[i].visitId == id && HandedOver(r, Handle(r, out, now, absence, env), out[i], env)
    decreases |out|
  {
    var r1, rest := Apply(r, out[0], now, absence, env), out[1..];
    RestDiffers(out);
    hide DistinctIds, Apply, HandedOver;
    if out[0].visitId == id {
      HandleElsewhere(r1, rest, now, absence, env, id);
      HandedOverNow(r, out[0], now, absence, env, Handle(r1, rest, now, absence, env));
      i := 0;
    } else {
      ApplyElsewhere(r, out[0], now, absence, env, id);
      i := HandleHandsOver(r1, rest, now, absence, env, id);
      HandedOverLater(r, r1, Handle(r1, rest, now, absence, env), rest[i], env);
      i := i + 1;
    }
  }

  lemma {:induction false} DrainHandsOver(r: RunnerState, out: seq<Transition>, env: Env, id: VisitId) returns (i: nat)
    requires DistinctIds(out) && forall j :: 0 <= j < |out| ==> out[j].Finalize?
    requires id !in r.jobs && id in Drain(r, out, env).jobs
    ensures i < |out| && out[i].visitId == id && HandedOver(r, Drain(r, out, env), out[i], env)
    decreases |out|
  {
    var r1, rest := DrainOne(r, out[0], env), out[1..];
    RestDiffers(out);
    hide DistinctIds, DrainOne, HandedOver;
    if out[0].visitId == id {
      DrainElsewhere(r1, rest, env, id);
      DrainedNow(r, out[0], env, Drain(r1, rest, env));
      i := 0;
    } else {
      DrainOneElsewhere(r, out[0], env, id);
      i := DrainHandsOver(r1, rest, env, id);
      HandedOverLater(r, r1, Drain(r1, rest, env), rest[i], env);
      i := i + 1;
    }
  }

  /** `tr` closes a visit of the table from where its entry begins. */
  predicate ClosesEntry(t: Table, tr: Transition) {
    tr.Finalize? && tr.visitId in t && tr.startTs == t[tr.visitId].startTs
  }

  /** What happened to `id` in the step that handed it over. */
  ghost predicate HandOff(s: World, e: Event, s': World, id: VisitId, tr: Transition)
    requires HandlesVisits(e)
  {
    tr.visitId == id && ClosesEntry(s.r.table, tr) && HandedOver(s.r, s'.r, tr, e.env)
  }

  lemma TickHandsOver(s: World, e: Event, s': World, id: VisitId) returns (tr: Transition)
    requires Inv(s) && e.Tick? && StepTick(s, e, s') && id !in s.r.jobs && id in s'.r.jobs
    ensures HandOff(s, e, s', id, tr)
  {
    var pending := TickMid(s.r, ContextOf(s), e.visits, e.now, e.absence, e.out);
    assert DistinctIds(e.out);
    var i := WholeBatchHandsOver(s, e.visits, e.out, e.upto, e.now, e.absence, e.env, id);
    tr := e.out[i];
    assert ClosesAtDeadline(s.r.visits, e.now, e.absence, tr);
    LiveFacts(s, tr.key);
  }

  lemma ObservedFinalize(v: Visits, v': Visits, k: Key, now: real, knobs: Knobs, id: VisitId, maxKeys: nat,
                         out: seq<Transition>, i: nat)
    requires Observed(v, v', k, now, knobs, id, maxKeys, out) && i < |out| && out[i].Finalize?
    ensures Live(v, k) && out[i] == Closing(k, v[k], out[i].endTs)
  {
  }

  lemma ObservedDistinct(v: Visits, v': Visits, k: Key, now: real, knobs: Knobs, id: VisitId, maxKeys: nat,
                         out: seq<Transition>)
    requires Observed(v, v', k, now, knobs, id, maxKeys, out) && (Live(v, k) ==> v[k].visitId != id)
    ensures DistinctIds(out)
  {
  }

  lemma LiveFacts(s: World, k: Key)
    requires Inv(s) && Live(s.r.visits, k)
    ensures var v := s.r.visits[k];
            v.visitId in s.r.table && s.r.table[v.visitId].startTs == v.startTs && v.visitId < s.nextId
  {
    assert Agrees(s.r.table, k, s.r.visits[k]);
    assert EntryOk(s.r, ContextOf(s), s.r.visits[k].visitId, {});
  }

  lemma WholeBatchHandsOver(s: World, visits: Visits, out: seq<Transition>, upto: nat, now: real, absence: real, env: Env,
                            id: VisitId) returns (i: nat)
    requires upto <= |out| && DistinctIds(out) && id !in s.r.jobs
    requires id in AfterBatch(s, visits, out, upto, now, absence, env).r.jobs
    ensures i < |out| && out[i].visitId == id
    ensures HandedOver(s.r, AfterBatch(s, visits, out, upto, now, absence, env).r, out[i], env)
  {
    assert out[..|out|] == out;
    i := HandleHandsOver(s.r.(visits := visits), out, now, absence, env, id);
  }

  lemma ObserveHandsOver(s: World, e: Event, s': World, id: VisitId) returns (tr: Transition)
    requires Inv(s) && e.Observe? && StepObserve(s, e, s') && id !in s.r.jobs && id in s'.r.jobs
    ensures HandOff(s, e, s', id, tr)
  {
    hide Inv, Observed, Handle, HandedOver;
    if Live(s.r.visits, e.key) { LiveFacts(s, e.key); }
    ObservedDistinct(s.r.visits, e.visits, e.key, e.now, e.knobs, s.nextId, s.maxKeys, e.out);
    hide DistinctIds;
    var i := WholeBatchHandsOver(s, e.visits, e.out, e.upto, e.now, e.knobs.absence, e.env, id);
    tr := e.out[i];
    HandedIsFinalize(s.r, s'.r, tr, e.env);
    ObservedFinalize(s.r.visits, e.visits, e.key, e.now, e.knobs, s.nextId, s.maxKeys, e.out, i);
  }

  lemma HandedIsFinalize(r: RunnerState, r': RunnerState, tr: Transition, env: Env)
    requires HandedOver(r, r', tr, env)
    ensures tr.Finalize?
  {
  }

  lemma DrainStartHandsOver(s: World, e: Event, s': World, id: VisitId) returns (tr: Transition)
    requires Inv(s) && e.DrainStart? && StepDrain(s, e, s') && id !in s.r.jobs && id in s'.r.jobs
    ensures HandOff(s, e, s', id, tr)
  {
    var pending := DrainPending(s.r, ContextOf(s), e.now, e.out);
    assert forall i :: 0 <= i < |e.out| ==> Closable(e.out[i], pending, e.now);
    assert DistinctIds(e.out);
    var i := DrainHandsOver(s.r, e.out, e.env, id);
    tr := e.out[i];
    assert ClosesAtLastSeen(s.r.visits, e.now, tr);
    LiveFacts(s, tr.key);
  }

  /** Only a batch starts threads. */
  lemma OthersStartNone(s: World, e: Event, s': World, id: VisitId)
    requires Step(s, e, s') && !HandlesVisits(e) && id in s'.r.jobs
    ensures id in s.r.jobs && s'.r.jobs[id].startTs == s.r.jobs[id].startTs && s'.r.jobs[id].endTs == s.r.jobs[id].endTs
    ensures s'.r.lastCopy == s.r.lastCopy
  {
    hide StepTick, StepObserve, ClosesLive, Drain;
  }

  lemma StepHandsOver(s: World, e: Event, s': World, id: VisitId) returns (tr: Transition)
    requires Inv(s) && Step(s, e, s') && id !in s.r.jobs && id in s'.r.jobs
    ensures HandlesVisits(e) && HandOff(s, e, s', id, tr)
  {
    if e.Tick? {
      tr := TickHandsOver(s, e, s', id);
    } else if e.Observe? {
      tr := ObserveHandsOver(s, e, s', id);
    } else if e.DrainStart? {
      tr := DrainStartHandsOver(s, e, s', id);
    } else {
      OthersStartNone(s, e, s', id);
      assert false;
    }
  }

  /** The window of the thread lies within the band of the visit's last copy. */
  predicate Covered(r: RunnerState, id: VisitId)
    requires id in r.jobs
  {
    && id in r.lastCopy
    && r.lastCopy[id].startTs <= r.jobs[id].startTs && r.jobs[id].endTs <= r.lastCopy[id].untilTs
  }

  /** Exactly then, as the handler could tell before it hands the visit over. */
  predicate CanCover(s: World, e: Event, id: VisitId, endTs: real)
    requires HandlesVisits(e) && id in s.r.table
  {
    !Below(e.env, id) || (id in s.r.lastCopy && endTs <= s.r.table[id].lastExtend)
  }

  lemma HandOffCovers(s: World, e: Event, s': World, id: VisitId, tr: Transition)
    requires Inv(s) && HandlesVisits(e) && HandOff(s, e, s', id, tr)
    ensures id in s.r.table && id in s'.r.jobs
    ensures !Below(e.env, id) ==>
              id in s'.r.lastCopy && s'.r.lastCopy[id] == Span(s'.r.jobs[id].startTs, s'.r.jobs[id].endTs)
    ensures Covered(s'.r, id) <==> CanCover(s, e, id, s'.r.jobs[id].endTs)
  {
    assert EntryOk(s.r, ContextOf(s), id, {});
  }

  /** The step that handed over the visit of a finalize thread. */
  ghost predicate HandsOverAt(states: seq<World>, events: seq<Event>, n: nat, id: VisitId) {
    && n < |events| && n + 1 < |states| && HandlesVisits(events[n]) && id in states[n].r.table
    && id !in states[n].r.jobs && id in states[n + 1].r.jobs
  }

  /** Window and band of a running thread do not change. */
  lemma ThreadKeepsBand(s: World, e: Event, s': World, id: VisitId)
    requires Inv(s) && Step(s, e, s') && id in s.r.jobs && id in s'.r.jobs
    ensures s'.r.jobs[id].startTs == s.r.jobs[id].startTs && s'.r.jobs[id].endTs == s.r.jobs[id].endTs
    ensures SameAt(s.r.lastCopy, s'.r.lastCopy, id)
  {
    if HandlesVisits(e) {
      assert JobOk(s.r, ContextOf(s), id);
      if id in s.r.table { TableIsKept(s, id); }
      StepSpares(s, e, s', id);
    } else {
      OthersStartNone(s, e, s', id);
    }
  }

  /** For every finalize thread, in every state: it was handed over by some step
      n, and if the disk was not below the floor then, its window is the band of
      the visit's last copy call.  The window lies within that band if and only
      if the disk was above the floor, or nothing is claimed beyond the last
      extend; so below the floor the promised bound on the clip fails as soon as
      the visit ends later than it was last copied. */
  lemma {:induction false} HandedBandExactly(states: seq<World>, events: seq<Event>, m: nat, id: VisitId) returns (n: nat)
    requires Path(states, events) && Initial(states[0]) && m < |states| && id in states[m].r.jobs
    ensures n < m && HandsOverAt(states, events, n, id)
    ensures var r := states[m].r;
            && (!Below(events[n].env, id) ==>
                  id in r.lastCopy && r.lastCopy[id] == Span(r.jobs[id].startTs, r.jobs[id].endTs))
            && (Covered(r, id) <==> CanCover(states[n], events[n], id, r.jobs[id].endTs))
  {
    var i := m - 1;
    StepOfRun(states, events, i);
    hide Path, Initial, Inv, Step;
    if id in states[i].r.jobs {
      n := HandedBandExactly(states, events, i, id);
      ThreadKeepsBand(states[i], events[i], states[m], id);
    } else {
      n := i;
      var tr := StepHandsOver(states[i], events[i], states[m], id);
      HandOffCovers(states[i], events[i], states[m], id, tr);
    }
  }
}
