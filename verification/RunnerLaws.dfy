/** What one frame does to memory and disk, in terms of its readings alone: the
    free bytes, the floor, the sliders and the clock. */
module RunnerLaws {
  import opened Collections
  import opened VisitLifecycle
  import opened VisitLaws
  import opened VisitRuntime
  import opened Recovery
  import opened Pipeline
  import opened PipelineInvariant
  import opened PipelineFrames
  import opened PipelineHandOffs
  import opened PipelineTheorems

  /** The floor is 450 MiB unless the runner was given another one. */
  lemma DefaultFloor(free: map<VisitId, nat>, copied: set<VisitId>, made: set<VisitId>)
    ensures Env(free, copied, made).minFree == 471859200 == 450 * 1024 * 1024
    ensures Env(free, copied, made).free == free
  {
  }

  // -------------------------------------------------------- single handlers

  /** An open is taken up, in memory, on disk and in the post, exactly when there
      is room; otherwise the key is forgotten and counted, and nothing else moves. */
  lemma OpenTakesRoom(w: RunnerState, tr: Transition, now: real, absence: real, env: Env)
    requires tr.Open?
    ensures var w', id := OnOpen(w, tr, now, absence, env), tr.visitId;
            if id !in env.free || env.free[id] >= env.minFree then
              && w'.table == w.table[id := Entry(OPEN, tr.key, tr.startTs, tr.startTs, now, tr.segmentIndex, absence, 0)]
              && w'.durable == w'.table && w'.posted == w.posted + {id}
              && w'.visits == w.visits && w'.refused == w.refused
            else
              && w'.table == w.table && w'.durable == w.durable && w'.posted == w.posted
              && w'.visits == w.visits - {tr.key} && w'.refused == w.refused + 1
    ensures var w' := OnOpen(w, tr, now, absence, env);
            w'.scratch == w.scratch && w'.jobs == w.jobs && w'.handed == w.handed && w'.lastCopy == w.lastCopy
  {
  }

  /** An extend always notes the sighting on disk; it claims and copies the
      footage up to now exactly when there is room. */
  lemma ExtendTakesRoom(w: RunnerState, tr: Transition, now: real, env: Env)
    requires tr.Extend? && tr.visitId in w.table
    ensures var w', id, e := OnExtend(w, tr, now, env), tr.visitId, w.table[tr.visitId];
            && id in w'.table && w'.durable == w'.table && w'.table - {id} == w.table - {id}
            && w'.table[id].lastSeen == now && w'.table[id].startTs == e.startTs && w'.table[id].key == e.key
            && w'.posted == w.posted && w'.jobs == w.jobs && w'.handed == w.handed && w'.visits == w.visits
            && if id !in env.free || env.free[id] >= env.minFree then
                 && w'.table[id].lastExtend == tr.endTs && w'.lastCopy == w.lastCopy[id := Span(e.startTs, tr.endTs)]
                 && w'.scratch == if id in env.copied then w.scratch + {id} else w.scratch
               else
                 w'.table[id].lastExtend == e.lastExtend && w'.lastCopy == w.lastCopy && w'.scratch == w.scratch
  {
    assert w.scratch + env.copied * {tr.visitId} == if tr.visitId in env.copied then w.scratch + {tr.visitId} else w.scratch;
  }

  /** A finalize leaves table and disk and starts one thread over its window; the
      catch-up copy over that window is made exactly when there is room. */
  lemma FinalizeTakesRoom(w: RunnerState, tr: Transition, env: Env)
    requires tr.Finalize? && tr.visitId !in w.jobs
    ensures var w', id := OnFinalize(w, tr, env), tr.visitId;
            && w'.table == w.table - {id} && w'.durable == w'.table
            && w'.jobs == w.jobs[id := Job(tr.startTs, tr.endTs, Waiting)] && w'.handed == w.handed + [id]
            && w'.posted == w.posted && w'.visits == w.visits
            && if id !in env.free || env.free[id] >= env.minFree then
                 && w'.lastCopy == w.lastCopy[id := Span(tr.startTs, tr.endTs)]
                 && w'.scratch == if id in env.copied then w.scratch + {id} else w.scratch
               else
                 w'.lastCopy == w.lastCopy && w'.scratch == w.scratch
    ensures var w', d := OnFinalize(w, tr, env), DrainOne(w, tr, env); d == w'.(durable := w.durable)
  {
    assert w.scratch + env.copied * {tr.visitId} == if tr.visitId in env.copied then w.scratch + {tr.visitId} else w.scratch;
  }

  /** A visit already in the hands of a thread is not handed over again. */
  lemma FinalizeOnce(w: RunnerState, tr: Transition, env: Env)
    requires tr.Finalize? && tr.visitId in w.jobs
    ensures var w' := OnFinalize(w, tr, env); w'.jobs == w.jobs && w'.handed == w.handed
  {
  }

  // ------------------------------------------- frames in reachable states

  /** A detection that is handled to its end, in a state with the invariant, as
      every reachable one is. */
  ghost predicate Frame(s: World, e: Event, s': World) {
    Inv(s) && e.Observe? && Step(s, e, s') && s'.mode.Armed?
  }

  lemma FrameFacts(s: World, e: Event, s': World)
    requires Frame(s, e, s')
    ensures Observed(s.r.visits, e.visits, e.key, e.now, e.knobs, s.nextId, s.maxKeys, e.out)
    ensures s'.r == Handle(s.r.(visits := e.visits), e.out, e.now, e.knobs.absence, e.env)
  {
    hide Inv, Observed, Handle;
    assert e.out[..e.upto] == e.out;
  }

  /** First sight of a key, above the floor: the visit is posted, and is on disk
      with a window that begins one pre-roll before the frame.  Below the floor
      nothing is recorded, and the tracker has forgotten the key. */
  lemma FirstSight(s: World, e: Event, s': World)
    requires Frame(s, e, s') && !Live(s.r.visits, e.key)
    ensures var id, start := s.nextId, e.now - e.knobs.preRoll;
            if id !in e.env.free || e.env.free[id] >= e.env.minFree then
              && id in s'.r.posted && s'.r.durable == s'.r.table
              && s'.r.table == s.r.table[id := Entry(OPEN, e.key, start, start, e.now, 0, e.knobs.absence, 0)]
              && e.key in s'.r.visits && s'.r.visits[e.key] == Present(id, e.now, e.now, start, 0)
            else
              && s'.r.table == s.r.table && s'.r.durable == s.r.durable && s'.r.posted == s.r.posted
              && e.key !in s'.r.visits && s'.r.refused == s.r.refused + 1
  {
    hide Step, Observed, Inv, Handle, OnOpen;
    FrameFacts(s, e, s');
    ObservedFirst(s.r.visits, e.visits, e.key, e.now, e.knobs, s.nextId, s.maxKeys, e.out);
    FirstFrame(s.r, e, s.nextId, e.now - e.knobs.preRoll, s'.r);
  }

  lemma FirstFrame(r: RunnerState, e: Event, id: VisitId, start: real, r': RunnerState)
    requires e.Observe? && e.out == [Open(e.key, id, start, 0)]
    requires e.key in e.visits && e.visits[e.key] == Present(id, e.now, e.now, start, 0)
    requires r' == Handle(r.(visits := e.visits), e.out, e.now, e.knobs.absence, e.env)
    ensures if id !in e.env.free || e.env.free[id] >= e.env.minFree then
              && id in r'.posted && r'.durable == r'.table
              && r'.table == r.table[id := Entry(OPEN, e.key, start, start, e.now, 0, e.knobs.absence, 0)]
              && e.key in r'.visits && r'.visits[e.key] == Present(id, e.now, e.now, start, 0)
            else
              && r'.table == r.table && r'.durable == r.durable && r'.posted == r.posted
              && e.key !in r'.visits && r'.refused == r.refused + 1
  {
    HandleOne(r.(visits := e.visits), e.out[0], e.now, e.knobs.absence, e.env);
    hide Handle;
    OpenTakesRoom(r.(visits := e.visits), e.out[0], e.now, e.knobs.absence, e.env);
    hide OnOpen;
  }

  /** Seen again in time: the sighting is on disk, and above the floor so is the
      claim up to this frame, with a copy call over exactly that window. */
  lemma SeenAgain(s: World, e: Event, s': World)
    requires Frame(s, e, s') && Live(s.r.visits, e.key)
    requires var v := s.r.visits[e.key];
             e.now - v.startedAt < e.knobs.maxVisit && e.now <= v.lastSeen + e.knobs.absence
    ensures var v := s.r.visits[e.key];
            var id := v.visitId;
            && s'.r.visits == s.r.visits[e.key := v.(lastSeen := e.now)]
            && id in s.r.table && id in s'.r.table && s'.r.durable == s'.r.table && s'.r.table[id].lastSeen == e.now
            && if id !in e.env.free || e.env.free[id] >= e.env.minFree then
                 && s'.r.table[id].lastExtend == e.now && id in s'.r.lastCopy && s'.r.lastCopy[id] == Span(v.startTs, e.now)
                 && (id in e.env.copied ==> id in s'.r.scratch)
               else
                 s'.r.table[id].lastExtend == s.r.table[id].lastExtend && s'.r.lastCopy == s.r.lastCopy
                 && s'.r.scratch == s.r.scratch
  {
    hide Step, Observed, Core, Handle;
    FrameFacts(s, e, s');
    LiveAgrees(s.r, ContextOf(s), e.key);
    ObservedAgain(s.r.visits, e.visits, e.key, e.now, e.knobs, s.nextId, s.maxKeys, e.out);
    HandleOne(s.r.(visits := e.visits), e.out[0], e.now, e.knobs.absence, e.env);
    ExtendTakesRoom(s.r.(visits := e.visits), e.out[0], e.now, e.env);
    hide OnExtend, Inv;
  }

  /** A visit that ends with the frame: it is handed to a thread with exactly this
      window, gone from table and disk, and its successor, if there is room for
      it, is posted and on disk from `start` on. */
  predicate Succeeds(r: RunnerState, e: Event, id': VisitId, r': RunnerState, endTs: real, start: real, index: nat)
    requires e.Observe? && Live(r.visits, e.key)
  {
    var v := r.visits[e.key];
    && v.visitId in r'.handed && v.visitId in r'.jobs && r'.jobs[v.visitId] == Job(v.startTs, endTs, Waiting)
    && v.visitId !in r'.table && r'.durable == r'.table
    && if id' !in e.env.free || e.env.free[id'] >= e.env.minFree then
         && id' in r'.posted && id' in r'.table && r'.table[id'].startTs == start
         && r'.table[id'].segmentIndex == index && r'.table[id'].lastSeen == e.now
         && e.key in r'.visits && r'.visits[e.key] == Present(id', e.now, e.now, start, index)
       else id' !in r'.table && id' !in r'.posted && e.key !in r'.visits && r'.refused == r.refused + 1
  }

  /** Ids the factory has not given out are nowhere. */
  lemma NextIsNew(s: World)
    requires Inv(s)
    ensures s.nextId !in s.r.table && s.nextId !in s.r.posted
  {
    assert forall i :: i in s.r.table ==> EntryOk(s.r, ContextOf(s), i, {});
  }

  lemma LiveIsNotHanded(s: World, key: Key)
    requires Inv(s) && Live(s.r.visits, key)
    ensures var id := s.r.visits[key].visitId; id in s.r.table && id !in s.r.jobs && id != s.nextId
  {
    LiveAgrees(s.r, ContextOf(s), key);
    assert EntryOk(s.r, ContextOf(s), s.r.visits[key].visitId, {});
  }

  lemma PairSucceeds(r: RunnerState, e: Event, id': VisitId, endTs: real, start: real, index: nat)
    requires e.Observe? && Live(r.visits, e.key)
    requires var id := r.visits[e.key].visitId; id !in r.jobs && id != id' && id' !in r.table && id' !in r.posted
    requires var v := r.visits[e.key];
             e.out == [Finalize(e.key, v.visitId, v.startTs, endTs, v.segmentIndex), Open(e.key, id', start, index)]
    requires e.key in e.visits && e.visits[e.key] == Present(id', e.now, e.now, start, index)
    ensures Succeeds(r, e, id', Handle(r.(visits := e.visits), e.out, e.now, e.knobs.absence, e.env), endTs, start, index)
  {
    var r0 := r.(visits := e.visits);
    HandleTwo(r0, e.out[0], e.out[1], e.now, e.knobs.absence, e.env);
    hide Handle;
    FinalizeTakesRoom(r0, e.out[0], e.env);
    OpenTakesRoom(OnFinalize(r0, e.out[0], e.env), e.out[1], e.now, e.knobs.absence, e.env);
    hide OnFinalize, OnOpen, DrainOne;
  }

  lemma EndsWithFrame(s: World, e: Event, r': RunnerState, endTs: real, start: real, index: nat)
    requires Inv(s) && e.Observe? && Live(s.r.visits, e.key)
    requires var v := s.r.visits[e.key];
             e.out == [Finalize(e.key, v.visitId, v.startTs, endTs, v.segmentIndex), Open(e.key, s.nextId, start, index)]
    requires e.key in e.visits && e.visits[e.key] == Present(s.nextId, e.now, e.now, start, index)
    requires r' == Handle(s.r.(visits := e.visits), e.out, e.now, e.knobs.absence, e.env)
    ensures Succeeds(s.r, e, s.nextId, r', endTs, start, index)
  {
    NextIsNew(s);
    LiveIsNotHanded(s, e.key);
    hide *;
    PairSucceeds(s.r, e, s.nextId, endTs, start, index);
  }

  /** The cap comes first: a visit that has lasted its maximum is cut there, even
      if the subject had been away for longer than the absence, and goes on
      without a gap under the next index. */
  lemma CutAtCap(s: World, e: Event, s': World)
    requires Frame(s, e, s') && Live(s.r.visits, e.key)
    requires e.now - s.r.visits[e.key].startedAt >= e.knobs.maxVisit
    ensures var v := s.r.visits[e.key];
            var cut := v.startedAt + e.knobs.maxVisit;
            Succeeds(s.r, e, s.nextId, s'.r, cut, cut, v.segmentIndex + 1)
  {
    hide Step, Observed, Handle, Succeeds, Inv;
    FrameFacts(s, e, s');
    ObservedAtCap(s.r.visits, e.visits, e.key, e.now, e.knobs, s.nextId, s.maxKeys, e.out);
    var cut := s.r.visits[e.key].startedAt + e.knobs.maxVisit;
    EndsWithFrame(s, e, s'.r, cut, cut, s.r.visits[e.key].segmentIndex + 1);
  }

  /** Back after more than the absence: the visit ended with its grace, and the
      next one begins afresh, one pre-roll before the frame. */
  lemma BackAfterAbsence(s: World, e: Event, s': World)
    requires Frame(s, e, s') && Live(s.r.visits, e.key)
    requires var v := s.r.visits[e.key];
             e.now - v.startedAt < e.knobs.maxVisit && e.now > v.lastSeen + e.knobs.absence
    ensures var v := s.r.visits[e.key];
            Succeeds(s.r, e, s.nextId, s'.r, v.lastSeen + e.knobs.absence, e.now - e.knobs.preRoll, 0)
  {
    hide Step, Observed, Handle, Succeeds, Inv;
    FrameFacts(s, e, s');
    ObservedBack(s.r.visits, e.visits, e.key, e.now, e.knobs, s.nextId, s.maxKeys, e.out);
    var endTs, start, index: nat := s.r.visits[e.key].lastSeen + e.knobs.absence, e.now - e.knobs.preRoll, 0;
    assert e.visits[e.key] == Present(s.nextId, e.now, e.now, start, index);
    assert e.out[1] == Open(e.key, s.nextId, start, index);
    assert e.out[0] == Finalize(e.key, s.r.visits[e.key].visitId, s.r.visits[e.key].startTs, endTs, s.r.visits[e.key].segmentIndex);
    EndsWithFrame(s, e, s'.r, endTs, start, index);
  }

  // ------------------------------------------------------ ticks and drains

  /** A visit that ends in a batch: it is in a thread's hands with this window,
      and gone from memory. */
  predicate Ends(r: RunnerState, k: Key, r': RunnerState, endTs: real)
    requires Live(r.visits, k)
  {
    var v := r.visits[k];
    && v.visitId in r'.jobs && r'.jobs[v.visitId] == Job(v.startTs, endTs, Waiting)
    && v.visitId in r'.handed && v.visitId !in r'.table && !Live(r'.visits, k)
  }

  lemma {:induction false} HandleStarts(r: RunnerState, out: seq<Transition>, now: real, absence: real, env: Env, id: VisitId)
    requires id in r.jobs || exists i :: 0 <= i < |out| && out[i].Finalize? && out[i].visitId == id
    ensures id in Handle(r, out, now, absence, env).jobs
    decreases |out|
  {
    if out != [] {
      var r1 := Apply(r, out[0], now, absence, env);
      assert id in r1.jobs || exists i :: 0 <= i < |out[1..]| && out[1..][i].Finalize? && out[1..][i].visitId == id by {
        if id !in r1.jobs {
          var i :| 0 <= i < |out| && out[i].Finalize? && out[i].visitId == id;
          assert out[1..][i - 1] == out[i];
        }
      }
      HandleStarts(r1, out[1..], now, absence, env, id);
    }
  }

  lemma {:induction false} DrainStarts(r: RunnerState, out: seq<Transition>, env: Env, id: VisitId)
    requires forall i :: 0 <= i < |out| ==> out[i].Finalize?
    requires id in r.jobs || exists i :: 0 <= i < |out| && out[i].visitId == id
    ensures id in Drain(r, out, env).jobs
    decreases |out|
  {
    if out != [] {
      var r1 := DrainOne(r, out[0], env);
      assert id in r1.jobs || exists i :: 0 <= i < |out[1..]| && out[1..][i].visitId == id by {
        if id !in r1.jobs {
          var i :| 0 <= i < |out| && out[i].visitId == id;
          assert out[1..][i - 1] == out[i];
        }
      }
      DrainStarts(r1, out[1..], env, id);
    }
  }

  /** What is in a thread's hands is in no table. */
  lemma HandedIsGone(s: World, id: VisitId)
    requires Inv(s) && id in s.r.jobs
    ensures id in s.r.handed && id !in s.r.table
  {
    assert JobOk(s.r, ContextOf(s), id);
    assert forall i :: i in s.r.table ==> EntryOk(s.r, ContextOf(s), i, {});
  }

  /** Live visits of different keys are different visits. */
  lemma LiveApart(s: World, j: Key, k: Key)
    requires Inv(s) && Live(s.r.visits, j) && Live(s.r.visits, k) && s.r.visits[j].visitId == s.r.visits[k].visitId
    ensures j == k
  {
    assert Agrees(s.r.table, j, s.r.visits[j]) && Agrees(s.r.table, k, s.r.visits[k]);
  }

  /** A tick that is handled to its end, likewise. */
  ghost predicate TickHandled(s: World, e: Event, s': World) {
    Inv(s) && e.Tick? && Step(s, e, s') && s'.mode.Armed?
  }

  lemma TickVisits(s: World, e: Event, s': World)
    requires TickHandled(s, e, s')
    ensures Inv(s') && Ticked(s.r.visits, e.visits, e.now, e.absence, e.out)
    ensures s'.r.visits == e.visits && s'.r == Handle(s.r.(visits := e.visits), e.out, e.now, e.absence, e.env)
  {
    StepKeepsInv(s, e, s');
    TickFinalizes(s, e, s');
    hide Inv, Ticked;
    assert e.out[..e.upto] == e.out;
    FinalizesKeepVisits(s.r.(visits := e.visits), e.out, e.now, e.absence, e.env);
  }

  lemma TickIdsApart(s: World, e: Event, s': World)
    requires TickHandled(s, e, s')
    ensures DistinctIds(e.out)
  {
    var pending := TickMid(s.r, ContextOf(s), e.visits, e.now, e.absence, e.out);
  }

  lemma TickIdsOther(s: World, e: Event, s': World, k: Key)
    requires TickHandled(s, e, s') && Live(s.r.visits, k) && e.now <= s.r.visits[k].lastSeen + e.absence
    ensures forall i :: 0 <= i < |e.out| ==> e.out[i].visitId != s.r.visits[k].visitId
  {
    forall i | 0 <= i < |e.out| ensures e.out[i].visitId != s.r.visits[k].visitId {
      assert ClosesAtDeadline(s.r.visits, e.now, e.absence, e.out[i]);
      if e.out[i].visitId == s.r.visits[k].visitId { LiveApart(s, e.out[i].key, k); }
    }
  }

  /** Handling `out` puts each visit it finalizes into a thread's hands, over the
      window of its transition. */
  lemma HandledJob(r: RunnerState, out: seq<Transition>, now: real, absence: real, env: Env, tr: Transition)
    requires DistinctIds(out) && tr in out && tr.Finalize? && tr.visitId !in r.jobs
    ensures var id, r' := tr.visitId, Handle(r, out, now, absence, env);
            id in r'.jobs && r'.jobs[id] == Job(tr.startTs, tr.endTs, Waiting)
  {
    var id := tr.visitId;
    var i :| 0 <= i < |out| && out[i] == tr;
    HandleStarts(r, out, now, absence, env, id);
    hide Handle;
    var j := HandleHandsOver(r, out, now, absence, env, id);
    assert i == j;
  }

  lemma DrainedJob(r: RunnerState, out: seq<Transition>, env: Env, tr: Transition)
    requires DistinctIds(out) && tr in out && tr.visitId !in r.jobs
    requires forall j :: 0 <= j < |out| ==> out[j].Finalize?
    ensures tr.Finalize?
    ensures var id, r' := tr.visitId, Drain(r, out, env);
            id in r'.jobs && r'.jobs[id] == Job(tr.startTs, tr.endTs, Waiting)
  {
    var id := tr.visitId;
    var i :| 0 <= i < |out| && out[i] == tr;
    DrainStarts(r, out, env, id);
    hide Drain;
    var j := DrainHandsOver(r, out, env, id);
    assert i == j;
  }

  /** A tick ends the visits past their absence, each with its grace and not a
      moment later; every other visit stays as it was. */
  lemma TickEnds(s: World, e: Event, s': World, k: Key)
    requires TickHandled(s, e, s') && Live(s.r.visits, k)
    ensures var v := s.r.visits[k];
            if e.now > v.lastSeen + e.absence then Ends(s.r, k, s'.r, v.lastSeen + e.absence)
            else k in s'.r.visits && s'.r.visits[k] == v && v.visitId !in s'.r.jobs && SameAt(s.r.table, s'.r.table, v.visitId)
  {
    hide Inv, Step, Ends;
    if e.now > s.r.visits[k].lastSeen + e.absence { TickEndsOne(s, e, s', k); } else { TickSparesOne(s, e, s', k); }
  }

  lemma TickEndsOne(s: World, e: Event, s': World, k: Key)
    requires TickHandled(s, e, s') && Live(s.r.visits, k) && e.now > s.r.visits[k].lastSeen + e.absence
    ensures Ends(s.r, k, s'.r, s.r.visits[k].lastSeen + e.absence)
  {
    hide Inv, Step, Ticked, DistinctIds, Ends, Handle;
    TickVisits(s, e, s');
    LiveIsNotHanded(s, k);
    TickIdsApart(s, e, s');
    TickedCases(s.r.visits, e.visits, k, e.now, e.absence, e.out);
    var v := s.r.visits[k];
    var tr := Finalize(k, v.visitId, v.startTs, v.lastSeen + e.absence, v.segmentIndex);
    BatchEnds(s, k, e.visits, e.out, e.now, e.absence, e.env, tr, s');
  }

  /** A batch with `tr` in it ends the visit of `tr`. */
  lemma BatchEnds(s: World, k: Key, visits: Visits, out: seq<Transition>, now: real, absence: real, env: Env,
                  tr: Transition, s': World)
    requires Live(s.r.visits, k) && s.r.visits[k].visitId !in s.r.jobs && (k in visits ==> visits[k].Idle?)
    requires tr.Finalize? && tr.visitId == s.r.visits[k].visitId && tr.startTs == s.r.visits[k].startTs
    requires DistinctIds(out) && tr in out
    requires Inv(s') && s'.r.visits == visits && s'.r == Handle(s.r.(visits := visits), out, now, absence, env)
    ensures Ends(s.r, k, s'.r, tr.endTs)
  {
    HandledJob(s.r.(visits := visits), out, now, absence, env, tr);
    HandedIsGone(s', tr.visitId);
    hide Inv, Handle, DistinctIds;
  }

  lemma EndsNow(r: RunnerState, k: Key, r': RunnerState, endTs: real)
    requires Live(r.visits, k) && (k in r'.visits ==> r'.visits[k].Idle?)
    requires var id := r.visits[k].visitId;
             id in r'.jobs && r'.jobs[id] == Job(r.visits[k].startTs, endTs, Waiting) && id in r'.handed && id !in r'.table
    ensures Ends(r, k, r', endTs)
  {
  }

  lemma TickSparesOne(s: World, e: Event, s': World, k: Key)
    requires TickHandled(s, e, s') && Live(s.r.visits, k) && e.now <= s.r.visits[k].lastSeen + e.absence
    ensures var v := s.r.visits[k];
            k in s'.r.visits && s'.r.visits[k] == v && v.visitId !in s'.r.jobs && SameAt(s.r.table, s'.r.table, v.visitId)
  {
    TickVisits(s, e, s');
    TickedCases(s.r.visits, e.visits, k, e.now, e.absence, e.out);
    LiveIsNotHanded(s, k);
    TickIdsOther(s, e, s', k);
    hide Inv, TickHandled, Ticked, Handle;
    HandleElsewhere(s.r.(visits := e.visits), e.out, e.now, e.absence, e.env, s.r.visits[k].visitId);
  }

  /** A drain ends every live visit at its last sighting, and forgets them all; at
      its end the file says so. */
  lemma DrainEnds(s: World, e: Event, s': World, k: Key, s'': World)
    requires Inv(s) && e.DrainStart? && Step(s, e, s') && Step(s', DrainEnd, s'') && Live(s.r.visits, k)
    ensures Ends(s.r, k, s''.r, s.r.visits[k].lastSeen) && s''.r.visits == map[] && s.r.visits[k].visitId !in s''.r.durable
  {
    hide Inv, ClosesLive, Drain, DistinctIds;
    var v := s.r.visits[k];
    StepKeepsInv(s, e, s');
    LiveIsNotHanded(s, k);
    DrainIds(s, e, s');
    DrainCloses(s, e, s', k);
    assert s'.r == Drain(s.r, e.out, e.env).(visits := map[]) && s''.r == s'.r.(durable := s'.r.table);
    hide *;
    DrainedJob(s.r, e.out, e.env, Finalize(k, v.visitId, v.startTs, v.lastSeen, v.segmentIndex));
    HandedIsGone(s', v.visitId);
    EndsNow(s.r, k, s''.r, v.lastSeen);
  }

  lemma DrainCloses(s: World, e: Event, s': World, k: Key)
    requires Inv(s) && e.DrainStart? && Step(s, e, s') && Live(s.r.visits, k)
    ensures var v := s.r.visits[k];
            Finalize(k, v.visitId, v.startTs, v.lastSeen, v.segmentIndex) in e.out
  {
    LiveAgrees(s.r, ContextOf(s), k);
    assert Closes(e.out, k);
    var i :| 0 <= i < |e.out| && e.out[i].key == k;
    assert ClosesAtLastSeen(s.r.visits, e.now, e.out[i]);
  }

  lemma DrainIds(s: World, e: Event, s': World)
    requires Inv(s) && e.DrainStart? && Step(s, e, s')
    ensures DistinctIds(e.out) && forall j :: 0 <= j < |e.out| ==> e.out[j].Finalize?
  {
    var pending := DrainPending(s.r, ContextOf(s), e.now, e.out);
    assert forall i :: 0 <= i < |e.out| ==> Closable(e.out[i], pending, e.now);
  }

  /** A finalize thread that ends, however far it came, leaves neither scratch nor
      temporary file of its own, and a clip exactly if it published one. */
  lemma ThreadLeavesNothing(s: World, e: Event, s': World)
    requires Inv(s) && e.JobEnd? && Step(s, e, s')
    ensures e.id in s.r.jobs && e.id !in s'.r.jobs && e.id !in s'.r.scratch
    ensures e.id in s'.clips <==> s.r.jobs[e.id].stage == Published
    ensures s.r.jobs[e.id].stage != Waiting ==> e.id !in s'.temps
    ensures forall id :: id != e.id ==> (id in s'.r.scratch <==> id in s.r.scratch) && (id in s'.temps <==> id in s.temps)
  {
    assert JobOk(s.r, ContextOf(s), e.id);
  }

  /** Whenever a runner is up its tracker's cap is 32. */
  lemma {:induction false} CapIs32(states: seq<World>, events: seq<Event>, n: nat)
    requires Path(states, events) && Initial(states[0]) && n < |states|
    ensures states[n].mode.Armed? || states[n].mode.Draining? ==> states[n].maxKeys == 32
  {
    if n > 0 {
      CapIs32(states, events, n - 1);
      assert Step(states[n - 1], events[n - 1], states[n]);
      hide Path, Observed, Ticked, ClosesLive, Handle, Drain;
    }
  }
}
