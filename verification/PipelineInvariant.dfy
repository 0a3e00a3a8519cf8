/** Every step of the worker keeps `Pipeline.Inv`. */
module PipelineInvariant {
  import opened Collections
  import opened VisitLifecycle
  import opened VisitRuntime
  import opened Recovery
  import opened Pipeline

  // ----------------------------------------- one transition of a batch

  /** A finalize of a pending visit, with a window that is not reversed. */
  predicate Closable(tr: Transition, pending: set<VisitId>, clock: real) {
    tr.Finalize? && tr.visitId in pending && tr.startTs <= tr.endTs <= clock
  }

  /** `r` with the visit `id` out of the table and in the hands of `job`. */
  function Closed(r: RunnerState, id: VisitId, job: Job, scratch: set<VisitId>, lastCopy: map<VisitId, Span>): RunnerState {
    r.(table := r.table - {id}, jobs := r.jobs[id := job], handed := r.handed + [id], scratch := scratch, lastCopy := lastCopy)
  }

  predicate SameButAt(m: map<VisitId, Span>, m': map<VisitId, Span>, id: VisitId) {
    m' - {id} == m - {id}
  }

  lemma OthersStayOk(r: RunnerState, c: Context, pending: set<VisitId>, id: VisitId, job: Job, scratch: set<VisitId>,
                     lastCopy: map<VisitId, Span>, i: VisitId)
    requires i in r.table && i != id && EntryOk(r, c, i, pending) && SameButAt(r.lastCopy, lastCopy, id)
    ensures EntryOk(Closed(r, id, job, scratch, lastCopy), c, i, pending - {id})
  {
    assert i in lastCopy <==> i in lastCopy - {id};
    assert i in r.lastCopy <==> i in r.lastCopy - {id};
  }

  lemma CoreClosed(r: RunnerState, c: Context, pending: set<VisitId>, late: set<Key>, id: VisitId, job: Job,
                   scratch: set<VisitId>, lastCopy: map<VisitId, Span>)
    requires Core(r, c, pending, late) && id in pending && SameButAt(r.lastCopy, lastCopy, id)
    requires job.stage.Waiting? && job.startTs <= job.endTs <= c.clock
    ensures Core(Closed(r, id, job, scratch, lastCopy), c, pending - {id}, late)
  {
    var r' := Closed(r, id, job, scratch, lastCopy);
    assert EntryOk(r, c, id, pending);
    forall i | i in r'.table ensures EntryOk(r', c, i, pending - {id}) {
      assert EntryOk(r, c, i, pending);
      OthersStayOk(r, c, pending, id, job, scratch, lastCopy, i);
    }
    forall k | Live(r'.visits, k) && k !in late ensures Agrees(r'.table, k, r'.visits[k]) {
      assert Agrees(r.table, k, r.visits[k]);
    }
    forall i | i in r'.jobs ensures JobOk(r', c, i) {
      if i != id { assert JobOk(r, c, i); }
    }
    forall i | i in lastCopy ensures i < c.nextId {
      if i != id { assert i in lastCopy - {id} && i in r.lastCopy; }
    }
  }

  /** Closing a pending visit: out of the table, into the finalize threads. */
  lemma CoreFinalize(r: RunnerState, c: Context, pending: set<VisitId>, late: set<Key>, tr: Transition, env: Env)
    requires Core(r, c, pending, late) && Closable(tr, pending, c.clock)
    ensures Core(DrainOne(r, tr, env), c, pending - {tr.visitId}, late)
  {
    var id, w := tr.visitId, CopyUnlessFull(r, tr.visitId, tr.startTs, tr.endTs, env);
    assert EntryOk(r, c, id, pending);
    assert SameButAt(r.lastCopy, w.lastCopy, id);
    CoreClosed(r, c, pending, late, id, Job(tr.startTs, tr.endTs, Waiting), w.scratch, w.lastCopy);
    hide Core;
    assert DrainOne(r, tr, env) == Closed(r, id, Job(tr.startTs, tr.endTs, Waiting), w.scratch, w.lastCopy);
  }

  lemma OnFinalizeIsDrainOne(r: RunnerState, tr: Transition, env: Env)
    requires tr.Finalize?
    ensures OnFinalize(r, tr, env) == DrainOne(r, tr, env).(durable := r.table - {tr.visitId})
  {
    var w := CopyUnlessFull(r, tr.visitId, tr.startTs, tr.endTs, env);
    assert w.table == r.table;
    hide CopyUnlessFull;
  }

  /** The batch state between two transitions. */
  ghost predicate Mid(r: RunnerState, c: Context, pending: set<VisitId>, late: set<Key>) {
    Core(r, c, pending, late) && DurableOk(r, c) && Synced(r) && Apart(r)
  }

  lemma TableIsDurableOk(r: RunnerState, c: Context, pending: set<VisitId>, late: set<Key>)
    requires Core(r, c, pending, late) && r.durable == r.table
    ensures Mid(r, c, pending, late)
  {
    forall id | id in r.table ensures EntryOk(r, c, id, pending) {}
  }

  lemma MidFinalize(r: RunnerState, c: Context, pending: set<VisitId>, late: set<Key>, tr: Transition, env: Env)
    requires Mid(r, c, pending, late) && Closable(tr, pending, c.clock)
    ensures Mid(OnFinalize(r, tr, env), c, pending - {tr.visitId}, late)
  {
    CoreFinalize(r, c, pending, late, tr, env);
    OnFinalizeIsDrainOne(r, tr, env);
    var d := DrainOne(r, tr, env);
    CoreIgnoresDurable(d, c, pending - {tr.visitId}, late, d.table);
    TableIsDurableOk(OnFinalize(r, tr, env), c, pending - {tr.visitId}, late);
  }

  lemma CoreIgnoresDurable(r: RunnerState, c: Context, pending: set<VisitId>, late: set<Key>, t: Table)
    requires Core(r, c, pending, late)
    ensures Core(r.(durable := t), c, pending, late)
  {
    var r' := r.(durable := t);
    forall id | id in r'.table ensures EntryOk(r', c, id, pending) { assert EntryOk(r, c, id, pending); }
    forall id | id in r'.jobs ensures JobOk(r', c, id) { assert JobOk(r, c, id); }
  }

  /** The ids a batch closes: distinct, and exactly `pending`. */
  ghost predicate ClosesIds(out: seq<Transition>, pending: set<VisitId>, clock: real) {
    && (forall i :: 0 <= i < |out| ==> Closable(out[i], pending, clock))
    && (forall i, j :: 0 <= i < j < |out| ==> out[i].visitId != out[j].visitId)
    && (forall id :: id in pending ==> exists i :: 0 <= i < |out| && out[i].visitId == id)
  }

  lemma ClosesRest(out: seq<Transition>, pending: set<VisitId>, clock: real)
    requires ClosesIds(out, pending, clock) && out != []
    ensures ClosesIds(out[1..], pending - {out[0].visitId}, clock)
  {
    forall id | id in pending - {out[0].visitId} ensures exists i :: 0 <= i < |out[1..]| && out[1..][i].visitId == id {
      var i :| 0 <= i < |out| && out[i].visitId == id;
      assert out[1..][i - 1].visitId == id;
    }
  }

  /** A batch of finalizes, of which the first `upto` are handled. */
  lemma {:induction false} MidFinalizes(
    r: RunnerState, c: Context, pending: set<VisitId>, late: set<Key>,
    out: seq<Transition>, upto: nat, now: real, absence: real, env: Env) returns (rest: set<VisitId>)
    requires Mid(r, c, pending, late) && ClosesIds(out, pending, c.clock) && upto <= |out|
    ensures Mid(Handle(r, out[..upto], now, absence, env), c, rest, late)
    ensures upto == |out| ==> rest == {}
    decreases |out|
  {
    if upto == 0 {
      rest := pending;
      if out == [] {
        assert forall id :: id in pending ==> false;
      }
    } else {
      assert Closable(out[0], pending, c.clock);
      ClosesRest(out, pending, c.clock);
      hide Mid, ClosesIds;
      MidFinalize(r, c, pending, late, out[0], env);
      assert out[..upto][1..] == out[1..][..upto - 1];
      rest := MidFinalizes(OnFinalize(r, out[0], env), c, pending - {out[0].visitId}, late, out[1..], upto - 1, now, absence, env);
    }
  }

  /** The tracker has just created the visit `tr` announces. */
  predicate OpensNow(v: Visits, key: Key, now: real, id: VisitId, tr: Transition) {
    && tr.Open? && tr.key == key && tr.visitId == id && tr.startTs <= now
    && key in v && v[key] == Present(id, now, now, tr.startTs, tr.segmentIndex)
  }

  /** A refused open takes the new visit out of the tracker again. */
  lemma CoreRefused(r: RunnerState, c: Context, key: Key, refused: nat)
    requires Core(r, c, {}, {key}) && key in r.visits && r.visits[key].Present? && r.visits[key].visitId == c.nextId
    ensures Core(r.(visits := r.visits - {key}, refused := refused), c.(nextId := c.nextId + 1), {}, {})
  {
    var r', c' := r.(visits := r.visits - {key}, refused := refused), c.(nextId := c.nextId + 1);
    forall id | id in r'.table ensures EntryOk(r', c', id, {}) { assert EntryOk(r, c, id, {}) && Owned(r, c, id, {}); }
    forall id | id in r'.jobs ensures JobOk(r', c', id) { assert JobOk(r, c, id); }
    forall k | Live(r'.visits, k) ensures Agrees(r'.table, k, r'.visits[k]) { assert Agrees(r.table, k, r.visits[k]); }
  }

  /** An accepted open enters the visit into the table. */
  lemma CoreOpened(r: RunnerState, c: Context, tr: Transition, now: real, e: Entry)
    requires Core(r, c, {}, {tr.key}) && tr.Open? && now == c.clock && c.nextId !in c.clips
    requires OpensNow(r.visits, tr.key, now, c.nextId, tr)
    requires e == Entry(OPEN, tr.key, tr.startTs, tr.startTs, now, tr.segmentIndex, e.absence, 0)
    ensures Core(r.(table := r.table[tr.visitId := e], posted := r.posted + {tr.visitId}), c.(nextId := c.nextId + 1), {}, {})
  {
    var r', c' := r.(table := r.table[tr.visitId := e], posted := r.posted + {tr.visitId}), c.(nextId := c.nextId + 1);
    forall id | id in r.jobs ensures JobOk(r, c, id) && id != tr.visitId {}
    forall id | id in r'.jobs ensures JobOk(r', c', id) { assert JobOk(r, c, id); }
    forall id | id in r'.table ensures EntryOk(r', c', id, {}) {
      if id in r.table { assert EntryOk(r, c, id, {}) && Owned(r, c, id, {}); }
    }
    forall k | Live(r'.visits, k) ensures Agrees(r'.table, k, r'.visits[k]) {
      if k != tr.key { assert Agrees(r.table, k, r.visits[k]); }
    }
  }

  /** Opening the visit the tracker has just created, or refusing it. */
  lemma MidOpen(r: RunnerState, c: Context, tr: Transition, now: real, absence: real, env: Env)
    requires Mid(r, c, {}, {tr.key}) && tr.Open? && now == c.clock && c.nextId !in c.clips
    requires OpensNow(r.visits, tr.key, now, c.nextId, tr)
    ensures Mid(OnOpen(r, tr, now, absence, env), c.(nextId := c.nextId + 1), {}, {})
  {
    var c' := c.(nextId := c.nextId + 1);
    if Below(env, tr.visitId) {
      CoreRefused(r, c, tr.key, r.refused + 1);
      hide Core;
    } else {
      var e := Entry(OPEN, tr.key, tr.startTs, tr.startTs, now, tr.segmentIndex, absence, 0);
      CoreOpened(r, c, tr, now, e);
      var r1 := r.(table := r.table[tr.visitId := e], posted := r.posted + {tr.visitId});
      hide Core;
      CoreIgnoresDurable(r1, c', {}, {}, r1.table);
      TableIsDurableOk(r1.(durable := r1.table), c', {}, {});
    }
  }

  /** Extending a visit the tracker has just seen again. */
  lemma MidExtend(r: RunnerState, c: Context, tr: Transition, now: real, absence: real, env: Env)
    requires Mid(r, c, {}, {tr.key}) && tr.Extend? && now == c.clock && tr.endTs == now
    requires Live(r.visits, tr.key) && r.visits[tr.key].visitId == tr.visitId && r.visits[tr.key].lastSeen == now
    requires tr.visitId in r.table && Agrees(r.table[tr.visitId := r.table[tr.visitId].(lastSeen := now)], tr.key, r.visits[tr.key])
    ensures Mid(OnExtend(r, tr, now, env), c, {}, {})
  {
    var r' := OnExtend(r, tr, now, env);
    forall id | id in r.table ensures EntryOk(r, c, id, {}) {}
    forall id | id in r'.jobs ensures JobOk(r', c, id) { assert JobOk(r, c, id); }
    forall id | id in r'.table ensures EntryOk(r', c, id, {}) { assert Owned(r, c, id, {}); }
    forall k | Live(r'.visits, k) ensures Agrees(r'.table, k, r'.visits[k]) {
      if k != tr.key { assert Agrees(r.table, k, r.visits[k]); }
    }
  }

  // ------------------------------------------------------------ whole batches

  /** What a crash leaves of any moment of a batch. */
  lemma CrashFromMid(r: RunnerState, c: Context, pending: set<VisitId>, late: set<Key>, nextId: VisitId)
    requires Mid(r, c, pending, late) && c.nextId <= nextId
    ensures Mid(WithoutMemory(r), c.(nextId := nextId), {}, {})
  {
  }

  /** A tick closes visits of the table, each at a deadline that has passed. */
  lemma TickCloses(r: RunnerState, c: Context, v: Visits, now: real, absence: real, out: seq<Transition>, i: nat)
    requires Core(r, c, {}, {}) && c.clock <= now && absence >= 0.0 && Ticked(r.visits, v, now, absence, out) && i < |out|
    ensures out[i].Finalize? && out[i].visitId in r.table && r.table[out[i].visitId].key == out[i].key
    ensures out[i].startTs <= out[i].endTs <= now
  {
    assert ClosesAtDeadline(r.visits, now, absence, out[i]);
    assert Agrees(r.table, out[i].key, r.visits[out[i].key]);
  }

  /** What a tick leaves of an entry: still owned, or about to be closed. */
  lemma TickEntry(r: RunnerState, c: Context, v: Visits, now: real, absence: real, out: seq<Transition>,
                  pending: set<VisitId>, id: VisitId)
    requires Core(r, c, {}, {}) && c.clock <= now && Ticked(r.visits, v, now, absence, out) && id in r.table
    requires forall i :: 0 <= i < |out| ==> out[i].visitId in pending
    ensures EntryOk(r.(visits := v), c.(clock := now), id, pending)
  {
    assert EntryOk(r, c, id, {});
    var k := r.table[id].key;
    if Live(r.visits, k) && r.visits[k].visitId == id && Expired(r.visits, k, now, absence) {
      assert Closes(out, k);
      var i :| 0 <= i < |out| && out[i].key == k;
      assert ClosesAtDeadline(r.visits, now, absence, out[i]);
    }
  }

  /** A visit that stays open is known, and none of those closed. */
  lemma TickLive(r: RunnerState, c: Context, v: Visits, now: real, absence: real, out: seq<Transition>, k: Key)
    requires Core(r, c, {}, {}) && c.clock <= now && Ticked(r.visits, v, now, absence, out) && Live(v, k)
    ensures Agrees(r.table, k, v[k]) && Timed(v[k], now) && forall i :: 0 <= i < |out| ==> out[i].visitId != v[k].visitId
  {
    assert Agrees(r.table, k, r.visits[k]);
    forall i | 0 <= i < |out| ensures out[i].visitId != v[k].visitId {
      assert ClosesAtDeadline(r.visits, now, absence, out[i]);
      assert Agrees(r.table, out[i].key, r.visits[out[i].key]);
    }
  }

  lemma TickMid(r: RunnerState, c: Context, v: Visits, now: real, absence: real, out: seq<Transition>)
    returns (pending: set<VisitId>)
    requires Mid(r, c, {}, {}) && c.clock <= now && absence >= 0.0 && Ticked(r.visits, v, now, absence, out)
    ensures Mid(r.(visits := v), c.(clock := now), pending, {}) && ClosesIds(out, pending, now)
  {
    pending := set i | 0 <= i < |out| :: out[i].visitId;
    var r', c' := r.(visits := v), c.(clock := now);
    forall i | 0 <= i < |out|
      ensures out[i].Finalize? && out[i].visitId in r.table && r.table[out[i].visitId].key == out[i].key
      ensures out[i].startTs <= out[i].endTs <= now
    {
      TickCloses(r, c, v, now, absence, out, i);
    }
    forall id | id in r'.table ensures EntryOk(r', c', id, pending) {
      TickEntry(r, c, v, now, absence, out, pending, id);
    }
    forall k | Live(v, k) ensures Agrees(r'.table, k, v[k]) && v[k].visitId !in pending && Timed(v[k], now) {
      TickLive(r, c, v, now, absence, out, k);
    }
    hide Ticked, EntryOk;
    forall id | id in r'.jobs ensures JobOk(r', c', id) { assert JobOk(r, c, id); }
  }

  function ObservePending(out: seq<Transition>): set<VisitId> {
    if out != [] && out[0].Finalize? then {out[0].visitId} else {}
  }

  lemma ObserveKeeps(v: Visits, v': Visits, k: Key, now: real, knobs: Knobs, id: VisitId, maxKeys: nat,
                     out: seq<Transition>, j: Key)
    requires Observed(v, v', k, now, knobs, id, maxKeys, out) && j != k
    ensures j in v' ==> j in v && v'[j] == v[j]
    ensures Live(v, j) ==> Live(v', j) || v[j].visitId in EvictedIds(v, v', k)
  {
    if j in v' {
      assert j in v' - {k} || j in v;
    }
  }

  function ObserveContext(c: Context, v: Visits, v': Visits, key: Key, now: real): Context {
    c.(clock := now, evicted := c.evicted + EvictedIds(v, v', key))
  }

  lemma ObserveLive(r: RunnerState, c: Context, v: Visits, key: Key, now: real, knobs: Knobs, maxKeys: nat,
                    out: seq<Transition>, k: Key)
    requires Core(r, c, {}, {}) && Observed(r.visits, v, key, now, knobs, c.nextId, maxKeys, out) && Live(v, k)
    requires c.clock <= now && knobs.preRoll >= 0.0 && knobs.maxVisit >= 0.0
    ensures (k != key ==> Agrees(r.table, k, v[k])) && v[k].visitId !in ObservePending(out) && Timed(v[k], now)
  {
    if Live(r.visits, key) {
      assert Agrees(r.table, key, r.visits[key]);
      assert EntryOk(r, c, r.visits[key].visitId, {});
    }
    if k != key {
      ObserveKeeps(r.visits, v, key, now, knobs, c.nextId, maxKeys, out, k);
      assert Agrees(r.table, k, r.visits[k]);
    }
  }

  lemma ObserveClosesKnown(r: RunnerState, c: Context, v: Visits, key: Key, now: real, knobs: Knobs, maxKeys: nat,
                           out: seq<Transition>)
    requires Core(r, c, {}, {}) && Observed(r.visits, v, key, now, knobs, c.nextId, maxKeys, out)
    ensures ObservePending(out) <= r.table.Keys
  {
    if Live(r.visits, key) { assert Agrees(r.table, key, r.visits[key]); }
  }

  lemma ObserveEntry(r: RunnerState, c: Context, v: Visits, key: Key, now: real, knobs: Knobs, maxKeys: nat,
                     out: seq<Transition>, id: VisitId)
    requires Core(r, c, {}, {}) && c.clock <= now && id in r.table
    requires Observed(r.visits, v, key, now, knobs, c.nextId, maxKeys, out)
    ensures EntryOk(r.(visits := v), ObserveContext(c, r.visits, v, key, now), id, ObservePending(out))
  {
    assert EntryOk(r, c, id, {}) && Owned(r, c, id, {});
    var k := r.table[id].key;
    if k != key { ObserveKeeps(r.visits, v, key, now, knobs, c.nextId, maxKeys, out, k); }
  }

  lemma ObserveMid(r: RunnerState, c: Context, v: Visits, key: Key, now: real, knobs: Knobs, maxKeys: nat,
                   out: seq<Transition>)
    requires Mid(r, c, {}, {}) && c.clock <= now && knobs.preRoll >= 0.0 && knobs.maxVisit >= 0.0
    requires Observed(r.visits, v, key, now, knobs, c.nextId, maxKeys, out)
    ensures Mid(r.(visits := v), ObserveContext(c, r.visits, v, key, now), ObservePending(out), {key})
  {
    hide Observed, EvictedIds;
    var r', c' := r.(visits := v), ObserveContext(c, r.visits, v, key, now);
    ObserveClosesKnown(r, c, v, key, now, knobs, maxKeys, out);
    forall k | Live(v, k)
      ensures (k != key ==> Agrees(r.table, k, v[k])) && v[k].visitId !in ObservePending(out) && Timed(v[k], now)
    {
      ObserveLive(r, c, v, key, now, knobs, maxKeys, out, k);
    }
    forall id | id in r'.table ensures EntryOk(r', c', id, ObservePending(out)) {
      ObserveEntry(r, c, v, key, now, knobs, maxKeys, out, id);
    }
    forall id | id in r'.jobs ensures JobOk(r', c', id) { assert JobOk(r, c, id); }
  }

  /** The tracker has just seen again the visit `tr` extends. */
  predicate ExtendsNow(v: Visits, t: Table, key: Key, now: real, tr: Transition) {
    && tr.Extend? && tr.key == key && tr.endTs == now
    && Live(v, key) && v[key].visitId == tr.visitId && v[key].lastSeen == now
    && tr.visitId in t && Agrees(t[tr.visitId := t[tr.visitId].(lastSeen := now)], key, v[key])
  }

  /** What an observe returns is one open or extend, or a finalize and an open. */
  predicate Announces(v: Visits, t: Table, key: Key, now: real, id: VisitId, out: seq<Transition>) {
    || (|out| == 1 && !out[0].Finalize?
        && (OpensNow(v, key, now, id, out[0]) || ExtendsNow(v, t, key, now, out[0])))
    || (|out| == 2 && Closable(out[0], ObservePending(out), now) && OpensNow(v, key, now, id, out[1]))
  }

  lemma SplitAnnounces(v0: Visits, v: Visits, t: Table, key: Key, now: real, maxVisit: real, id: VisitId, out: seq<Transition>)
    requires Live(v0, key) && Timed(v0[key], now) && maxVisit >= 0.0 && now - v0[key].startedAt >= maxVisit
    requires Splits(v0, v, key, now, maxVisit, id, out)
    ensures Announces(v, t, key, now, id, out)
  {
  }

  lemma ReopenAnnounces(v0: Visits, v: Visits, t: Table, key: Key, now: real, knobs: Knobs, id: VisitId, maxKeys: nat,
                        out: seq<Transition>)
    requires Live(v0, key) && Timed(v0[key], now) && Expired(v0, key, now, knobs.absence)
    requires knobs.preRoll >= 0.0 && knobs.absence >= 0.0
    requires Reopens(v0, v, key, now, knobs, id, maxKeys, out)
    ensures Announces(v, t, key, now, id, out)
  {
  }

  lemma ExtendAnnounces(v0: Visits, v: Visits, t: Table, key: Key, now: real, id: VisitId, out: seq<Transition>)
    requires Live(v0, key) && Agrees(t, key, v0[key]) && Extends(v0, v, key, now, out)
    ensures Announces(v, t, key, now, id, out)
  {
  }

  lemma StartAnnounces(v0: Visits, v: Visits, t: Table, key: Key, now: real, preRoll: real, id: VisitId, maxKeys: nat,
                       out: seq<Transition>)
    requires preRoll >= 0.0 && |out| == 1 && Starts(v0, v, key, now, preRoll, id, maxKeys, out[0])
    ensures Announces(v, t, key, now, id, out)
  {
  }

  /** What an observe returns has one of the two shapes. */
  lemma ObserveShape(r: RunnerState, c: Context, v: Visits, key: Key, now: real, knobs: Knobs, maxKeys: nat, out: seq<Transition>)
    requires Live(r.visits, key) ==> Agrees(r.table, key, r.visits[key]) && Timed(r.visits[key], now)
    requires Observed(r.visits, v, key, now, knobs, c.nextId, maxKeys, out)
    requires knobs.preRoll >= 0.0 && knobs.maxVisit >= 0.0 && knobs.absence >= 0.0
    ensures Announces(v, r.table, key, now, c.nextId, out)
  {
    hide Announces, Starts, Splits, Reopens, Extends;
    if !Live(r.visits, key) {
      StartAnnounces(r.visits, v, r.table, key, now, knobs.preRoll, c.nextId, maxKeys, out);
    } else if now - r.visits[key].startedAt >= knobs.maxVisit {
      SplitAnnounces(r.visits, v, r.table, key, now, knobs.maxVisit, c.nextId, out);
    } else if Expired(r.visits, key, now, knobs.absence) {
      ReopenAnnounces(r.visits, v, r.table, key, now, knobs, c.nextId, maxKeys, out);
    } else {
      ExtendAnnounces(r.visits, v, r.table, key, now, c.nextId, out);
    }
  }

  lemma HandleOne(r: RunnerState, tr: Transition, now: real, absence: real, env: Env)
    ensures Handle(r, [tr], now, absence, env) == Apply(r, tr, now, absence, env)
  {
  }

  lemma HandleTwo(r: RunnerState, tr0: Transition, tr1: Transition, now: real, absence: real, env: Env)
    ensures Handle(r, [tr0, tr1], now, absence, env)
         == Apply(Apply(r, tr0, now, absence, env), tr1, now, absence, env)
  {
    assert [tr0, tr1][1..] == [tr1];
    HandleOne(Apply(r, tr0, now, absence, env), tr1, now, absence, env);
  }

  /** A single open or extend. */
  lemma MidSingle(r: RunnerState, c: Context, key: Key, now: real, absence: real, tr: Transition, env: Env)
    requires Mid(r, c, {}, {key}) && c.clock == now && c.nextId !in c.clips
    requires OpensNow(r.visits, key, now, c.nextId, tr) || ExtendsNow(r.visits, r.table, key, now, tr)
    ensures Mid(Handle(r, [tr], now, absence, env), c.(nextId := c.nextId + Opens([tr])), {}, {})
  {
    HandleOne(r, tr, now, absence, env);
    if tr.Open? {
      MidOpen(r, c, tr, now, absence, env);
    } else {
      MidExtend(r, c, tr, now, absence, env);
      assert c.(nextId := c.nextId + 0) == c;
    }
  }

  /** A finalize followed by an open: between the two. */
  lemma MidFirst(r: RunnerState, c: Context, key: Key, now: real, absence: real, fin: Transition, env: Env)
    requires Mid(r, c, {fin.visitId}, {key}) && Closable(fin, {fin.visitId}, c.clock)
    ensures Handle(r, [fin], now, absence, env) == OnFinalize(r, fin, env)
    ensures Mid(OnFinalize(r, fin, env), c, {}, {key})
  {
    HandleOne(r, fin, now, absence, env);
    MidFinalize(r, c, {fin.visitId}, {key}, fin, env);
    assert {fin.visitId} - {fin.visitId} == {};
  }

  /** A finalize followed by an open: after both. */
  lemma MidPair(r: RunnerState, c: Context, key: Key, now: real, absence: real, fin: Transition, tr: Transition, env: Env)
    requires Mid(r, c, {fin.visitId}, {key}) && Closable(fin, {fin.visitId}, c.clock)
    requires c.clock == now && c.nextId !in c.clips
    requires OpensNow(r.visits, key, now, c.nextId, tr)
    ensures Mid(Handle(r, [fin, tr], now, absence, env), c.(nextId := c.nextId + 1), {}, {})
  {
    MidFirst(r, c, key, now, absence, fin, env);
    HandleTwo(r, fin, tr, now, absence, env);
    MidOpen(OnFinalize(r, fin, env), c, tr, now, absence, env);
  }

  /** A batch was handled to its end, or a crash follows. */
  ghost predicate MidAfter(r: RunnerState, c: Context, whole: bool) {
    (whole ==> Mid(r, c, {}, {})) && Mid(WithoutMemory(r), c, {}, {})
  }

  /** A batch whose first part is handled before a crash, or all of it. */
  lemma MidBatch(r: RunnerState, c: Context, key: Key, now: real, absence: real, out: seq<Transition>, upto: nat, env: Env)
    requires Mid(r, c, ObservePending(out), {key}) && c.clock == now && c.nextId !in c.clips && upto <= |out|
    requires Announces(r.visits, r.table, key, now, c.nextId, out)
    ensures MidAfter(Handle(r, out[..upto], now, absence, env), c.(nextId := c.nextId + Opens(out)), upto == |out|)
  {
    hide Mid;
    var c' := c.(nextId := c.nextId + Opens(out));
    if upto == 0 {
      assert out[..upto] == [];
      CrashFromMid(r, c, ObservePending(out), {key}, c'.nextId);
    } else if |out| == 1 {
      assert out[..upto] == [out[0]];
      MidSingle(r, c, key, now, absence, out[0], env);
      CrashFromMid(Handle(r, out[..upto], now, absence, env), c', {}, {}, c'.nextId);
    } else if upto == 1 {
      assert out[..upto] == [out[0]];
      MidFirst(r, c, key, now, absence, out[0], env);
      CrashFromMid(OnFinalize(r, out[0], env), c, {}, {key}, c'.nextId);
    } else {
      assert out[..upto] == [out[0], out[1]];
      MidPair(r, c, key, now, absence, out[0], out[1], env);
      CrashFromMid(Handle(r, out[..upto], now, absence, env), c', {}, {}, c'.nextId);
    }
  }

  // ------------------------------------------------------------------ steps

  lemma TickKeepsInv(s: World, e: Event, s': World)
    requires Inv(s) && e.Tick? && StepTick(s, e, s')
    ensures Inv(s')
  {
    var v, c := e.visits, ContextOf(s).(clock := e.now);
    var pending := TickMid(s.r, ContextOf(s), v, e.now, e.absence, e.out);
    var rest := MidFinalizes(s.r.(visits := v), c, pending, {}, e.out, e.upto, e.now, e.absence, e.env);
    FinalizesKeepVisits(s.r.(visits := v), e.out[..e.upto], e.now, e.absence, e.env);
    var r' := Handle(s.r.(visits := v), e.out[..e.upto], e.now, e.absence, e.env);
    if e.upto < |e.out| {
      CrashFromMid(r', c, rest, {}, c.nextId);
    } else {
      assert v.Keys == s.r.visits.Keys;
      assert |v| == |v.Keys|;
    }
  }

  lemma {:induction false} FinalizesKeepVisits(r: RunnerState, out: seq<Transition>, now: real, absence: real, env: Env)
    requires forall i :: 0 <= i < |out| ==> out[i].Finalize?
    ensures Handle(r, out, now, absence, env).visits == r.visits
    decreases |out|
  {
    if out != [] { FinalizesKeepVisits(OnFinalize(r, out[0], env), out[1..], now, absence, env); }
  }

  lemma {:induction false} HandleShrinks(r: RunnerState, out: seq<Transition>, now: real, absence: real, env: Env)
    ensures Handle(r, out, now, absence, env).visits.Keys <= r.visits.Keys
    decreases |out|
  {
    if out != [] {
      var r1 := Apply(r, out[0], now, absence, env);
      assert r1.visits.Keys <= r.visits.Keys;
      HandleShrinks(r1, out[1..], now, absence, env);
    }
  }

  /** The tracker never holds more than `maxKeys` records. */
  lemma ObserveSize(v: Visits, v': Visits, key: Key, now: real, knobs: Knobs, id: VisitId, maxKeys: nat, out: seq<Transition>)
    requires Observed(v, v', key, now, knobs, id, maxKeys, out) && |v| <= maxKeys && maxKeys >= 1
    ensures |v'| <= maxKeys
  {
    if out[0].Extend? || (Live(v, key) && now - v[key].startedAt >= knobs.maxVisit) {
      assert v'.Keys == v.Keys;
      assert |v'| == |v'.Keys| && |v| == |v.Keys|;
    } else {
      var pruned := v' - {key};
      assert |pruned| < maxKeys;
      assert pruned.Keys == v'.Keys - {key};
      assert |v'| == |v'.Keys| == |pruned.Keys| + 1 && |pruned| == |pruned.Keys|;
    }
  }

  lemma LiveAgrees(r: RunnerState, c: Context, key: Key)
    requires Core(r, c, {}, {}) && Live(r.visits, key)
    ensures Agrees(r.table, key, r.visits[key]) && Timed(r.visits[key], c.clock)
  {
  }

  lemma ObserveFacts(r: RunnerState, c: Context, v: Visits, key: Key, now: real, knobs: Knobs, maxKeys: nat,
                     out: seq<Transition>, upto: nat, env: Env)
    requires Mid(r, c, {}, {}) && c.clock <= now && c.nextId !in c.clips && upto <= |out|
    requires Observed(r.visits, v, key, now, knobs, c.nextId, maxKeys, out)
    requires knobs.preRoll >= 0.0 && knobs.maxVisit >= 0.0 && knobs.absence >= 0.0
    ensures MidAfter(Handle(r.(visits := v), out[..upto], now, knobs.absence, env),
                     ObserveContext(c, r.visits, v, key, now).(nextId := c.nextId + Opens(out)), upto == |out|)
  {
    hide Observed, Core;
    if Live(r.visits, key) { LiveAgrees(r, c, key); }
    ObserveShape(r, c, v, key, now, knobs, maxKeys, out);
    ObserveMid(r, c, v, key, now, knobs, maxKeys, out);
    MidBatch(r.(visits := v), ObserveContext(c, r.visits, v, key, now), key, now, knobs.absence, out, upto, env);
  }

  lemma HandledSize(r: RunnerState, out: seq<Transition>, now: real, absence: real, env: Env)
    ensures |Handle(r, out, now, absence, env).visits| <= |r.visits|
  {
    var r1 := Handle(r, out, now, absence, env);
    HandleShrinks(r, out, now, absence, env);
    SubsetSize(r1.visits.Keys, r.visits.Keys);
    assert |r1.visits| == |r1.visits.Keys| && |r.visits| == |r.visits.Keys|;
  }

  lemma ObserveAssembles(s: World, e: Event)
    requires Inv(s) && e.Observe? && e.upto <= |e.out| && s.mode.Armed? && s.clock <= e.now
    requires var r1 := Handle(s.r.(visits := e.visits), e.out[..e.upto], e.now, e.knobs.absence, e.env);
             var c1 := ObserveContext(ContextOf(s), s.r.visits, e.visits, e.key, e.now).(nextId := s.nextId + Opens(e.out));
             && MidAfter(r1, c1, e.upto == |e.out|)
             && |r1.visits| <= s.maxKeys
    ensures Inv(AfterObserve(s, e))
  {
    hide Core, DurableOk;
  }

  lemma ObserveKeepsInv(s: World, e: Event, s': World)
    requires Inv(s) && e.Observe? && StepObserve(s, e, s')
    ensures Inv(s')
  {
    hide Observed, Core, DurableOk;
    ObserveFacts(s.r, ContextOf(s), e.visits, e.key, e.now, e.knobs, s.maxKeys, e.out, e.upto, e.env);
    ObserveSize(s.r.visits, e.visits, e.key, e.now, e.knobs, s.nextId, s.maxKeys, e.out);
    HandledSize(s.r.(visits := e.visits), e.out[..e.upto], e.now, e.knobs.absence, e.env);
    ObserveAssembles(s, e);
  }

  // ------------------------------------------------------------- the drain

  /** The finalizes of a drain continue the copies of their visits. */
  ghost predicate ContinuesCopies(r: RunnerState, out: seq<Transition>, pending: set<VisitId>) {
    && (forall id :: id in pending && id in r.durable ==> id in r.table && r.durable[id] == r.table[id])
    && (forall i :: 0 <= i < |out| ==>
          var id := out[i].visitId;
          out[i].Finalize? && id in r.table && r.table[id].startTs == out[i].startTs && r.table[id].lastExtend <= out[i].endTs)
  }

  lemma DrainPending(r: RunnerState, c: Context, now: real, out: seq<Transition>) returns (pending: set<VisitId>)
    requires Core(r, c, {}, {}) && Synced(r) && c.clock <= now && ClosesLive(r.visits, r.visits.Keys, now, out)
    ensures Core(r.(visits := map[]), c.(clock := now), pending, {}) && ClosesIds(out, pending, now)
    ensures ContinuesCopies(r, out, pending)
  {
    pending := set i | 0 <= i < |out| :: out[i].visitId;
    var r', c' := r.(visits := map[]), c.(clock := now);
    forall i | 0 <= i < |out|
      ensures out[i].Finalize? && out[i].visitId in r.table && r.table[out[i].visitId].key == out[i].key
      ensures out[i].startTs <= out[i].endTs <= now
      ensures r.table[out[i].visitId].startTs == out[i].startTs && r.table[out[i].visitId].lastExtend <= out[i].endTs
    {
      assert ClosesAtLastSeen(r.visits, now, out[i]);
      assert Agrees(r.table, out[i].key, r.visits[out[i].key]);
      assert EntryOk(r, c, out[i].visitId, {});
    }
    forall id | id in r'.table ensures EntryOk(r', c', id, pending) {
      assert EntryOk(r, c, id, {});
      var k := r.table[id].key;
      if Live(r.visits, k) && r.visits[k].visitId == id {
        assert Closes(out, k);
        var i :| 0 <= i < |out| && out[i].key == k;
        assert ClosesAtLastSeen(r.visits, now, out[i]);
        assert out[i].visitId in pending;
      }
    }
    forall id | id in r'.jobs ensures JobOk(r', c', id) { assert JobOk(r, c, id); }
  }

  /** The copy before a drained finalize keeps the file's claims covered. */
  lemma DrainOneDurable(r: RunnerState, c: Context, tr: Transition, env: Env)
    requires DurableOk(r, c) && tr.Finalize?
    requires tr.visitId in r.durable ==>
               r.durable[tr.visitId].startTs == tr.startTs && r.durable[tr.visitId].lastExtend <= tr.endTs
    ensures DurableOk(DrainOne(r, tr, env), c)
  {
  }

  /** The finalizes after the first one still continue their copies. */
  lemma DrainOneContinues(r: RunnerState, pending: set<VisitId>, out: seq<Transition>, env: Env)
    requires out != [] && ContinuesCopies(r, out, pending) && out[0].visitId in pending
    requires forall i :: 1 <= i < |out| ==> out[i].visitId != out[0].visitId
    ensures ContinuesCopies(DrainOne(r, out[0], env), out[1..], pending - {out[0].visitId})
  {
  }

  lemma {:induction false} CoreDrain(r: RunnerState, c: Context, pending: set<VisitId>, out: seq<Transition>, env: Env)
    requires Core(r, c, pending, {}) && DurableOk(r, c) && ClosesIds(out, pending, c.clock) && ContinuesCopies(r, out, pending)
    ensures Core(Drain(r, out, env), c, {}, {}) && DurableOk(Drain(r, out, env), c)
    decreases |out|
  {
    if out == [] {
      assert forall id :: id in pending ==> false;
      assert pending == {};
    } else {
      assert Closable(out[0], pending, c.clock);
      DrainOneContinues(r, pending, out, env);
      DrainOneDurable(r, c, out[0], env);
      hide Core, DurableOk, ContinuesCopies;
      CoreFinalize(r, c, pending, {}, out[0], env);
      ClosesRest(out, pending, c.clock);
      hide ClosesIds, DrainOne;
      CoreDrain(DrainOne(r, out[0], env), c, pending - {out[0].visitId}, out[1..], env);
    }
  }

  lemma {:induction false} DrainOnlyCloses(r: RunnerState, out: seq<Transition>, env: Env)
    requires forall i :: 0 <= i < |out| ==> out[i].Finalize?
    ensures var r' := Drain(r, out, env);
            r'.durable == r.durable && r'.visits == r.visits
            && forall id :: id in r'.table ==> id in r.table && r'.table[id] == r.table[id]
    decreases |out|
  {
    if out != [] { DrainOnlyCloses(DrainOne(r, out[0], env), out[1..], env); }
  }

  lemma {:induction false} DrainIgnoresVisits(r: RunnerState, v: Visits, out: seq<Transition>, env: Env)
    requires forall i :: 0 <= i < |out| ==> out[i].Finalize?
    ensures Drain(r.(visits := v), out, env) == Drain(r, out, env).(visits := v)
    decreases |out|
  {
    if out != [] {
      DrainIgnoresVisits(DrainOne(r, out[0], env), v, out[1..], env);
      assert DrainOne(r.(visits := v), out[0], env) == DrainOne(r, out[0], env).(visits := v);
    }
  }

  /** What a drain of a synced runner leaves in memory and on disk. */
  lemma DrainFacts(r: RunnerState, c: Context, now: real, out: seq<Transition>, env: Env)
    requires Core(r, c, {}, {}) && DurableOk(r, c) && Synced(r) && c.clock <= now
    requires ClosesLive(r.visits, r.visits.Keys, now, out)
    ensures forall i :: 0 <= i < |out| ==> out[i].Finalize?
    ensures var r' := Drain(r, out, env).(visits := map[]);
            && Core(r', c.(clock := now), {}, {}) && DurableOk(r', c.(clock := now))
            && forall id :: id in r'.table ==> id in r'.durable && r'.durable[id] == r'.table[id]
  {
    var pending := DrainPending(r, c, now, out);
    var r0, c' := r.(visits := map[]), c.(clock := now);
    assert DurableOk(r0, c');
    assert forall i :: 0 <= i < |out| ==> Closable(out[i], pending, now);
    hide Core, ClosesLive, ContinuesCopies, ClosesIds, DurableOk, Drain;
    CoreDrain(r0, c', pending, out, env);
    DrainOnlyCloses(r0, out, env);
    DrainIgnoresVisits(r, map[], out, env);
  }

  lemma DrainStartKeepsInv(s: World, e: Event, s': World)
    requires Inv(s) && e.DrainStart? && StepDrain(s, e, s')
    ensures Inv(s')
  {
    hide Core, DurableOk, ClosesLive, Drain;
    DrainFacts(s.r, ContextOf(s), e.now, e.out, e.env);
  }

  lemma DrainEndKeepsInv(s: World, s': World)
    requires Inv(s) && StepDrain(s, DrainEnd, s')
    ensures Inv(s')
  {
    var c := ContextOf(s);
    CoreIgnoresDurable(s.r, c, {}, {}, s.r.table);
    TableIsDurableOk(s'.r, c, {}, {});
    hide Core;
  }

  lemma DisarmKeepsInv(s: World, s': World)
    requires Inv(s) && StepDrain(s, Disarm, s')
    ensures Inv(s')
  {
    var c := ContextOf(s);
    forall id | id in s'.r.jobs ensures JobOk(s'.r, c, id) { assert JobOk(s.r, c, id); }
  }

  // ------------------------------------------- finalize threads and recovery

  lemma JobKeepsCore(s: World, e: Event, s': World)
    requires Core(s.r, ContextOf(s), {}, {}) && (e.JobConcat? || e.JobPublish? || e.JobEnd?) && StepJob(s, e, s')
    ensures Core(s'.r, ContextOf(s'), {}, {})
    ensures e.id in s.r.handed && (e.JobPublish? ==> e.id !in s.clips)
  {
    var c, c' := ContextOf(s), ContextOf(s');
    assert JobOk(s.r, c, e.id);
    forall id | id in s'.r.jobs ensures JobOk(s'.r, c', id) { assert JobOk(s.r, c, id); }
    forall id | id in s'.r.table ensures EntryOk(s'.r, c', id, {}) {
      assert EntryOk(s.r, c, id, {}) && Owned(s.r, c, id, {});
    }
    forall k | Live(s'.r.visits, k) ensures Agrees(s'.r.table, k, s'.r.visits[k]) {
      assert Agrees(s.r.table, k, s.r.visits[k]);
    }
  }

  lemma JobKeepsInv(s: World, e: Event, s': World)
    requires Inv(s) && (e.JobConcat? || e.JobPublish? || e.JobEnd?) && StepJob(s, e, s')
    ensures Inv(s')
    ensures e.JobPublish? ==> e.id !in s.clips
  {
    JobKeepsCore(s, e, s');
  }

  lemma SkipKeepsInv(s: World, s': World)
    requires Inv(s) && StepTake(s, RecoverSkip, s')
    ensures Inv(s')
  {
    CoreIgnoresDurable(s.r, ContextOf(s), {}, {}, s'.r.durable);
    hide Core;
  }

  lemma MarkKeepsInv(s: World, s': World)
    requires Inv(s) && StepTake(s, RecoverMark, s')
    ensures Inv(s')
  {
    CoreIgnoresDurable(s.r, ContextOf(s), {}, {}, s'.r.durable);
    hide Core;
  }

  lemma AttemptKeepsInv(s: World, e: Event, s': World)
    requires Inv(s) && IsAttempt(e) && StepAttempt(s, e, s')
    ensures Inv(s')
    ensures e.RecoverPublish? ==> (s.mode.current.visitId in s.clips <==> s.mode.current.rejected)
  {
    var c, c' := ContextOf(s), ContextOf(s');
    forall id | id in s'.r.jobs ensures JobOk(s'.r, c', id) { assert JobOk(s.r, c, id); }
  }

  lemma BootKeepsInv(s: World, e: Event, s': World)
    requires Inv(s) && (e.Boot? || e.Arm?) && StepBoot(s, e, s')
    ensures Inv(s')
  {
    var c, c' := ContextOf(s), ContextOf(s');
    forall id | id in s'.r.jobs ensures JobOk(s'.r, c', id) { assert JobOk(s.r, c, id); }
  }

  lemma CrashKeepsInv(s: World)
    requires Inv(s)
    ensures Inv(AfterCrash(s))
  {
  }

  lemma StepKeepsInv(s: World, e: Event, s': World)
    requires Inv(s) && Step(s, e, s')
    ensures Inv(s')
  {
    hide Inv;
    match e
    case Tick(_, _, _, _, _, _) => TickKeepsInv(s, e, s');
    case Observe(_, _, _, _, _, _, _) => ObserveKeepsInv(s, e, s');
    case DrainStart(_, _, _) => DrainStartKeepsInv(s, e, s');
    case DrainEnd => DrainEndKeepsInv(s, s');
    case Disarm => DisarmKeepsInv(s, s');
    case JobConcat(_) => JobKeepsInv(s, e, s');
    case JobPublish(_) => JobKeepsInv(s, e, s');
    case JobEnd(_) => JobKeepsInv(s, e, s');
    case Crash => CrashKeepsInv(s);
    case Boot(_, _) => BootKeepsInv(s, e, s');
    case Arm => BootKeepsInv(s, e, s');
    case RecoverSkip => SkipKeepsInv(s, s');
    case RecoverMark => MarkKeepsInv(s, s');
    case RecoverConcat => AttemptKeepsInv(s, e, s');
    case RecoverPublish => AttemptKeepsInv(s, e, s');
    case RecoverReap => AttemptKeepsInv(s, e, s');
    case RecoverReturn => AttemptKeepsInv(s, e, s');
  }

  lemma {:induction false} InvOnEveryPath(states: seq<World>, events: seq<Event>, n: nat)
    requires Path(states, events) && Inv(states[0]) && n < |states|
    ensures Inv(states[n])
  {
    if n > 0 {
      var i := n - 1;
      InvOnEveryPath(states, events, i);
      assert Step(states[i], events[i], states[i + 1]);
      StepKeepsInv(states[i], events[i], states[n]);
    }
  }

  lemma InvOnEveryRun(states: seq<World>, events: seq<Event>, n: nat)
    requires Path(states, events) && Initial(states[0]) && n < |states|
    ensures Inv(states[n])
  {
    InvOnEveryPath(states, events, n);
  }

  lemma StepOfRun(states: seq<World>, events: seq<Event>, n: nat)
    requires Path(states, events) && Initial(states[0]) && n < |events|
    ensures |states| == |events| + 1 && Inv(states[0])
    ensures Inv(states[n]) && Step(states[n], events[n], states[n + 1]) && Inv(states[n + 1])
  {
    InvOnEveryRun(states, events, 0);
    InvOnEveryRun(states, events, n);
    InvOnEveryRun(states, events, n + 1);
    assert Step(states[n], events[n], states[n + 1]);
  }
}
