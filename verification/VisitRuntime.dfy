/** The runner that turns tracker transitions into a durable table of open
    visits, scratch copies and background finalizes.

    The functions on `RunnerState` say what each handler does to memory and disk; the
    class `VisitRunner` is proved against them. */
module VisitRuntime {
  import opened VisitLifecycle

  const WORKER_MIN_FREE_BYTES: nat := 450 * 1024 * 1024
  const DEFAULT_MAX_KEYS: nat := 32

  datatype EntryState = OPEN | FINALIZING

  /** One record of `.open_visits.json`. */
  datatype Entry = Entry(
    state: EntryState, key: Key, startTs: real, lastExtend: real, lastSeen: real,
    segmentIndex: nat, absence: real, attempts: nat)

  type Table = map<VisitId, Entry>

  datatype Stage = Waiting | Concatenated | Published

  /** A finalize thread: its window and how far it has come. */
  datatype Job = Job(startTs: real, endTs: real, stage: Stage)

  /** What the runner reads from outside while it handles one batch: the free
      bytes seen before touching each visit (no reading means the stat failed),
      the visits whose copy call leaves at least one whole segment in scratch, and
      those for which it can at least make the directory. */
  datatype Env = Env(
    free: map<VisitId, nat>, copied: set<VisitId>, made: set<VisitId>, minFree: nat := WORKER_MIN_FREE_BYTES)

  predicate Below(env: Env, id: VisitId) {
    id in env.free && env.free[id] < env.minFree
  }

  /** The band of a copy call. */
  datatype Span = Span(startTs: real, untilTs: real)

  /** Memory (visits, table, jobs), disk (durable, and in `scratch` the visits with
      at least one whole segment in their scratch directory) and the record of
      effects (opens posted, ids handed to finalize, opens refused, the last copy
      call made for each visit). */
  datatype RunnerState = RunnerState(
    visits: Visits, table: Table, durable: Table, scratch: set<VisitId>,
    jobs: map<VisitId, Job>, handed: seq<VisitId>, posted: set<VisitId>, refused: nat,
    lastCopy: map<VisitId, Span>)

  function OnOpen(w: RunnerState, tr: Transition, now: real, absence: real, env: Env): RunnerState
    requires tr.Open?
  {
    if Below(env, tr.visitId) then
      w.(visits := w.visits - {tr.key}, refused := w.refused + 1)
    else
      var table := w.table[tr.visitId := Entry(OPEN, tr.key, tr.startTs, tr.startTs, now, tr.segmentIndex, absence, 0)];
      w.(table := table, durable := table, posted := w.posted + {tr.visitId})
  }

  /** Copy segments into the scratch of `id`, unless the disk is too full. */
  function CopyUnlessFull(w: RunnerState, id: VisitId, startTs: real, untilTs: real, env: Env): RunnerState {
    if Below(env, id) then w
    else w.(scratch := w.scratch + (env.copied * {id}), lastCopy := w.lastCopy[id := Span(startTs, untilTs)])
  }

  function OnExtend(w: RunnerState, tr: Transition, now: real, env: Env): RunnerState
    requires tr.Extend?
  {
    if tr.visitId !in w.table then w
    else
      var e := w.table[tr.visitId];
      var table := w.table[tr.visitId := e.(lastSeen := now, lastExtend := if Below(env, tr.visitId) then e.lastExtend else tr.endTs)];
      CopyUnlessFull(w, tr.visitId, e.startTs, tr.endTs, env).(table := table, durable := table)
  }

  function Spawn(w: RunnerState, id: VisitId, startTs: real, endTs: real): RunnerState {
    if id in w.jobs then w
    else w.(jobs := w.jobs[id := Job(startTs, endTs, Waiting)], handed := w.handed + [id])
  }

  function OnFinalize(w: RunnerState, tr: Transition, env: Env): RunnerState
    requires tr.Finalize?
  {
    var w1 := CopyUnlessFull(w, tr.visitId, tr.startTs, tr.endTs, env);
    var table := w1.table - {tr.visitId};
    Spawn(w1.(table := table, durable := table), tr.visitId, tr.startTs, tr.endTs)
  }

  function Apply(w: RunnerState, tr: Transition, now: real, absence: real, env: Env): RunnerState {
    match tr
    case Open(_, _, _, _) => OnOpen(w, tr, now, absence, env)
    case Extend(_, _, _) => OnExtend(w, tr, now, env)
    case Finalize(_, _, _, _, _) => OnFinalize(w, tr, env)
  }

  /** The transitions of one call, handled in order. */
  function Handle(w: RunnerState, out: seq<Transition>, now: real, absence: real, env: Env): RunnerState
    decreases |out|
  {
    if out == [] then w
    else Handle(Apply(w, out[0], now, absence, env), out[1..], now, absence, env)
  }

  // ------------------------------------------------------ escalation drain

  /** `out` closes every live visit, each once, at its last sighting. */
  ghost predicate ClosesLive(v: Visits, done: set<Key>, now: real, out: seq<Transition>) {
    && (forall i :: 0 <= i < |out| ==> out[i].key in done && ClosesAtLastSeen(v, now, out[i]))
    && (forall i, j :: 0 <= i < j < |out| ==> out[i].key != out[j].key)
    && (forall k :: k in done && Live(v, k) ==> Closes(out, k))
  }

  predicate ClosesAtLastSeen(v: Visits, now: real, tr: Transition) {
    && Live(v, tr.key)
    && tr == Closing(tr.key, v[tr.key], if v[tr.key].lastSeen <= now then v[tr.key].lastSeen else now)
  }

  /** Unlike `OnFinalize` this does not persist: the drain does so at its end. */
  function DrainOne(w: RunnerState, tr: Transition, env: Env): RunnerState
    requires tr.Finalize?
  {
    var w1 := CopyUnlessFull(w, tr.visitId, tr.startTs, tr.endTs, env);
    Spawn(w1.(table := w1.table - {tr.visitId}), tr.visitId, tr.startTs, tr.endTs)
  }

  function Drain(w: RunnerState, out: seq<Transition>, env: Env): RunnerState
    requires forall i :: 0 <= i < |out| ==> out[i].Finalize?
    decreases |out|
  {
    if out == [] then w else Drain(DrainOne(w, out[0], env), out[1..], env)
  }

  /** A fresh tracker, and the drained table on disk. */
  function EndDrain(w: RunnerState): RunnerState {
    w.(visits := map[], durable := w.table)
  }

  // ------------------------------------------------------------ the objects

  datatype Probe = Valid | Invalid | Raises

  /** A published file and what the structural probe says about it. */
  datatype Clip = Clip(bytes: nat, probe: Probe)

  /** The recordings directory.  The visits with a scratch directory are those in
      `scratch`, where a copy has succeeded, and those in `emptyDirs`, where none
      has.  Ring slots live beside it and are read only. */
  class Store {
    var durable: Table
    var scratch: set<VisitId>
    var emptyDirs: set<VisitId>
    var clips: map<VisitId, Clip>
    var temps: set<VisitId>
    var ring: set<nat>

    constructor ()
      ensures durable == map[] && scratch == {} && emptyDirs == {} && clips == map[] && temps == {} && ring == {}
    {
      durable, scratch, emptyDirs, clips, temps, ring := map[], {}, {}, map[], {}, {};
    }
  }

  class VisitRunner {
    const store: Store
    var tracker: VisitTracker
    var open: Table
    var jobs: map<VisitId, Job>
    var lastAbsence: real
    var visitsFinalized: nat
    var clipsDroppedDiskFloor: nat
    ghost var handed: seq<VisitId>
    ghost var posted: set<VisitId>
    ghost var lastCopy: map<VisitId, Span>

    ghost predicate Ready()
      reads this, tracker
    {
      tracker.maxKeys >= 1 && visitsFinalized == |handed|
    }

    ghost function View(): RunnerState
      reads this, tracker, store
    {
      RunnerState(tracker.visits, open, store.durable, store.scratch, jobs, handed, posted, clipsDroppedDiskFloor, lastCopy)
    }

    /** A new runner starts with an empty table and does not touch the disk. */
    constructor (store: Store, tracker: VisitTracker)
      requires tracker.maxKeys >= 1 && tracker.visits == map[]
      ensures Ready() && this.store == store && this.tracker == tracker
      ensures View() == RunnerState(map[], map[], store.durable, store.scratch, map[], [], {}, 0, map[]) && lastAbsence == 30.0
    {
      this.store, this.tracker := store, tracker;
      open, jobs, lastAbsence := map[], map[], 30.0;
      visitsFinalized, clipsDroppedDiskFloor := 0, 0;
      handed, posted, lastCopy := [], {}, map[];
    }

    method SetAbsenceFinalizeS(value: real)
      modifies this`lastAbsence
      ensures lastAbsence == if value > 0.0 then value else old(lastAbsence)
    {
      if value > 0.0 { lastAbsence := value; }
    }

    method Tick(now: real, absence: real, env: Env) returns (ghost out: seq<Transition>)
      requires Ready()
      modifies this, tracker, store`durable, store`scratch, store`emptyDirs
      ensures Ready() && tracker == old(tracker) && lastAbsence == old(lastAbsence)
      ensures exists v :: Ticked(old(tracker.visits), v, now, absence, out)
                       && View() == Handle(old(View()).(visits := v), out, now, lastAbsence, env)
      ensures tracker.nextId == old(tracker.nextId)
    {
      var transitions := tracker.Tick(now, absence);
      out := transitions;
      label ticked:
      HandleTransitions(transitions, now, env);
      assert old@ticked(View()) == old(View()).(visits := old@ticked(tracker.visits));
    }

    method Observe(key: Key, now: real, knobs: Knobs, env: Env) returns (ghost out: seq<Transition>)
      requires Ready()
      modifies this, tracker, store`durable, store`scratch, store`emptyDirs
      ensures Ready() && tracker == old(tracker) && lastAbsence == old(lastAbsence)
      ensures exists v :: Observed(old(tracker.visits), v, key, now, knobs, old(tracker.nextId), tracker.maxKeys, out)
                       && View() == Handle(old(View()).(visits := v), out, now, lastAbsence, env)
      ensures tracker.nextId == old(tracker.nextId) + Opens(out)
    {
      var transitions := tracker.Observe(key, now, knobs);
      out := transitions;
      label observed:
      HandleTransitions(transitions, now, env);
      assert old@observed(View()) == old(View()).(visits := old@observed(tracker.visits));
    }

    method HandleTransitions(out: seq<Transition>, now: real, env: Env)
      requires Ready()
      modifies this, tracker`visits, store`durable, store`scratch, store`emptyDirs
      ensures Ready() && tracker == old(tracker) && lastAbsence == old(lastAbsence)
      ensures View() == Handle(old(View()), out, now, lastAbsence, env)
    {
      ghost var w0 := View();
      var i := 0;
      while i < |out|
        invariant i <= |out| && Ready()
        invariant tracker == old(tracker) && lastAbsence == old(lastAbsence)
        invariant Handle(w0, out, now, lastAbsence, env) == Handle(View(), out[i..], now, lastAbsence, env)
      {
        ghost var rest := out[i..];
        assert rest[0] == out[i] && rest[1..] == out[i + 1..];
        HandleOne(out[i], now, env);
        i := i + 1;
      }
    }

    method HandleOne(tr: Transition, now: real, env: Env)
      requires Ready()
      modifies this, tracker`visits, store`durable, store`scratch, store`emptyDirs
      ensures Ready() && tracker == old(tracker) && lastAbsence == old(lastAbsence)
      ensures View() == Apply(old(View()), tr, now, lastAbsence, env)
    {
      match tr {
        case Open(_, _, _, _) => HandleOpen(tr, now, env);
        case Extend(_, _, _) => HandleExtend(tr, now, env);
        case Finalize(_, _, _, _, _) => HandleFinalize(tr, env);
      }
    }

    method HandleOpen(tr: Transition, now: real, env: Env)
      requires Ready() && tr.Open?
      modifies this, tracker`visits, store`durable
      ensures Ready() && tracker == old(tracker) && lastAbsence == old(lastAbsence)
      ensures View() == OnOpen(old(View()), tr, now, lastAbsence, env)
      ensures if tr.visitId !in env.free || env.free[tr.visitId] >= env.minFree then
                && open == old(open)[tr.visitId := Entry(OPEN, tr.key, tr.startTs, tr.startTs, now, tr.segmentIndex, lastAbsence, 0)]
                && store.durable == open && posted == old(posted) + {tr.visitId} && tracker.visits == old(tracker.visits)
              else
                && open == old(open) && store.durable == old(store.durable) && posted == old(posted)
                && tracker.visits == old(tracker.visits) - {tr.key}
                && clipsDroppedDiskFloor == old(clipsDroppedDiskFloor) + 1
    {
      if Below(env, tr.visitId) {
        clipsDroppedDiskFloor := clipsDroppedDiskFloor + 1;
        tracker.Forget(tr.key);
        return;
      }
      open := open[tr.visitId := Entry(OPEN, tr.key, tr.startTs, tr.startTs, now, tr.segmentIndex, lastAbsence, 0)];
      Persist();
      PostEvent(tr.visitId);
    }

    /** The open event goes out for a visit whose entry is on disk, no other. */
    method PostEvent(id: VisitId)
      requires id in open && id in store.durable && store.durable[id] == open[id]
      modifies this`posted
      ensures posted == old(posted) + {id}
    {
      posted := posted + {id};
    }

    method HandleExtend(tr: Transition, now: real, env: Env)
      requires Ready() && tr.Extend?
      modifies this`open, this`lastCopy, store`durable, store`scratch, store`emptyDirs
      ensures Ready() && View() == OnExtend(old(View()), tr, now, env)
    {
      if tr.visitId !in open {
        return;
      }
      var rec := open[tr.visitId].(lastSeen := now);
      if !Below(env, tr.visitId) {
        rec := rec.(lastExtend := tr.endTs);
        CopySegments(tr.visitId, rec.startTs, tr.endTs, env);
      }
      open := open[tr.visitId := rec];
      Persist();
    }

    method HandleFinalize(tr: Transition, env: Env)
      requires Ready() && tr.Finalize?
      modifies this, store`durable, store`scratch, store`emptyDirs
      ensures Ready() && tracker == old(tracker) && lastAbsence == old(lastAbsence)
      ensures View() == OnFinalize(old(View()), tr, env)
    {
      if !Below(env, tr.visitId) {
        CopySegments(tr.visitId, tr.startTs, tr.endTs, env);
      }
      open := open - {tr.visitId};
      Persist();
      SpawnFinalize(tr.visitId, tr.startTs, tr.endTs);
    }

    method CopySegments(id: VisitId, startTs: real, untilTs: real, env: Env)
      modifies store`scratch, store`emptyDirs, this`lastCopy
      ensures store.scratch == old(store.scratch) + (env.copied * {id})
      ensures store.emptyDirs == if id in env.copied then old(store.emptyDirs) - {id}
                                 else old(store.emptyDirs) + ((env.made - old(store.scratch)) * {id})
      ensures lastCopy == old(lastCopy)[id := Span(startTs, untilTs)]
    {
      lastCopy := lastCopy[id := Span(startTs, untilTs)];
      if id in env.copied {
        store.scratch, store.emptyDirs := store.scratch + {id}, store.emptyDirs - {id};
      } else if id in env.made && id !in store.scratch {
        store.emptyDirs := store.emptyDirs + {id};
      }
    }

    method SpawnFinalize(id: VisitId, startTs: real, endTs: real)
      requires Ready()
      modifies this`jobs, this`visitsFinalized, this`handed
      ensures Ready() && View() == Spawn(old(View()), id, startTs, endTs)
    {
      if id in jobs {
        return;
      }
      jobs := jobs[id := Job(startTs, endTs, Waiting)];
      visitsFinalized := visitsFinalized + 1;
      handed := handed + [id];
    }

    method Persist()
      modifies store`durable
      ensures store.durable == open
    {
      store.durable := open;
    }

    /** Close every open visit at its last sighting before a recovery action;
        the caller acts only after this returns. */
    method FinalizeOpenVisitsForEscalation(now: real, env: Env) returns (ghost out: seq<Transition>)
      requires Ready()
      modifies this, store`durable, store`scratch, store`emptyDirs
      ensures Ready() && fresh(tracker) && tracker.maxKeys == DEFAULT_MAX_KEYS
      ensures tracker.nextId == old(tracker.nextId) && lastAbsence == old(lastAbsence)
      ensures ClosesLive(old(tracker.visits), old(tracker.visits).Keys, now, out)
      ensures View() == EndDrain(Drain(old(View()), out, env))
    {
      var snap := tracker.Snapshot();
      out := CloseAll(snap, now, env);
      hide Drain;
      tracker := new VisitTracker(DEFAULT_MAX_KEYS, tracker.nextId);
      Persist();
    }

    method CloseAll(snap: Visits, now: real, env: Env) returns (ghost out: seq<Transition>)
      requires Ready() && snap == LivePart(tracker.visits)
      modifies this, store`scratch, store`emptyDirs
      ensures Ready() && tracker == old(tracker) && lastAbsence == old(lastAbsence)
      ensures ClosesLive(tracker.visits, tracker.visits.Keys, now, out)
      ensures View() == Drain(old(View()), out, env)
    {
      out := [];
      var todo := snap.Keys;
      ghost var v0, w0 := tracker.visits, View();
      while todo != {}
        invariant todo <= snap.Keys && Ready()
        invariant tracker == old(tracker) && lastAbsence == old(lastAbsence)
        invariant Drained(v0, v0.Keys - todo, now, w0, out, env, View())
        decreases todo
      {
        var key :| key in todo;
        out := CloseKey(key, snap[key], now, env, v0, v0.Keys - todo, w0, out);
        assert v0.Keys - (todo - {key}) == v0.Keys - todo + {key};
        todo := todo - {key};
      }
      assert v0.Keys - todo == v0.Keys;
    }

    method CloseKey(key: Key, rec: Record, now: real, env: Env, ghost v0: Visits, ghost done: set<Key>,
                    ghost w0: RunnerState, ghost out: seq<Transition>) returns (ghost out': seq<Transition>)
      requires Ready() && Live(v0, key) && rec == v0[key] && key !in done
      requires Drained(v0, done, now, w0, out, env, View())
      modifies this, store`scratch, store`emptyDirs
      ensures Ready() && tracker == old(tracker) && lastAbsence == old(lastAbsence)
      ensures Drained(v0, done + {key}, now, w0, out', env, View())
    {
      var endTs := if rec.lastSeen <= now then rec.lastSeen else now;
      DrainOneMore(v0, done, now, w0, out, env, View(), key);
      hide Drained, DrainOne;
      CloseOne(key, rec, endTs, env);
      out' := out + [Closing(key, rec, endTs)];
    }

    method CloseOne(key: Key, rec: Record, endTs: real, env: Env)
      requires Ready() && rec.Present?
      modifies this, store`scratch, store`emptyDirs
      ensures Ready() && tracker == old(tracker) && lastAbsence == old(lastAbsence)
      ensures View() == DrainOne(old(View()), Closing(key, rec, endTs), env)
    {
      if !Below(env, rec.visitId) {
        CopySegments(rec.visitId, rec.startTs, endTs, env);
      }
      open := open - {rec.visitId};
      SpawnFinalize(rec.visitId, rec.startTs, endTs);
    }
  }

  lemma {:induction false} DrainSnoc(w: RunnerState, out: seq<Transition>, tr: Transition, env: Env)
    requires tr.Finalize? && forall i :: 0 <= i < |out| ==> out[i].Finalize?
    ensures Drain(w, out + [tr], env) == DrainOne(Drain(w, out, env), tr, env)
    decreases |out|
  {
    if out == [] {
      assert (out + [tr])[1..] == [];
    } else {
      assert (out + [tr])[1..] == out[1..] + [tr];
      DrainSnoc(DrainOne(w, out[0], env), out[1..], tr, env);
    }
  }

  /** A drain that has dealt with the keys in `done` made `w0` into `w`. */
  ghost predicate Drained(v: Visits, done: set<Key>, now: real, w0: RunnerState, out: seq<Transition>, env: Env, w: RunnerState) {
    ClosesLive(v, done, now, out) && w == Drain(w0, out, env)
  }

  lemma DrainOneMore(v: Visits, done: set<Key>, now: real, w0: RunnerState, out: seq<Transition>, env: Env, w: RunnerState, k: Key)
    requires Drained(v, done, now, w0, out, env, w) && k !in done && Live(v, k)
    ensures var tr := Closing(k, v[k], if v[k].lastSeen <= now then v[k].lastSeen else now);
            Drained(v, done + {k}, now, w0, out + [tr], env, DrainOne(w, tr, env))
  {
    CloseOneMoreLive(v, done, now, out, k);
    DrainSnoc(w0, out, Closing(k, v[k], if v[k].lastSeen <= now then v[k].lastSeen else now), env);
  }

  lemma CloseOneMoreLive(v: Visits, done: set<Key>, now: real, out: seq<Transition>, k: Key)
    requires ClosesLive(v, done, now, out) && k !in done && Live(v, k)
    ensures ClosesLive(v, done + {k}, now,
                       out + [Closing(k, v[k], if v[k].lastSeen <= now then v[k].lastSeen else now)])
  {
    var out' := out + [Closing(k, v[k], if v[k].lastSeen <= now then v[k].lastSeen else now)];
    assert out'[|out|].key == k;
    forall j | j in done + {k} && Live(v, j) ensures Closes(out', j) {
      if j != k {
        var i :| 0 <= i < |out| && out[i].key == j;
        assert out'[i].key == j;
      }
    }
  }
}
