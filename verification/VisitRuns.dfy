/** Whole runs of the visit tracker: any interleaving of ticks, present
    detections and rolled-back opens under a clock that never goes back. */
module VisitRuns {
  import opened VisitLifecycle

  /** `out` is what the call returned. */
  datatype Event =
    | TickAt(now: real, absence: real, out: seq<Transition>)
    | SeenAt(key: Key, now: real, knobs: Knobs, out: seq<Transition>)
    | Forgotten(key: Key)

  /** The tracker's state together with what has happened so far: every
      transition, every present detection, and the records that left the table
      without a finalize (evicted by a prune, or forgotten). */
  datatype Trace = Trace(
    visits: Visits, nextId: VisitId, clock: real, lastTick: real,
    log: seq<Transition>, seen: set<(Key, real)>, lost: set<(Key, Record)>)

  ghost predicate Initial(s: Trace) {
    s.visits == map[] && s.log == [] && s.seen == {} && s.lost == {} && s.lastTick <= s.clock
  }

  function Evicted(v: Visits, v': Visits, k: Key): set<(Key, Record)> {
    set j | j in v && v[j].Present? && j != k && j !in v' :: (j, v[j])
  }

  function Dropped(v: Visits, k: Key): set<(Key, Record)> {
    if Live(v, k) then {(k, v[k])} else {}
  }

  ghost predicate Step(s: Trace, e: Event, s': Trace, maxKeys: nat) {
    match e
    case TickAt(now, absence, out) =>
      && s.clock <= now && absence >= 0.0
      && Ticked(s.visits, s'.visits, now, absence, out)
      && s' == s.(visits := s'.visits, clock := now, lastTick := now, log := s.log + out)
    case SeenAt(key, now, knobs, out) =>
      && s.clock <= now && knobs.preRoll >= 0.0 && knobs.absence >= 0.0 && knobs.maxVisit >= 0.0
      && Observed(s.visits, s'.visits, key, now, knobs, s.nextId, maxKeys, out)
      && s' == s.(visits := s'.visits, nextId := s.nextId + Opens(out), clock := now, log := s.log + out,
                  seen := s.seen + {(key, now)}, lost := s.lost + Evicted(s.visits, s'.visits, key))
    case Forgotten(key) =>
      s' == s.(visits := s.visits - {key}, lost := s.lost + Dropped(s.visits, key))
  }

  ghost predicate Run(states: seq<Trace>, events: seq<Event>, maxKeys: nat) {
    && |states| == |events| + 1
    && Initial(states[0])
    && forall i :: 0 <= i < |events| ==> Step(states[i], events[i], states[i + 1], maxKeys)
  }

  // ---------------------------------------------------------------- timing

  predicate WellTimed(r: Record, clock: real, nextId: VisitId)
    requires r.Present?
  {
    r.startTs <= r.startedAt <= r.lastSeen <= clock && r.visitId < nextId
  }

  ghost predicate AllWellTimed(s: Trace) {
    forall k :: Live(s.visits, k) ==> WellTimed(s.visits[k], s.clock, s.nextId)
  }

  lemma ObserveKeepsOthers(v: Visits, v': Visits, k: Key, now: real, knobs: Knobs,
                           id: VisitId, maxKeys: nat, out: seq<Transition>, j: Key)
    requires Observed(v, v', k, now, knobs, id, maxKeys, out) && j != k
    ensures j in v' ==> j in v && v'[j] == v[j]
    ensures Live(v, j) ==> j in v' || (j, v[j]) in Evicted(v, v', k)
  {
    if j in v' {
      assert j in v' - {k} || j in v;
    }
  }

  lemma StepWellTimed(s: Trace, e: Event, s': Trace, maxKeys: nat)
    requires Step(s, e, s', maxKeys) && AllWellTimed(s)
    ensures AllWellTimed(s') && s.clock <= s'.clock
  {
    match e
    case TickAt(now, absence, out) =>
    case Forgotten(key) =>
    case SeenAt(key, now, knobs, out) =>
      forall j | Live(s'.visits, j) ensures WellTimed(s'.visits[j], s'.clock, s'.nextId) {
        if j != key {
          ObserveKeepsOthers(s.visits, s'.visits, key, now, knobs, s.nextId, maxKeys, out, j);
        }
      }
  }

  // -------------------------------------------------------------- coverage

  predicate Spans(tr: Transition, k: Key, t: real) {
    tr.Finalize? && tr.key == k && tr.startTs <= t <= tr.endTs
  }

  ghost predicate InWindow(log: seq<Transition>, k: Key, t: real) {
    exists i :: 0 <= i < |log| && Spans(log[i], k, t)
  }

  predicate Holds(r: Record, t: real) {
    r.Present? && r.startTs <= t <= r.lastSeen
  }

  /** The detection of `k` at `t` is accounted for. */
  ghost predicate Covered(s: Trace, k: Key, t: real) {
    || InWindow(s.log, k, t)
    || (k in s.visits && Holds(s.visits[k], t))
    || (exists r :: (k, r) in s.lost && Holds(r, t))
  }

  ghost predicate AllCovered(s: Trace) {
    forall k, t :: (k, t) in s.seen ==> Covered(s, k, t)
  }

  lemma WindowStays(log: seq<Transition>, out: seq<Transition>, k: Key, t: real)
    requires InWindow(log, k, t)
    ensures InWindow(log + out, k, t)
  {
    var i :| 0 <= i < |log| && Spans(log[i], k, t);
    assert (log + out)[i] == log[i];
  }

  lemma WindowAdded(log: seq<Transition>, out: seq<Transition>, i: nat, k: Key, t: real)
    requires i < |out| && Spans(out[i], k, t)
    ensures InWindow(log + out, k, t)
  {
    assert (log + out)[|log| + i] == out[i];
  }

  lemma TickCovers(s: Trace, e: Event, s': Trace, maxKeys: nat, k: Key, t: real)
    requires Step(s, e, s', maxKeys) && e.TickAt? && AllWellTimed(s) && Covered(s, k, t)
    ensures Covered(s', k, t)
  {
    if InWindow(s.log, k, t) {
      WindowStays(s.log, e.out, k, t);
    } else if k in s.visits && Holds(s.visits[k], t) && Expired(s.visits, k, e.now, e.absence) {
      assert Closes(e.out, k);
      var i :| 0 <= i < |e.out| && e.out[i].key == k;
      assert ClosesAtDeadline(s.visits, e.now, e.absence, e.out[i]);
      WindowAdded(s.log, e.out, i, k, t);
    }
  }

  lemma SeenCovers(s: Trace, e: Event, s': Trace, maxKeys: nat, k: Key, t: real)
    requires Step(s, e, s', maxKeys) && e.SeenAt? && AllWellTimed(s)
    requires Covered(s, k, t) || (k == e.key && t == e.now)
    ensures Covered(s', k, t)
  {
    if InWindow(s.log, k, t) {
      WindowStays(s.log, e.out, k, t);
    } else if k == e.key {
      if k in s.visits && Holds(s.visits[k], t) && e.out[0].Finalize? {
        if Spans(e.out[0], k, t) {
          WindowAdded(s.log, e.out, 0, k, t);
        }
      }
    } else {
      ObserveKeepsOthers(s.visits, s'.visits, e.key, e.now, e.knobs, s.nextId, maxKeys, e.out, k);
    }
  }

  lemma StepCovers(s: Trace, e: Event, s': Trace, maxKeys: nat)
    requires Step(s, e, s', maxKeys) && AllWellTimed(s) && AllCovered(s)
    ensures AllCovered(s')
  {
    forall k, t | (k, t) in s'.seen ensures Covered(s', k, t) {
      match e
      case TickAt(now, absence, out) => TickCovers(s, e, s', maxKeys, k, t);
      case SeenAt(key, now, knobs, out) => SeenCovers(s, e, s', maxKeys, k, t);
      case Forgotten(key) =>
    }
  }

  /** No present detection falls between windows, whatever the sliders did on
      each call: it lies in a finalized window of its key, in the open visit
      of its key, or in a visit that was evicted or rolled back. */
  lemma {:induction false} CoverageOnEveryRun(states: seq<Trace>, events: seq<Event>, maxKeys: nat, n: nat)
    requires Run(states, events, maxKeys) && n < |states|
    ensures AllWellTimed(states[n]) && AllCovered(states[n])
  {
    if n > 0 {
      CoverageOnEveryRun(states, events, maxKeys, n - 1);
      StepWellTimed(states[n - 1], events[n - 1], states[n], maxKeys);
      StepCovers(states[n - 1], events[n - 1], states[n], maxKeys);
    }
  }

  // ---------------------------------------------------------------- tiling

  /** How far visits reach back behind the moment they were opened for. */
  type Reach = map<VisitId, real>

  /** The visit an event opens, if any, reaches back by the pre-roll of this very
      call if it is a fresh one, and not at all if it continues one the cap cut. */
  function ReachFrom(e: Event): Reach {
    if e.SeenAt? && e.out != [] && e.out[|e.out| - 1].Open? then
      map[e.out[|e.out| - 1].visitId := if e.out[|e.out| - 1].segmentIndex == 0 then e.knobs.preRoll else 0.0]
    else map[]
  }

  function ReachAfter(events: seq<Event>): Reach {
    if events == [] then map[] else ReachAfter(events[..|events| - 1]) + ReachFrom(events[|events| - 1])
  }

  /** A window of `k` with this start fits behind `w`, into which it may reach
      back so far. */
  predicate Follows(w: Transition, k: Key, startTs: real, reach: real) {
    w.Finalize? && w.key == k ==> startTs >= w.endTs - reach
  }

  predicate Precedes(w: Transition, k: Key, startTs: real, segmentIndex: nat) {
    w.Finalize? && w.key == k && w.segmentIndex + 1 == segmentIndex && w.endTs == startTs
  }

  /** Among the first `n` transitions, every window of `k` ends early enough,
      and a continuation reaches back not at all and begins exactly where its
      predecessor ended. */
  ghost predicate Fits(log: seq<Transition>, n: nat, k: Key, startTs: real, segmentIndex: nat, reach: real)
    requires n <= |log|
  {
    && (forall i :: 0 <= i < n ==> Follows(log[i], k, startTs, reach))
    && (segmentIndex > 0 ==> reach == 0.0 && exists i :: 0 <= i < n && Precedes(log[i], k, startTs, segmentIndex))
  }

  /** The window at position `j` fits behind everything before it. */
  ghost predicate WindowFits(log: seq<Transition>, reach: Reach, j: nat)
    requires j < |log|
  {
    log[j].Finalize? ==>
      log[j].visitId in reach && Fits(log, j, log[j].key, log[j].startTs, log[j].segmentIndex, reach[log[j].visitId])
  }

  ghost predicate Tiled(s: Trace, reach: Reach) {
    && (forall j :: 0 <= j < |s.log| ==> WindowFits(s.log, reach, j))
    && (forall i :: 0 <= i < |s.log| && s.log[i].Finalize? ==> s.log[i].endTs <= s.clock)
    && (forall k :: Live(s.visits, k) ==> LiveFits(s, reach, k))
  }

  ghost predicate LiveFits(s: Trace, reach: Reach, k: Key)
    requires Live(s.visits, k)
  {
    var r := s.visits[k];
    && r.visitId in reach && Fits(s.log, |s.log|, k, r.startTs, r.segmentIndex, reach[r.visitId])
    && forall i :: 0 <= i < |s.log| && s.log[i].Finalize? && s.log[i].key == k ==> s.log[i].endTs <= r.startedAt
  }

  /** `reach'` knows what `reach` knows. */
  ghost predicate Grows(reach: Reach, reach': Reach) {
    forall id :: id in reach ==> id in reach' && reach'[id] == reach[id]
  }

  /** Adding transitions that are no windows of `k` changes nothing for `k`. */
  lemma FitsStays(log: seq<Transition>, out: seq<Transition>, n: nat, k: Key, startTs: real, seg: nat, reach: real)
    requires |log| <= n <= |log + out| && Fits(log, |log|, k, startTs, seg, reach)
    requires forall i :: 0 <= i < n - |log| ==> !(out[i].Finalize? && out[i].key == k)
    ensures Fits(log + out, n, k, startTs, seg, reach)
  {
    if seg > 0 {
      var i :| 0 <= i < |log| && Precedes(log[i], k, startTs, seg);
      assert Precedes((log + out)[i], k, startTs, seg);
    }
    forall i | 0 <= i < n ensures Follows((log + out)[i], k, startTs, reach) {
      if i < |log| { assert Follows(log[i], k, startTs, reach); }
    }
  }

  lemma PrefixFits(log: seq<Transition>, out: seq<Transition>, reach: Reach, reach': Reach, j: nat)
    requires j < |log| && WindowFits(log, reach, j)
    requires Grows(reach, reach')
    ensures WindowFits(log + out, reach', j)
  {
    if log[j].Finalize? {
      FitsPrefix(log, out, j, log[j].key, log[j].startTs, log[j].segmentIndex, reach[log[j].visitId]);
    }
  }

  lemma FitsPrefix(log: seq<Transition>, out: seq<Transition>, n: nat, k: Key, startTs: real, seg: nat, reach: real)
    requires n <= |log| && Fits(log, n, k, startTs, seg, reach)
    ensures Fits(log + out, n, k, startTs, seg, reach)
  {
    if seg > 0 {
      var i :| 0 <= i < n && Precedes(log[i], k, startTs, seg);
      assert Precedes((log + out)[i], k, startTs, seg);
    }
    forall i | 0 <= i < n ensures Follows((log + out)[i], k, startTs, reach) {
      assert Follows(log[i], k, startTs, reach);
    }
  }

  lemma TickTiles(s: Trace, e: Event, s': Trace, maxKeys: nat, reach: Reach)
    requires Step(s, e, s', maxKeys) && e.TickAt? && AllWellTimed(s) && Tiled(s, reach)
    ensures Tiled(s', reach)
  {
    forall j | 0 <= j < |s'.log| ensures WindowFits(s'.log, reach, j) {
      if j < |s.log| {
        PrefixFits(s.log, e.out, reach, reach, j);
      } else {
        var i := j - |s.log|;
        assert ClosesAtDeadline(s.visits, e.now, e.absence, e.out[i]);
        assert LiveFits(s, reach, e.out[i].key);
        FitsStays(s.log, e.out, j, e.out[i].key, e.out[i].startTs, e.out[i].segmentIndex, reach[e.out[i].visitId]);
      }
    }
    forall i | 0 <= i < |s'.log| && s'.log[i].Finalize? ensures s'.log[i].endTs <= s'.clock {
      if i >= |s.log| { assert ClosesAtDeadline(s.visits, e.now, e.absence, e.out[i - |s.log|]); }
    }
    forall k | Live(s'.visits, k) ensures LiveFits(s', reach, k) {
      assert !Expired(s.visits, k, e.now, e.absence) && LiveFits(s, reach, k);
      forall i | 0 <= i < |e.out| ensures e.out[i].key != k {
        assert ClosesAtDeadline(s.visits, e.now, e.absence, e.out[i]);
      }
      var r := s'.visits[k];
      FitsStays(s.log, e.out, |s'.log|, k, r.startTs, r.segmentIndex, reach[r.visitId]);
    }
  }

  /** A detection closes at most the open visit of its own key, not later than
      now. */
  lemma SeenCloses(v: Visits, v': Visits, k: Key, now: real, knobs: Knobs, id: VisitId, maxKeys: nat,
                   out: seq<Transition>, i: nat)
    requires Observed(v, v', k, now, knobs, id, maxKeys, out) && i < |out| && out[i].Finalize?
    ensures i == 0 && Live(v, k) && out[0] == Closing(k, v[k], out[0].endTs) && out[0].endTs <= now
  {
  }

  lemma SeenTilesLog(s: Trace, e: Event, s': Trace, maxKeys: nat, reach: Reach, reach': Reach)
    requires Step(s, e, s', maxKeys) && e.SeenAt? && Tiled(s, reach)
    requires Grows(reach, reach')
    ensures forall j :: 0 <= j < |s'.log| ==> WindowFits(s'.log, reach', j)
    ensures forall i :: 0 <= i < |s'.log| && s'.log[i].Finalize? ==> s'.log[i].endTs <= s'.clock
  {
    hide Observed, ReachFrom;
    forall j | 0 <= j < |s'.log|
      ensures WindowFits(s'.log, reach', j) && (s'.log[j].Finalize? ==> s'.log[j].endTs <= s'.clock)
    {
      if j < |s.log| {
        PrefixFits(s.log, e.out, reach, reach', j);
      } else if s'.log[j].Finalize? {
        SeenCloses(s.visits, s'.visits, e.key, e.now, e.knobs, s.nextId, maxKeys, e.out, j - |s.log|);
        assert LiveFits(s, reach, e.key);
        FitsStays(s.log, e.out, j, e.key, e.out[0].startTs, e.out[0].segmentIndex, reach[e.out[0].visitId]);
      }
    }
  }

  /** The visit of a detection goes on, or starts now, or where the last one was
      cut, which is not after now. */
  lemma SeenRecord(v: Visits, v': Visits, e: Event, id: VisitId, maxKeys: nat)
    requires e.SeenAt? && Observed(v, v', e.key, e.now, e.knobs, id, maxKeys, e.out)
    ensures Live(v', e.key)
    ensures var k, r := e.key, v'[e.key];
            || (Live(v, k) && r == v[k].(lastSeen := e.now) && e.out == [Extend(k, v[k].visitId, e.now)])
            || (r.startedAt == e.now && r.segmentIndex == 0 && r.startTs == e.now - e.knobs.preRoll
                && ReachFrom(e) == map[r.visitId := e.knobs.preRoll])
            || (r.startedAt == e.now && r.segmentIndex > 0 && Live(v, k) && r.startTs == v[k].startedAt + e.knobs.maxVisit
                && |e.out| == 2 && e.out[0].Finalize? && e.out[0].endTs == r.startTs && !e.out[1].Finalize?
                && ReachFrom(e) == map[r.visitId := 0.0])
  {
  }

  /** The windows there were before end by the moment a visit is opened for, and
      those of its key before it, by its start and reach. */
  lemma OldFollows(s: Trace, reach: Reach, k: Key, i: nat)
    requires AllWellTimed(s) && Tiled(s, reach) && i < |s.log| && s.log[i].Finalize? && s.log[i].key == k
    ensures s.log[i].endTs <= s.clock
    ensures Live(s.visits, k) ==>
              var v := s.visits[k];
              && v.visitId in reach && s.log[i].endTs <= v.startedAt <= v.lastSeen
              && s.log[i].endTs <= v.startTs + reach[v.visitId]
  {
    if Live(s.visits, k) {
      assert LiveFits(s, reach, k) && WellTimed(s.visits[k], s.clock, s.nextId);
      assert Follows(s.log[i], k, s.visits[k].startTs, reach[s.visits[k].visitId]);
    }
  }

  lemma OldWindowFollows(s: Trace, e: Event, s': Trace, maxKeys: nat, reach: Reach, reach': Reach, i: nat)
    requires Step(s, e, s', maxKeys) && e.SeenAt? && AllWellTimed(s) && Tiled(s, reach)
    requires Grows(reach, reach') && Grows(ReachFrom(e), reach')
    requires i < |s.log| && s.log[i].Finalize? && s.log[i].key == e.key
    ensures Live(s'.visits, e.key) && s'.visits[e.key].visitId in reach'
    ensures var r := s'.visits[e.key];
            s.log[i].endTs <= r.startedAt && r.startTs >= s.log[i].endTs - reach'[r.visitId]
  {
    OldFollows(s, reach, e.key, i);
    hide Tiled, AllWellTimed;
    SeenRecord(s.visits, s'.visits, e, s.nextId, maxKeys);
    hide Observed, ReachFrom;
  }

  lemma NewWindowFollows(s: Trace, e: Event, s': Trace, maxKeys: nat, reach': Reach, i: nat)
    requires Step(s, e, s', maxKeys) && e.SeenAt? && Grows(ReachFrom(e), reach') && i < |e.out| && e.out[i].Finalize?
    ensures Live(s'.visits, e.key) && s'.visits[e.key].visitId in reach'
    ensures var r := s'.visits[e.key];
            e.out[i].endTs <= r.startedAt && r.startTs >= e.out[i].endTs - reach'[r.visitId]
  {
    SeenCloses(s.visits, s'.visits, e.key, e.now, e.knobs, s.nextId, maxKeys, e.out, i);
    SeenRecord(s.visits, s'.visits, e, s.nextId, maxKeys);
    hide Observed, ReachFrom;
  }

  lemma SeenFollows(s: Trace, e: Event, s': Trace, maxKeys: nat, reach: Reach, reach': Reach, i: nat)
    requires Step(s, e, s', maxKeys) && e.SeenAt? && AllWellTimed(s) && Tiled(s, reach)
    requires Grows(reach, reach') && Grows(ReachFrom(e), reach')
    requires i < |s'.log| && s'.log[i].Finalize? && s'.log[i].key == e.key
    ensures Live(s'.visits, e.key) && s'.visits[e.key].visitId in reach'
    ensures var r := s'.visits[e.key];
            s'.log[i].endTs <= r.startedAt && Follows(s'.log[i], e.key, r.startTs, reach'[r.visitId])
  {
    hide Observed, Tiled, AllWellTimed, Grows, ReachFrom;
    if i < |s.log| {
      OldWindowFollows(s, e, s', maxKeys, reach, reach', i);
    } else {
      NewWindowFollows(s, e, s', maxKeys, reach', i - |s.log|);
    }
  }

  lemma SeenPrecedes(s: Trace, e: Event, s': Trace, maxKeys: nat, reach: Reach, reach': Reach)
    requires Step(s, e, s', maxKeys) && e.SeenAt? && Tiled(s, reach)
    requires Grows(reach, reach') && Grows(ReachFrom(e), reach')
    ensures Live(s'.visits, e.key) && s'.visits[e.key].visitId in reach'
    ensures var r := s'.visits[e.key];
            r.segmentIndex > 0 ==>
              reach'[r.visitId] == 0.0 && exists i :: 0 <= i < |s'.log| && Precedes(s'.log[i], e.key, r.startTs, r.segmentIndex)
  {
    var k, r := e.key, s'.visits[e.key];
    SeenRecord(s.visits, s'.visits, e, s.nextId, maxKeys);
    if Live(s.visits, k) { assert LiveFits(s, reach, k); }
    if r.segmentIndex > 0 {
      if e.out[0].Finalize? {
        assert Precedes(s'.log[|s.log|], k, r.startTs, r.segmentIndex);
      } else {
        var i :| 0 <= i < |s.log| && Precedes(s.log[i], k, r.startTs, r.segmentIndex);
        assert Precedes(s'.log[i], k, r.startTs, r.segmentIndex);
      }
    }
  }

  lemma SeenTilesKey(s: Trace, e: Event, s': Trace, maxKeys: nat, reach: Reach, reach': Reach)
    requires Step(s, e, s', maxKeys) && e.SeenAt? && AllWellTimed(s) && Tiled(s, reach)
    requires Grows(reach, reach') && Grows(ReachFrom(e), reach')
    ensures Live(s'.visits, e.key) && LiveFits(s', reach', e.key)
  {
    SeenPrecedes(s, e, s', maxKeys, reach, reach');
    var r := s'.visits[e.key];
    forall i | 0 <= i < |s'.log| && s'.log[i].Finalize? && s'.log[i].key == e.key
      ensures s'.log[i].endTs <= r.startedAt && Follows(s'.log[i], e.key, r.startTs, reach'[r.visitId])
    {
      SeenFollows(s, e, s', maxKeys, reach, reach', i);
    }
    hide Observed, Tiled, AllWellTimed, ReachFrom;
  }

  lemma SeenTilesOthers(s: Trace, e: Event, s': Trace, maxKeys: nat, reach: Reach, reach': Reach, k: Key)
    requires Step(s, e, s', maxKeys) && e.SeenAt? && Tiled(s, reach) && k != e.key && Live(s'.visits, k)
    requires Grows(reach, reach')
    ensures LiveFits(s', reach', k)
  {
    ObserveKeepsOthers(s.visits, s'.visits, e.key, e.now, e.knobs, s.nextId, maxKeys, e.out, k);
    assert LiveFits(s, reach, k);
    var r := s.visits[k];
    FitsStays(s.log, e.out, |s'.log|, k, r.startTs, r.segmentIndex, reach[r.visitId]);
  }

  lemma ForgottenTiles(s: Trace, e: Event, s': Trace, maxKeys: nat, reach: Reach)
    requires Step(s, e, s', maxKeys) && e.Forgotten? && Tiled(s, reach)
    ensures Tiled(s', reach)
  {
    forall k | Live(s'.visits, k) ensures LiveFits(s', reach, k) {
      assert LiveFits(s, reach, k);
    }
  }

  lemma TiledGrows(s: Trace, reach: Reach, reach': Reach)
    requires Tiled(s, reach) && Grows(reach, reach')
    ensures Tiled(s, reach')
  {
    forall j | 0 <= j < |s.log| ensures WindowFits(s.log, reach', j) {
      assert WindowFits(s.log, reach, j);
    }
    forall k | Live(s.visits, k) ensures LiveFits(s, reach', k) {
      assert LiveFits(s, reach, k);
    }
  }

  lemma SeenTiles(s: Trace, e: Event, s': Trace, maxKeys: nat, reach: Reach, reach': Reach)
    requires Step(s, e, s', maxKeys) && e.SeenAt? && AllWellTimed(s) && Tiled(s, reach)
    requires Grows(reach, reach') && Grows(ReachFrom(e), reach')
    ensures Tiled(s', reach')
  {
    SeenTilesLog(s, e, s', maxKeys, reach, reach');
    SeenTilesKey(s, e, s', maxKeys, reach, reach');
    forall k | Live(s'.visits, k) && k != e.key ensures LiveFits(s', reach', k) {
      SeenTilesOthers(s, e, s', maxKeys, reach, reach', k);
    }
    hide Step, Grows, LiveFits, WindowFits;
  }

  lemma StepTiles(s: Trace, e: Event, s': Trace, maxKeys: nat, reach: Reach, reach': Reach)
    requires Step(s, e, s', maxKeys) && AllWellTimed(s) && Tiled(s, reach)
    requires Grows(reach, reach') && Grows(ReachFrom(e), reach')
    ensures Tiled(s', reach')
  {
    hide Step, Tiled, Grows, AllWellTimed;
    match e
    case TickAt(_, _, _) =>
      TickTiles(s, e, s', maxKeys, reach);
      TiledGrows(s', reach, reach');
    case SeenAt(_, _, _, _) => SeenTiles(s, e, s', maxKeys, reach, reach');
    case Forgotten(_) =>
      ForgottenTiles(s, e, s', maxKeys, reach);
      TiledGrows(s', reach, reach');
  }

  /** The visits opened so far have ids below the next one. */
  lemma {:induction false} ReachIsOld(states: seq<Trace>, events: seq<Event>, maxKeys: nat, n: nat)
    requires Run(states, events, maxKeys) && n < |states|
    ensures forall id :: id in ReachAfter(events[..n]) ==> id < states[n].nextId
  {
    if n > 0 {
      ReachIsOld(states, events, maxKeys, n - 1);
      assert events[..n][..n - 1] == events[..n - 1];
      assert Step(states[n - 1], events[n - 1], states[n], maxKeys);
      OpensNext(states[n - 1], events[n - 1], states[n], maxKeys);
      hide Step;
    }
  }

  /** What an event opens is the next visit, under the key of the detection. */
  lemma OpensNext(s: Trace, e: Event, s': Trace, maxKeys: nat)
    requires Step(s, e, s', maxKeys)
    ensures s.nextId <= s'.nextId && forall id :: id in ReachFrom(e) ==> id == s.nextId < s'.nextId
    ensures e.SeenAt? && e.out != [] && e.out[|e.out| - 1].Open? ==> e.out[|e.out| - 1].key == e.key
  {
    if e.SeenAt? { ObservedOpens(s.visits, s'.visits, e.key, e.now, e.knobs, s.nextId, maxKeys, e.out); }
    hide Observed, Ticked;
  }

  lemma ObservedOpens(v: Visits, v': Visits, k: Key, now: real, knobs: Knobs, id: VisitId, maxKeys: nat, out: seq<Transition>)
    requires Observed(v, v', k, now, knobs, id, maxKeys, out)
    ensures out != [] && out[|out| - 1].Open? ==> out[|out| - 1].key == k && out[|out| - 1].visitId == id
  {
    hide Inserted;
  }

  lemma ReachGrows(states: seq<Trace>, events: seq<Event>, maxKeys: nat, n: nat)
    requires Run(states, events, maxKeys) && n < |events|
    ensures Grows(ReachAfter(events[..n]), ReachAfter(events[..n + 1]))
    ensures Grows(ReachFrom(events[n]), ReachAfter(events[..n + 1]))
  {
    ReachIsOld(states, events, maxKeys, n);
    assert events[..n + 1][..n] == events[..n];
    assert Step(states[n], events[n], states[n + 1], maxKeys);
    OpensNext(states[n], events[n], states[n + 1], maxKeys);
    hide Step, ReachFrom;
  }

  /** Cap splits tile: a window with index n + 1 starts exactly where a window
      of its key with index n ended; and a window overlaps an earlier one of its
      key by no more than its own visit reaches back. */
  lemma {:induction false} TilingOnEveryRun(states: seq<Trace>, events: seq<Event>, maxKeys: nat, n: nat)
    requires Run(states, events, maxKeys) && n < |states|
    ensures Tiled(states[n], ReachAfter(events[..n]))
  {
    if n > 0 {
      var i := n - 1;
      TilingOnEveryRun(states, events, maxKeys, i);
      CoverageOnEveryRun(states, events, maxKeys, i);
      ReachGrows(states, events, maxKeys, i);
      assert Step(states[i], events[i], states[i + 1], maxKeys);
      hide Step, Tiled, Grows, ReachAfter, ReachFrom;
      StepTiles(states[i], events[i], states[n], maxKeys, ReachAfter(events[..i]), ReachAfter(events[..n]));
    }
  }

  /** The detection that opens the visit `id`, with this index. */
  predicate OpensVisit(e: Event, id: VisitId, segmentIndex: nat) {
    e.SeenAt? && e.out != [] && var tr := e.out[|e.out| - 1]; tr.Open? && tr.visitId == id && tr.segmentIndex == segmentIndex
  }

  /** How far a visit reaches back is the pre-roll of the very call that opened it,
      if it is a fresh one, and nothing if it continues one cut by the cap. */
  lemma {:induction false} ReachIsOwnPreRoll(events: seq<Event>, n: nat, id: VisitId) returns (k: nat, segmentIndex: nat)
    requires n <= |events| && id in ReachAfter(events[..n])
    ensures k < n && OpensVisit(events[k], id, segmentIndex)
    ensures ReachAfter(events[..n])[id] == if segmentIndex == 0 then events[k].knobs.preRoll else 0.0
  {
    k := n - 1;
    assert events[..n][..k] == events[..k];
    if id in ReachFrom(events[k]) {
      segmentIndex := events[k].out[|events[k].out| - 1].segmentIndex;
    } else {
      k, segmentIndex := ReachIsOwnPreRoll(events, k, id);
    }
  }

  /** From the start of window `i` to the end of window `j` some window of the key
      spans every moment. */
  ghost predicate Unbroken(log: seq<Transition>, i: nat, j: nat)
    requires i < |log| && j < |log|
  {
    && log[i].Finalize? && log[j].Finalize? && log[i].key == log[j].key
    && forall t :: log[i].startTs <= t <= log[j].endTs ==> InWindow(log, log[j].key, t)
  }

  lemma {:induction false} ChainToFirst(s: Trace, reach: Reach, j: nat) returns (i: nat)
    requires Tiled(s, reach) && j < |s.log| && s.log[j].Finalize?
    ensures i <= j && Unbroken(s.log, i, j) && s.log[i].segmentIndex == 0
    decreases j
  {
    var w := s.log[j];
    assert forall t :: w.startTs <= t <= w.endTs ==> Spans(s.log[j], w.key, t);
    if w.segmentIndex == 0 {
      i := j;
    } else {
      assert WindowFits(s.log, reach, j);
      var p :| 0 <= p < j && Precedes(s.log[p], w.key, w.startTs, w.segmentIndex);
      i := ChainToFirst(s, reach, p);
      forall t | s.log[i].startTs <= t <= w.endTs ensures InWindow(s.log, w.key, t) {
        if t < w.startTs { assert t <= s.log[p].endTs; } else { assert Spans(s.log[j], w.key, t); }
      }
    }
  }

  /** The pieces into which the cap cuts a visit make one unbroken interval: from
      every finalized window, whatever its index, the windows of its key reach
      back without a gap to the start of one with index 0. */
  lemma ChainOnEveryRun(states: seq<Trace>, events: seq<Event>, maxKeys: nat, n: nat, j: nat) returns (i: nat)
    requires Run(states, events, maxKeys) && n < |states|
    requires j < |states[n].log| && states[n].log[j].Finalize?
    ensures i <= j && Unbroken(states[n].log, i, j) && states[n].log[i].segmentIndex == 0
  {
    TilingOnEveryRun(states, events, maxKeys, n);
    i := ChainToFirst(states[n], ReachAfter(events[..n]), j);
  }

  // ---------------------------------------------------------- window length

  /** Ticks and detections under fixed sliders, every detection within `d`
      seconds of the last tick. */
  ghost predicate Paced(s: Trace, e: Event, knobs: Knobs, d: real) {
    match e
    case TickAt(now, absence, out) => absence == knobs.absence
    case SeenAt(key, now, k, out) => k == knobs && now - s.lastTick <= d
    case Forgotten(key) => true
  }

  function Lead(knobs: Knobs, d: real): real {
    if knobs.preRoll >= knobs.absence + d then knobs.preRoll else knobs.absence + d
  }

  predicate ShortSoFar(r: Record, lastTick: real, knobs: Knobs, d: real)
    requires r.Present?
  {
    && r.lastSeen - r.startedAt < knobs.maxVisit
    && r.startedAt - r.startTs <= Lead(knobs, d)
    && lastTick <= r.lastSeen + knobs.absence
  }

  /** A window closed by absence or by the cap is not reversed, claims no
      footage from the future and is bounded in length. */
  predicate ShortWindow(tr: Transition, clock: real, knobs: Knobs, d: real) {
    tr.Finalize? ==>
      && tr.startTs <= tr.endTs <= clock
      && tr.endTs - tr.startTs <= knobs.maxVisit + knobs.absence + Lead(knobs, d)
  }

  ghost predicate Bounded(s: Trace, knobs: Knobs, d: real) {
    && s.lastTick <= s.clock
    && (forall k :: Live(s.visits, k) ==> ShortSoFar(s.visits[k], s.lastTick, knobs, d))
    && (forall i :: 0 <= i < |s.log| ==> ShortWindow(s.log[i], s.clock, knobs, d))
  }

  predicate SaneKnobs(knobs: Knobs, d: real) {
    knobs.maxVisit > 0.0 && knobs.absence >= 0.0 && knobs.preRoll >= 0.0 && d >= 0.0
  }

  lemma TickBounded(s: Trace, e: Event, s': Trace, maxKeys: nat, knobs: Knobs, d: real)
    requires Step(s, e, s', maxKeys) && e.TickAt? && AllWellTimed(s) && Bounded(s, knobs, d)
    requires Paced(s, e, knobs, d) && SaneKnobs(knobs, d)
    ensures Bounded(s', knobs, d)
  {
    forall i | 0 <= i < |s'.log| ensures ShortWindow(s'.log[i], s'.clock, knobs, d) {
      if i >= |s.log| {
        assert ClosesAtDeadline(s.visits, e.now, e.absence, e.out[i - |s.log|]);
      } else {
        assert ShortWindow(s.log[i], s.clock, knobs, d);
      }
    }
  }

  /** The window closed by a detection, if any, is short. */
  lemma SeenWindowShort(s: Trace, e: Event, s': Trace, maxKeys: nat, knobs: Knobs, d: real)
    requires Step(s, e, s', maxKeys) && e.SeenAt? && AllWellTimed(s) && Bounded(s, knobs, d)
    requires Paced(s, e, knobs, d) && SaneKnobs(knobs, d)
    ensures forall i :: 0 <= i < |e.out| ==> ShortWindow(e.out[i], s'.clock, knobs, d)
  {
    if Live(s.visits, e.key) {
      assert ShortSoFar(s.visits[e.key], s.lastTick, knobs, d);
      assert WellTimed(s.visits[e.key], s.clock, s.nextId);
    }
  }

  /** The visit that is open after a detection starts early enough. */
  lemma SeenVisitShort(s: Trace, e: Event, s': Trace, maxKeys: nat, knobs: Knobs, d: real)
    requires Step(s, e, s', maxKeys) && e.SeenAt? && AllWellTimed(s) && Bounded(s, knobs, d)
    requires Paced(s, e, knobs, d) && SaneKnobs(knobs, d)
    ensures Live(s'.visits, e.key) && ShortSoFar(s'.visits[e.key], s'.lastTick, knobs, d)
  {
    if Live(s.visits, e.key) {
      assert ShortSoFar(s.visits[e.key], s.lastTick, knobs, d);
      assert WellTimed(s.visits[e.key], s.clock, s.nextId);
    }
  }

  lemma StepBounded(s: Trace, e: Event, s': Trace, maxKeys: nat, knobs: Knobs, d: real)
    requires Step(s, e, s', maxKeys) && AllWellTimed(s) && Bounded(s, knobs, d)
    requires Paced(s, e, knobs, d) && SaneKnobs(knobs, d)
    ensures Bounded(s', knobs, d)
  {
    match e
    case TickAt(now, absence, out) =>
      TickBounded(s, e, s', maxKeys, knobs, d);
    case SeenAt(key, now, ks, out) =>
      SeenWindowShort(s, e, s', maxKeys, knobs, d);
      SeenVisitShort(s, e, s', maxKeys, knobs, d);
      forall i | 0 <= i < |s'.log| ensures ShortWindow(s'.log[i], s'.clock, knobs, d) {
        if i < |s.log| {
          assert ShortWindow(s.log[i], s.clock, knobs, d);
        } else {
          assert s'.log[i] == out[i - |s.log|];
        }
      }
      forall k | Live(s'.visits, k) ensures ShortSoFar(s'.visits[k], s'.lastTick, knobs, d) {
        if k != key {
          ObserveKeepsOthers(s.visits, s'.visits, key, now, ks, s.nextId, maxKeys, out, k);
        }
      }
    case Forgotten(key) =>
  }

  /** No window is longer than max_visit + absence + max(pre_roll, absence + d). */
  lemma {:induction false} LengthBoundOnEveryRun(
    states: seq<Trace>, events: seq<Event>, maxKeys: nat, knobs: Knobs, d: real, n: nat)
    requires Run(states, events, maxKeys) && n < |states|
    requires forall i :: 0 <= i < |events| ==> Paced(states[i], events[i], knobs, d)
    requires SaneKnobs(knobs, d)
    ensures Bounded(states[n], knobs, d)
  {
    if n > 0 {
      LengthBoundOnEveryRun(states, events, maxKeys, knobs, d, n - 1);
      CoverageOnEveryRun(states, events, maxKeys, n - 1);
      StepBounded(states[n - 1], events[n - 1], states[n], maxKeys, knobs, d);
    }
  }
}
