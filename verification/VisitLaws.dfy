/** What one call of the tracker does, and what its records mean on whole runs, in
    terms of clock, sliders and detections alone. */
module VisitLaws {
  import opened Collections
  import opened VisitLifecycle
  import opened VisitRuns

  /** What the tracker makes of a detection, case by case. */
  lemma ObservedFirst(v: Visits, v': Visits, k: Key, now: real, knobs: Knobs, id: VisitId, maxKeys: nat, out: seq<Transition>)
    requires Observed(v, v', k, now, knobs, id, maxKeys, out)
    requires !Live(v, k)
    ensures out == [Open(k, id, now - knobs.preRoll, 0)]
    ensures k in v' && v'[k] == Present(id, now, now, now - knobs.preRoll, 0)
  {
    hide Pruned;
  }

  lemma ObservedAgain(v: Visits, v': Visits, k: Key, now: real, knobs: Knobs, id: VisitId, maxKeys: nat, out: seq<Transition>)
    requires Observed(v, v', k, now, knobs, id, maxKeys, out)
    requires Live(v, k) && now - v[k].startedAt < knobs.maxVisit && now <= v[k].lastSeen + knobs.absence
    ensures out == [Extend(k, v[k].visitId, now)] && v' == v[k := v[k].(lastSeen := now)]
  {
    hide Pruned;
  }

  lemma ObservedAtCap(v: Visits, v': Visits, k: Key, now: real, knobs: Knobs, id: VisitId, maxKeys: nat, out: seq<Transition>)
    requires Observed(v, v', k, now, knobs, id, maxKeys, out)
    requires Live(v, k) && now - v[k].startedAt >= knobs.maxVisit
    ensures var cut := v[k].startedAt + knobs.maxVisit;
            && out == [Finalize(k, v[k].visitId, v[k].startTs, cut, v[k].segmentIndex), Open(k, id, cut, v[k].segmentIndex + 1)]
            && v' == v[k := Present(id, now, now, cut, v[k].segmentIndex + 1)]
  {
    hide Pruned;
  }

  lemma ObservedBack(v: Visits, v': Visits, k: Key, now: real, knobs: Knobs, id: VisitId, maxKeys: nat, out: seq<Transition>)
    requires Observed(v, v', k, now, knobs, id, maxKeys, out)
    requires Live(v, k) && now - v[k].startedAt < knobs.maxVisit && now > v[k].lastSeen + knobs.absence
    ensures out == [Finalize(k, v[k].visitId, v[k].startTs, v[k].lastSeen + knobs.absence, v[k].segmentIndex),
                    Open(k, id, now - knobs.preRoll, 0)]
    ensures k in v' && v'[k] == Present(id, now, now, now - knobs.preRoll, 0)
  {
    hide Pruned;
  }

  /** A tick closes a visit if and only if it is past its absence, at its deadline. */
  lemma TickedCases(v: Visits, v': Visits, k: Key, now: real, absence: real, out: seq<Transition>)
    requires Ticked(v, v', now, absence, out) && Live(v, k)
    ensures k in v'
    ensures if now > v[k].lastSeen + absence then
              && v'[k] == Idle(now)
              && Finalize(k, v[k].visitId, v[k].startTs, v[k].lastSeen + absence, v[k].segmentIndex) in out
            else v'[k] == v[k] && forall i :: 0 <= i < |out| ==> out[i].key != k
  {
    if now > v[k].lastSeen + absence {
      assert Closes(out, k);
      var i :| 0 <= i < |out| && out[i].key == k;
      assert ClosesAtDeadline(v, now, absence, out[i]);
    } else {
      forall i | 0 <= i < |out| ensures out[i].key != k { assert ClosesAtDeadline(v, now, absence, out[i]); }
    }
  }

  /** A prune before an open keeps only live records, as many as leave a place for
      the new one, and those it evicts were not seen later than any it keeps. */
  lemma StartEvicts(v: Visits, v': Visits, k: Key, now: real, preRoll: real, id: VisitId, maxKeys: nat, tr: Transition)
    requires Starts(v, v', k, now, preRoll, id, maxKeys, tr) && maxKeys >= 1
    ensures var live, kept := (set j | j in v && v[j].Present?), v'.Keys - {k};
            && kept <= live && (forall j :: j in kept ==> v'[j] == v[j])
            && |kept| == (if |live| < maxKeys then |live| else maxKeys - 1)
            && (|live| < maxKeys ==> kept == live)
            && forall e, j :: e in live && e !in kept && j in kept ==> v[e].lastSeen <= v[j].lastSeen
  {
    var live, kept := (set j | j in v && v[j].Present?), v'.Keys - {k};
    var p := v' - {k};
    assert LivePart(v).Keys == live && p.Keys == kept;
    assert |LivePart(v)| == |live| && |p| == |kept|;
    forall e, j | e in live && e !in kept && j in kept ensures v[e].lastSeen <= v[j].lastSeen {
      assert e in LivePart(v) && e !in p && j in p;
    }
  }

  // ---------------------------------------------------------- on whole runs

  /** What the record of a live visit knows is what was seen: its last sighting is
      the latest detection of its key, and it was opened for a detection too. */
  ghost predicate Remembers(s: Trace, k: Key) {
    Live(s.visits, k) ==>
      && (k, s.visits[k].lastSeen) in s.seen && (k, s.visits[k].startedAt) in s.seen
      && forall t :: (k, t) in s.seen ==> t <= s.visits[k].lastSeen
  }

  ghost predicate SeenByNow(s: Trace) {
    forall k, t :: (k, t) in s.seen ==> t <= s.clock
  }

  lemma StepRemembers(s: Trace, e: Event, s': Trace, maxKeys: nat, k: Key)
    requires Step(s, e, s', maxKeys) && Remembers(s, k) && SeenByNow(s)
    ensures Remembers(s', k) && SeenByNow(s')
  {
    match e
    case TickAt(now, absence, out) => if Live(s.visits, k) { TickedCases(s.visits, s'.visits, k, now, absence, out); }
    case Forgotten(key) =>
    case SeenAt(key, now, knobs, out) =>
      if k != key { ObserveKeepsOthers(s.visits, s'.visits, key, now, knobs, s.nextId, maxKeys, out, k); }
  }

  lemma {:induction false} RemembersOnEveryRun(states: seq<Trace>, events: seq<Event>, maxKeys: nat, n: nat, k: Key)
    requires Run(states, events, maxKeys) && n < |states|
    ensures Remembers(states[n], k) && SeenByNow(states[n])
  {
    if n > 0 {
      RemembersOnEveryRun(states, events, maxKeys, n - 1, k);
      assert Step(states[n - 1], events[n - 1], states[n], maxKeys);
      hide Step, Remembers, SeenByNow;
      StepRemembers(states[n - 1], events[n - 1], states[n], maxKeys, k);
    }
  }
}
