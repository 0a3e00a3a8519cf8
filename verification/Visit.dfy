/** The visit state machine: a per-key stream of present detections becomes
    open / extend / finalize transitions, one window per visit.

    `Observed` and `Ticked` say what one call may do; `VisitTracker` is the
    object that does it.  Ties between equally old records are left open by
    `Pruned`, as is the order in which a tick walks over the keys. */
module VisitLifecycle {
  import opened Collections

  type Key = string
  type VisitId = nat

  /** A finalized record stays in the table as `Idle` until the next prune. */
  datatype Record =
    | Idle(lastSeen: real)
    | Present(visitId: VisitId, startedAt: real, lastSeen: real, startTs: real, segmentIndex: nat)

  datatype Transition =
    | Open(key: Key, visitId: VisitId, startTs: real, segmentIndex: nat)
    | Extend(key: Key, visitId: VisitId, endTs: real)
    | Finalize(key: Key, visitId: VisitId, startTs: real, endTs: real, segmentIndex: nat)

  /** The operator's sliders.  They are arguments of every call, so they may
      differ from one call to the next. */
  datatype Knobs = Knobs(preRoll: real, absence: real, maxVisit: real)

  type Visits = map<Key, Record>

  predicate Live(v: Visits, k: Key) {
    k in v && v[k].Present?
  }

  function LivePart(v: Visits): Visits {
    map k | k in v && v[k].Present? :: v[k]
  }

  /** The finalize transition that closes `r` at `endTs`. */
  function Closing(k: Key, r: Record, endTs: real): Transition
    requires r.Present?
  {
    Finalize(k, r.visitId, r.startTs, endTs, r.segmentIndex)
  }

  predicate Expired(v: Visits, k: Key, now: real, absence: real) {
    Live(v, k) && now > v[k].lastSeen + absence
  }

  /** How many ids of the factory the transitions of one observe use up. */
  function Opens(out: seq<Transition>): nat {
    if out != [] && out[|out| - 1].Open? then 1 else 0
  }

  /** `v'` is a legal outcome of pruning `v`: idle records are gone, and when
      the live ones leave no room for one more, just enough of the longest
      unseen ones are evicted. */
  ghost predicate Pruned(v: Visits, v': Visits, maxKeys: nat) {
    var live := LivePart(v);
    && (forall k :: k in v' ==> k in live && v'[k] == live[k])
    && (|live| < maxKeys ==> v' == live)
    && (|live| >= maxKeys ==> |v'| + 1 == maxKeys)
    && (forall e, s :: e in live && e !in v' && s in v' ==> live[e].lastSeen <= live[s].lastSeen)
  }

  /** A fresh visit `r` was inserted under `k` right after a prune. */
  ghost predicate Inserted(v: Visits, v': Visits, k: Key, r: Record, maxKeys: nat) {
    && k in v' && v'[k] == r
    && Pruned(v, v' - {k}, maxKeys)
  }

  /** First sight of `k`: a fresh visit, reaching back by the pre-roll. */
  ghost predicate Starts(v: Visits, v': Visits, k: Key, now: real, preRoll: real,
                         id: VisitId, maxKeys: nat, tr: Transition)
  {
    && Inserted(v, v', k, Present(id, now, now, now - preRoll, 0), maxKeys)
    && tr == Open(k, id, now - preRoll, 0)
  }

  /** A still-present subject hits the cap: adjacent windows, no pre-roll. */
  ghost predicate Splits(v: Visits, v': Visits, k: Key, now: real, maxVisit: real,
                         id: VisitId, out: seq<Transition>)
    requires Live(v, k)
  {
    var boundary, seg := v[k].startedAt + maxVisit, v[k].segmentIndex + 1;
    && out == [Closing(k, v[k], boundary), Open(k, id, boundary, seg)]
    && v' == v[k := Present(id, now, now, boundary, seg)]
  }

  /** The subject had left: close at the deadline, then a fresh visit. */
  ghost predicate Reopens(v: Visits, v': Visits, k: Key, now: real, knobs: Knobs,
                          id: VisitId, maxKeys: nat, out: seq<Transition>)
    requires Live(v, k)
  {
    && |out| == 2
    && out[0] == Closing(k, v[k], v[k].lastSeen + knobs.absence)
    && Starts(v[k := Idle(now)], v', k, now, knobs.preRoll, id, maxKeys, out[1])
  }

  ghost predicate Extends(v: Visits, v': Visits, k: Key, now: real, out: seq<Transition>)
    requires Live(v, k)
  {
    && out == [Extend(k, v[k].visitId, now)]
    && v' == v[k := v[k].(lastSeen := now)]
  }

  /** What `observe` may do with a present detection of `k` at `now`; `id` is
      the next id of the factory. */
  ghost predicate Observed(v: Visits, v': Visits, k: Key, now: real, knobs: Knobs,
                           id: VisitId, maxKeys: nat, out: seq<Transition>)
  {
    if !Live(v, k) then
      |out| == 1 && Starts(v, v', k, now, knobs.preRoll, id, maxKeys, out[0])
    else if now - v[k].startedAt >= knobs.maxVisit then
      Splits(v, v', k, now, knobs.maxVisit, id, out)
    else if Expired(v, k, now, knobs.absence) then
      Reopens(v, v', k, now, knobs, id, maxKeys, out)
    else
      Extends(v, v', k, now, out)
  }

  /** `v` after the tick has dealt with the keys in `done`. */
  function Advanced(v: Visits, done: set<Key>, now: real, absence: real): Visits {
    map k | k in v :: if k in done && Expired(v, k, now, absence) then Idle(now) else v[k]
  }

  predicate ClosesAtDeadline(v: Visits, now: real, absence: real, tr: Transition) {
    && Expired(v, tr.key, now, absence)
    && tr == Closing(tr.key, v[tr.key], v[tr.key].lastSeen + absence)
  }

  predicate Closes(out: seq<Transition>, k: Key) {
    exists i :: 0 <= i < |out| && out[i].key == k
  }

  /** `out` closes exactly the expired visits among `done`, each once, at its
      deadline. */
  ghost predicate ClosesExpired(v: Visits, done: set<Key>, now: real, absence: real, out: seq<Transition>) {
    && (forall i :: 0 <= i < |out| ==> out[i].key in done && ClosesAtDeadline(v, now, absence, out[i]))
    && (forall i, j :: 0 <= i < j < |out| ==> out[i].key != out[j].key)
    && (forall k :: k in done && Expired(v, k, now, absence) ==> Closes(out, k))
  }

  /** A tick that has dealt with the keys in `done` made `v` into `v'`. */
  ghost predicate TickedSoFar(v: Visits, v': Visits, done: set<Key>, now: real, absence: real, out: seq<Transition>) {
    && v' == Advanced(v, done, now, absence)
    && ClosesExpired(v, done, now, absence, out)
  }

  /** What `tick` may do: every expired visit becomes idle, nothing else moves. */
  ghost predicate Ticked(v: Visits, v': Visits, now: real, absence: real, out: seq<Transition>) {
    TickedSoFar(v, v', v.Keys, now, absence, out)
  }

  lemma CloseOneMore(v: Visits, v': Visits, done: set<Key>, now: real, absence: real, out: seq<Transition>, k: Key)
    requires TickedSoFar(v, v', done, now, absence, out) && k !in done && Expired(v, k, now, absence)
    ensures TickedSoFar(v, v'[k := Idle(now)], done + {k}, now, absence,
                        out + [Closing(k, v[k], v[k].lastSeen + absence)])
  {
    var out' := out + [Closing(k, v[k], v[k].lastSeen + absence)];
    assert out'[|out|].key == k;
    forall j | j in done + {k} && Expired(v, j, now, absence) ensures Closes(out', j) {
      if j != k {
        var i :| 0 <= i < |out| && out[i].key == j;
        assert out'[i].key == j;
      }
    }
  }

  lemma KeepOneMore(v: Visits, v': Visits, done: set<Key>, now: real, absence: real, out: seq<Transition>, k: Key)
    requires TickedSoFar(v, v', done, now, absence, out) && !Expired(v, k, now, absence)
    ensures TickedSoFar(v, v', done + {k}, now, absence, out)
  {
  }

  function Ages(v: Visits): map<Key, real> {
    map k | k in v :: v[k].lastSeen
  }

  class VisitTracker {
    const maxKeys: nat
    var visits: Visits
    var nextId: VisitId

    constructor (maxKeys: nat, firstId: VisitId)
      requires maxKeys >= 1
      ensures this.maxKeys == maxKeys && visits == map[] && nextId == firstId
    {
      this.maxKeys := maxKeys;
      visits, nextId := map[], firstId;
    }

    method Prune()
      requires maxKeys >= 1
      modifies this`visits
      ensures Pruned(old(visits), visits, maxKeys)
    {
      ghost var live := LivePart(visits);
      var idle := set k | k in visits && visits[k].Idle?;
      visits := visits - idle;
      assert visits == live;
      while |visits| >= maxKeys
        invariant forall k :: k in visits ==> k in live && visits[k] == live[k]
        invariant |live| < maxKeys ==> visits == live
        invariant |live| >= maxKeys ==> |visits| + 1 >= maxKeys
        invariant forall e, s :: e in live && e !in visits && s in visits ==> live[e].lastSeen <= live[s].lastSeen
        decreases |visits|
      {
        LeastExists(visits.Keys, Ages(visits));
        var oldest :| oldest in visits && IsLeast(visits.Keys, Ages(visits), oldest);
        ghost var before := visits;
        visits := visits - {oldest};
        assert visits.Keys == before.Keys - {oldest};
      }
    }

    method Observe(key: Key, now: real, knobs: Knobs) returns (out: seq<Transition>)
      requires maxKeys >= 1
      modifies this
      ensures Observed(old(visits), visits, key, now, knobs, old(nextId), maxKeys, out)
      ensures nextId == old(nextId) + Opens(out)
    {
      if !Live(visits, key) {
        var tr := StartVisit(key, now, knobs.preRoll);
        out := [tr];
      } else if now - visits[key].startedAt >= knobs.maxVisit {
        out := SplitAtCap(key, now, knobs.maxVisit);
      } else if now > visits[key].lastSeen + knobs.absence {
        var fin := FinalizeVisit(key, visits[key].lastSeen + knobs.absence, now, true);
        var tr := StartVisit(key, now, knobs.preRoll);
        out := [fin, tr];
      } else {
        visits := visits[key := visits[key].(lastSeen := now)];
        out := [Extend(key, visits[key].visitId, now)];
      }
    }

    method SplitAtCap(key: Key, now: real, maxVisit: real) returns (out: seq<Transition>)
      requires Live(visits, key)
      modifies this
      ensures Splits(old(visits), visits, key, now, maxVisit, old(nextId), out)
      ensures nextId == old(nextId) + Opens(out)
    {
      var boundary, segment := visits[key].startedAt + maxVisit, visits[key].segmentIndex;
      var fin := FinalizeVisit(key, boundary, now, false);
      var tr := OpenVisit(key, now, boundary, segment + 1);
      out := [fin, tr];
    }

    method StartVisit(key: Key, now: real, preRoll: real) returns (tr: Transition)
      requires maxKeys >= 1 && !Live(visits, key)
      modifies this
      ensures Starts(old(visits), visits, key, now, preRoll, old(nextId), maxKeys, tr)
      ensures nextId == old(nextId) + 1 && tr.Open?
    {
      Prune();
      ghost var pruned := visits;
      assert key !in pruned;
      tr := OpenVisit(key, now, now - preRoll, 0);
      assert visits - {key} == pruned;
    }

    method Tick(now: real, absence: real) returns (out: seq<Transition>)
      modifies this`visits
      ensures Ticked(old(visits), visits, now, absence, out)
    {
      out := [];
      var todo := visits.Keys;
      ghost var v0 := visits;
      while todo != {}
        invariant todo <= v0.Keys
        invariant TickedSoFar(v0, visits, v0.Keys - todo, now, absence, out)
        decreases todo
      {
        var key :| key in todo;
        out := TickKey(key, now, absence, v0, v0.Keys - todo, out);
        assert v0.Keys - (todo - {key}) == v0.Keys - todo + {key};
        todo := todo - {key};
      }
      assert v0.Keys - todo == v0.Keys;
    }

    method TickKey(key: Key, now: real, absence: real, ghost v0: Visits, ghost done: set<Key>, out: seq<Transition>)
      returns (out': seq<Transition>)
      requires key in v0 && key !in done && TickedSoFar(v0, visits, done, now, absence, out)
      modifies this`visits
      ensures TickedSoFar(v0, visits, done + {key}, now, absence, out')
    {
      if Live(visits, key) && now > visits[key].lastSeen + absence {
        CloseOneMore(v0, visits, done, now, absence, out, key);
        var fin := FinalizeVisit(key, visits[key].lastSeen + absence, now, true);
        out' := out + [fin];
      } else {
        KeepOneMore(v0, visits, done, now, absence, out, key);
        out' := out;
      }
    }

    /** Roll back an open that the runner refused. */
    method Forget(key: Key)
      modifies this`visits
      ensures visits == old(visits) - {key}
    {
      visits := visits - {key};
    }

    function Snapshot(): Visits
      reads this
    {
      LivePart(visits)
    }

    method OpenVisit(key: Key, now: real, startTs: real, segmentIndex: nat) returns (tr: Transition)
      modifies this
      ensures visits == old(visits)[key := Present(old(nextId), now, now, startTs, segmentIndex)]
      ensures nextId == old(nextId) + 1
      ensures tr == Open(key, old(nextId), startTs, segmentIndex)
    {
      visits := visits[key := Present(nextId, now, now, startTs, segmentIndex)];
      tr := Open(key, nextId, startTs, segmentIndex);
      nextId := nextId + 1;
    }

    method FinalizeVisit(key: Key, endTs: real, now: real, clampToNow: bool) returns (tr: Transition)
      requires Live(visits, key)
      modifies this`visits
      ensures visits == old(visits)[key := Idle(now)]
      ensures tr == Closing(key, old(visits)[key], if clampToNow && endTs > now then now else endTs)
    {
      tr := Closing(key, visits[key], if clampToNow && endTs > now then now else endTs);
      visits := visits[key := Idle(now)];
    }
  }
}
