/** Whole runs of the emit gate under fixed sliders and a clock that never goes
    back. */
module PresenceRuns {
  import opened Collections
  import opened Presence

  datatype Detection = Detection(key: Key, box: Box, now: real)

  datatype Config = Config(knobs: Knobs, threshold: real, maxKeys: nat)

  /** The gate's table, the latest emit of every key that ever emitted, and the
      keys the size cap has thrown out. */
  datatype State = State(table: Table, clock: real, latest: map<Key, real>, evicted: set<Key>)

  predicate Sane(c: Config) {
    c.knobs.clip >= c.knobs.minGap > 0.0 && c.knobs.gap >= 0.0
  }

  function CapVictims(t: Table, t': Table, d: Detection, gap: real): set<Key> {
    set k | k in t && k != d.key && !Lapsed(t[k], d.now, gap) && k !in t'
  }

  ghost predicate Step(s: State, d: Detection, v: Verdict, s': State, c: Config) {
    && s.clock <= d.now
    && Gated(s.table, s'.table, d.key, d.box, d.now, c.knobs, c.threshold, c.maxKeys, v)
    && s' == s.(table := s'.table, clock := d.now,
                latest := if v.emit then s.latest[d.key := d.now] else s.latest,
                evicted := s.evicted + CapVictims(s.table, s'.table, d, c.knobs.gap))
  }

  ghost predicate Run(states: seq<State>, ds: seq<Detection>, vs: seq<Verdict>, c: Config) {
    && |states| == |ds| + 1 && |vs| == |ds|
    && states[0] == State(map[], states[0].clock, map[], {})
    && forall i :: 0 <= i < |ds| ==> Step(states[i], ds[i], vs[i], states[i + 1], c)
  }

  predicate EntryOk(s: State, k: Key, c: Config)
    requires k in s.table
  {
    var e := s.table[k];
    && k in s.latest && e.lastEmit == s.latest[k] && e.clipEndsAt == e.lastEmit + c.knobs.clip
    && e.lastEmit <= e.lastSeen <= s.clock
  }

  /** A key that has emitted is in the table, or its presence lapsed after its
      last emit, or the cap threw it out. */
  predicate LatestOk(s: State, k: Key, c: Config)
    requires k in s.latest
  {
    s.latest[k] <= s.clock && (k in s.table || k in s.evicted || s.clock - s.latest[k] > c.knobs.gap)
  }

  ghost predicate Inv(s: State, c: Config) {
    && (forall k :: k in s.table ==> EntryOk(s, k, c))
    && (forall k :: k in s.latest ==> LatestOk(s, k, c))
    && |s.table| <= c.maxKeys + 1
  }

  lemma GatedElsewhere(t: Table, t': Table, d: Detection, c: Config, v: Verdict, k: Key)
    requires Gated(t, t', d.key, d.box, d.now, c.knobs, c.threshold, c.maxKeys, v) && k != d.key
    ensures k in t' ==> k in t && t'[k] == t[k]
    ensures k in t && k !in t' ==> Lapsed(t[k], d.now, c.knobs.gap) || k in CapVictims(t, t', d, c.knobs.gap)
  {
  }

  lemma GatedSize(t: Table, t': Table, d: Detection, c: Config, v: Verdict)
    requires Gated(t, t', d.key, d.box, d.now, c.knobs, c.threshold, c.maxKeys, v) && |t| <= c.maxKeys + 1
    ensures |t'| <= c.maxKeys + 1
  {
    if d.key in t && !Lapsed(t[d.key], d.now, c.knobs.gap) {
      UpdateSize(t, d.key, t'[d.key]);
    } else {
      var p :| Pruned(t, p, d.now, c.knobs.gap, c.maxKeys) && t' == p[d.key := t'[d.key]];
      PrunedSize(t, p, d.now, c.knobs.gap, c.maxKeys);
      hide Pruned;
      UpdateSize(p, d.key, t'[d.key]);
    }
  }

  lemma UpdateSize(t: Table, k: Key, e: Entry)
    ensures |t[k := e]| == |t| + if k in t then 0 else 1
  {
    assert t[k := e].Keys == t.Keys + {k};
    assert |t[k := e]| == |t[k := e].Keys| && |t| == |t.Keys|;
  }

  /** A prune gets down to the cap, and leaves room for one more only if fewer
      than the cap are unlapsed. */
  lemma PrunedSize(t: Table, p: Table, now: real, gap: real, maxKeys: nat)
    requires Pruned(t, p, now, gap, maxKeys) && |t| <= maxKeys + 1
    ensures |p| <= maxKeys && (|p| < maxKeys <==> |Unlapsed(t, now, gap)| < maxKeys)
    ensures forall k :: k in p ==> k in t && !Lapsed(t[k], now, gap)
  {
    var kept := Unlapsed(t, now, gap);
    SubsetSize(kept.Keys, t.Keys);
    assert |kept| == |kept.Keys| && |t| == |t.Keys|;
    if |kept| > maxKeys {
      var k :| k in kept && p == kept - {k};
      assert p.Keys == kept.Keys - {k};
      assert |p| == |p.Keys|;
    }
  }

  lemma StepKeepsInv(s: State, d: Detection, v: Verdict, s': State, c: Config)
    requires Inv(s, c) && Step(s, d, v, s', c) && Sane(c)
    ensures Inv(s', c)
  {
    GatedSize(s.table, s'.table, d, c, v);
    forall k | k in s'.table ensures EntryOk(s', k, c) {
      if k != d.key { GatedElsewhere(s.table, s'.table, d, c, v, k); }
      if k in s.table { assert EntryOk(s, k, c); }
    }
    forall k | k in s'.latest ensures LatestOk(s', k, c) {
      if k != d.key {
        GatedElsewhere(s.table, s'.table, d, c, v, k);
        assert LatestOk(s, k, c);
        if k in s.table { assert EntryOk(s, k, c); }
      }
    }
  }

  lemma {:induction false} InvOnEveryRun(states: seq<State>, ds: seq<Detection>, vs: seq<Verdict>, c: Config, n: nat)
    requires Run(states, ds, vs, c) && Sane(c) && n < |states|
    ensures Inv(states[n], c)
  {
    if n > 0 {
      var i := n - 1;
      InvOnEveryRun(states, ds, vs, c, i);
      assert Step(states[i], ds[i], vs[i], states[i + 1], c);
      StepKeepsInv(states[i], ds[i], vs[i], states[n], c);
    }
  }

  /** Nothing is lost: a detection that does not emit falls inside the clip of
      its key's latest emit. */
  lemma SuppressedIsRecorded(states: seq<State>, ds: seq<Detection>, vs: seq<Verdict>, c: Config, n: nat)
    requires Run(states, ds, vs, c) && Sane(c) && n < |ds| && !vs[n].emit
    ensures ds[n].key in states[n].latest
    ensures states[n].latest[ds[n].key] <= ds[n].now < states[n].latest[ds[n].key] + c.knobs.clip
  {
    InvOnEveryRun(states, ds, vs, c, n);
    assert Step(states[n], ds[n], vs[n], states[n + 1], c);
    assert EntryOk(states[n], ds[n].key, c);
  }

  /** No spam: unless the size cap threw the key out, an emit comes at least
      min(min_gap, clip, gap) after the last one of its key; and the table
      stays within one of its cap. */
  lemma EmitsAreSpaced(states: seq<State>, ds: seq<Detection>, vs: seq<Verdict>, c: Config, n: nat)
    requires Run(states, ds, vs, c) && Sane(c) && n < |ds| && vs[n].emit
    requires ds[n].key in states[n].latest && ds[n].key !in states[n].evicted
    ensures ds[n].now - states[n].latest[ds[n].key] >= Min(c.knobs.minGap, Min(c.knobs.clip, c.knobs.gap))
    ensures |states[n].table| <= c.maxKeys + 1
  {
    InvOnEveryRun(states, ds, vs, c, n);
    var s, k := states[n], ds[n].key;
    assert Step(s, ds[n], vs[n], states[n + 1], c);
    assert LatestOk(s, k, c);
    if k in s.table { assert EntryOk(s, k, c); }
  }

  // ------------------------------------------------------------- simulation

  /** A reference gate that never forgets, on boxes in another frame. */
  function RefVerdict(t: Table, d: Detection, c: Config): Verdict {
    if d.key in t && !Lapsed(t[d.key], d.now, c.knobs.gap) then
      Continue(t[d.key], d.key, d.box, d.now, c.knobs, c.threshold)
    else Fresh(t, d.key, d.box)
  }

  function RefNext(t: Table, d: Detection, c: Config): Table {
    if d.key in t && !Lapsed(t[d.key], d.now, c.knobs.gap) then
      t[d.key := Continued(t[d.key], d.box, d.now, c.knobs.clip, RefVerdict(t, d, c))]
    else t[d.key := NewEntry(d.box, d.now, c.knobs.clip)]
  }

  function InFrame(f: Frame, d: Detection): Detection {
    d.(box := Moved(f, d.box))
  }

  /** The table after the reference has seen `ds`. */
  function RefTable(ds: seq<Detection>, c: Config): Table {
    if ds == [] then map[] else RefNext(RefTable(ds[..|ds| - 1], c), ds[|ds| - 1], c)
  }

  predicate SameEntry(f: Frame, e: Entry, ref: Entry) {
    ref == e.(box := Moved(f, e.box))
  }

  /** The reference knows every live key alike, and what only it remembers has
      lapsed. */
  ghost predicate Simulates(f: Frame, s: State, ref: Table, c: Config) {
    && (forall k :: k in s.table ==> k in ref && SameEntry(f, s.table[k], ref[k]))
    && (forall k :: k in ref && k !in s.table ==> Lapsed(ref[k], s.clock, c.knobs.gap))
  }

  lemma StepSimulates(f: Frame, s: State, d: Detection, v: Verdict, s': State, ref: Table, c: Config)
    requires Proper(f) && Simulates(f, s, ref, c) && Step(s, d, v, s', c) && s'.evicted == {}
    ensures Simulates(f, s', RefNext(ref, InFrame(f, d), c), c)
    ensures RefVerdict(ref, InFrame(f, d), c).emit == v.emit
  {
    if d.key in s.table { IouInvariant(f, d.box, s.table[d.key].box); }
    var ref' := RefNext(ref, InFrame(f, d), c);
    forall k | k in s'.table ensures k in ref' && SameEntry(f, s'.table[k], ref'[k]) {
      if k != d.key { GatedElsewhere(s.table, s'.table, d, c, v, k); }
    }
    forall k | k in ref' && k !in s'.table ensures Lapsed(ref'[k], s'.clock, c.knobs.gap) {
      assert k != d.key;
      if k in s.table {
        GatedElsewhere(s.table, s'.table, d, c, v, k);
        assert k !in CapVictims(s.table, s'.table, d, c.knobs.gap);
      }
    }
  }

  /** While the cap does not fire, the gate emits exactly when a reference does
      that never drops a key and sees every box shifted and rescaled per axis. */
  lemma {:induction false} EmitsLikeReference(f: Frame, states: seq<State>, ds: seq<Detection>, vs: seq<Verdict>,
                                              c: Config, moved: seq<Detection>, n: nat)
    requires Proper(f) && Run(states, ds, vs, c) && n < |states|
    requires |moved| == |ds| && forall i :: 0 <= i < |ds| ==> moved[i] == InFrame(f, ds[i])
    requires forall i :: 0 <= i < |states| ==> states[i].evicted == {}
    ensures Simulates(f, states[n], RefTable(moved[..n], c), c)
    ensures n < |ds| ==> RefVerdict(RefTable(moved[..n], c), moved[n], c).emit == vs[n].emit
  {
    if n > 0 {
      var i := n - 1;
      EmitsLikeReference(f, states, ds, vs, c, moved, i);
      assert Step(states[i], ds[i], vs[i], states[i + 1], c);
      hide Step, Simulates, RefVerdict;
      StepSimulates(f, states[i], ds[i], vs[i], states[n], RefTable(moved[..i], c), c);
      assert moved[..n][..i] == moved[..i];
    }
    if n < |ds| {
      assert Step(states[n], ds[n], vs[n], states[n + 1], c);
      StepSimulates(f, states[n], ds[n], vs[n], states[n + 1], RefTable(moved[..n], c), c);
    }
  }

  // -------------------------------------------------------------- the bound

  /** The key's presence goes on. */
  predicate Continues(t: Table, d: Detection, c: Config) {
    d.key in t && !Lapsed(t[d.key], d.now, c.knobs.gap)
  }

  /** Exactly when one call leaves the table within its cap: a presence that goes
      on changes nothing, a fresh one needs a place among the unlapsed. */
  lemma WithinCapExactly(t: Table, t': Table, d: Detection, c: Config, v: Verdict)
    requires Gated(t, t', d.key, d.box, d.now, c.knobs, c.threshold, c.maxKeys, v) && |t| <= c.maxKeys + 1
    ensures |t'| <= c.maxKeys <==>
              if Continues(t, d, c) then |t| <= c.maxKeys else |Unlapsed(t, d.now, c.knobs.gap)| < c.maxKeys
  {
    if Continues(t, d, c) {
      UpdateSize(t, d.key, t'[d.key]);
    } else {
      var p :| Pruned(t, p, d.now, c.knobs.gap, c.maxKeys) && t' == p[d.key := t'[d.key]];
      PrunedSize(t, p, d.now, c.knobs.gap, c.maxKeys);
      hide Pruned;
      UpdateSize(p, d.key, t'[d.key]);
    }
  }

  /** The call starts a fresh presence although the cap is already full of
      unlapsed ones. */
  predicate Overfills(s: State, d: Detection, c: Config) {
    !Continues(s.table, d, c) && |Unlapsed(s.table, d.now, c.knobs.gap)| >= c.maxKeys
  }

  lemma {:induction false} SizeOnRuns(states: seq<State>, ds: seq<Detection>, vs: seq<Verdict>, c: Config, n: nat)
    requires Run(states, ds, vs, c) && n < |states|
    ensures |states[n].table| <= c.maxKeys + 1
  {
    if n > 0 {
      var i := n - 1;
      SizeOnRuns(states, ds, vs, c, i);
      assert Step(states[i], ds[i], vs[i], states[i + 1], c);
      GatedSize(states[i].table, states[n].table, ds[i], c, vs[i]);
    }
  }

  /** The last of the first `n` calls to start a fresh presence overfilled. */
  ghost predicate Overfilled(states: seq<State>, ds: seq<Detection>, c: Config, n: nat)
    requires n <= |ds| < |states|
  {
    exists k :: 0 <= k < n && Overfills(states[k], ds[k], c) && OnlyContinues(states, ds, c, k + 1, n)
  }

  predicate OnlyContinues(states: seq<State>, ds: seq<Detection>, c: Config, from: nat, n: nat)
    requires n <= |ds| < |states|
  {
    forall j :: from <= j < n ==> Continues(states[j].table, ds[j], c)
  }

  lemma OverfilledOneMore(states: seq<State>, ds: seq<Detection>, c: Config, n: nat)
    requires n < |ds| < |states|
    ensures Overfilled(states, ds, c, n + 1) <==>
              if Continues(states[n].table, ds[n], c) then Overfilled(states, ds, c, n) else Overfills(states[n], ds[n], c)
  {
    if Continues(states[n].table, ds[n], c) {
      if k :| 0 <= k < n && Overfills(states[k], ds[k], c) && OnlyContinues(states, ds, c, k + 1, n) {
        assert OnlyContinues(states, ds, c, k + 1, n + 1);
      }
      if k :| 0 <= k < n + 1 && Overfills(states[k], ds[k], c) && OnlyContinues(states, ds, c, k + 1, n + 1) {
        assert k < n && OnlyContinues(states, ds, c, k + 1, n);
      }
    } else if Overfills(states[n], ds[n], c) {
      assert OnlyContinues(states, ds, c, n + 1, n + 1);
    }
  }

  /** On any run the table is over its cap if and only if the last fresh presence
      came when the cap was already full of unlapsed ones. */
  lemma {:induction false} OverCapExactly(states: seq<State>, ds: seq<Detection>, vs: seq<Verdict>, c: Config, n: nat)
    requires Run(states, ds, vs, c) && n < |states|
    ensures |states[n].table| > c.maxKeys <==> Overfilled(states, ds, c, n)
  {
    if n > 0 {
      var i := n - 1;
      OverCapExactly(states, ds, vs, c, i);
      SizeOnRuns(states, ds, vs, c, i);
      assert Step(states[i], ds[i], vs[i], states[i + 1], c);
      WithinCapExactly(states[i].table, states[n].table, ds[i], c, vs[i]);
      hide Step, Run, Overfilled, Continues;
      OverfilledOneMore(states, ds, c, i);
    }
  }

  const NOWHERE: Box := Box(0.0, 0.0, 0.0, 0.0)

  /** A different key for each number. */
  function KeyOf(n: nat): (k: Key)
    ensures |k| == n
  {
    seq(n, i => 'a')
  }

  function Crowd(n: nat, clip: real): Table {
    if n == 0 then map[] else Crowd(n - 1, clip)[KeyOf(n - 1) := NewEntry(NOWHERE, 0.0, clip)]
  }

  function Arrivals(n: nat): map<Key, real> {
    if n == 0 then map[] else Arrivals(n - 1)[KeyOf(n - 1) := 0.0]
  }

  function Crowded(n: nat, c: Config): State {
    State(Crowd(n, c.knobs.clip), 0.0, Arrivals(n), {})
  }

  lemma {:induction false} CrowdSize(n: nat, clip: real)
    ensures |Crowd(n, clip)| == n
    ensures forall k :: k in Crowd(n, clip) ==> |k| < n && Crowd(n, clip)[k] == NewEntry(NOWHERE, 0.0, clip)
  {
    if n > 0 {
      var t, k := Crowd(n - 1, clip), KeyOf(n - 1);
      CrowdSize(n - 1, clip);
      assert k !in t;
      assert Crowd(n, clip) == t[k := NewEntry(NOWHERE, 0.0, clip)];
    }
  }

  /** Nothing has lapsed and the table is within its cap: the next key enters. */
  lemma CrowdGrows(n: nat, c: Config)
    requires Sane(c) && n <= c.maxKeys
    ensures Step(Crowded(n, c), Detection(KeyOf(n), NOWHERE, 0.0), Fresh(map[], KeyOf(n), NOWHERE), Crowded(n + 1, c), c)
  {
    var t, d := Crowd(n, c.knobs.clip), Detection(KeyOf(n), NOWHERE, 0.0);
    CrowdSize(n, c.knobs.clip);
    assert d.key !in t;
    var t' := t[d.key := NewEntry(NOWHERE, 0.0, c.knobs.clip)];
    assert Crowd(n + 1, c.knobs.clip) == t';
    assert Unlapsed(t, 0.0, c.knobs.gap) == t;
    assert Pruned(t, t, 0.0, c.knobs.gap, c.maxKeys);
    assert CapVictims(t, t', d, c.knobs.gap) == {};
  }

  lemma RunGrows(states: seq<State>, ds: seq<Detection>, vs: seq<Verdict>, c: Config, d: Detection, v: Verdict, s': State)
    requires Run(states, ds, vs, c) && Step(states[|ds|], d, v, s', c)
    ensures Run(states + [s'], ds + [d], vs + [v], c)
  {
    var states', ds', vs' := states + [s'], ds + [d], vs + [v];
    hide Step;
    forall i | 0 <= i < |ds'| ensures Step(states'[i], ds'[i], vs'[i], states'[i + 1], c) {
      if i < |ds| { assert Step(states[i], ds[i], vs[i], states[i + 1], c); }
    }
  }

  /** The table does exceed its cap: one entry more than the cap is reached by as
      many first sightings, because the prune comes before the insert. */
  lemma {:induction false} CapIsExceeded(c: Config, n: nat) returns (states: seq<State>, ds: seq<Detection>, vs: seq<Verdict>)
    requires Sane(c) && n <= c.maxKeys + 1
    ensures Run(states, ds, vs, c) && |ds| == n && states[n] == Crowded(n, c) && |states[n].table| == n
  {
    CrowdSize(n, c.knobs.clip);
    if n == 0 {
      states, ds, vs := [Crowded(0, c)], [], [];
    } else {
      states, ds, vs := CapIsExceeded(c, n - 1);
      CrowdGrows(n - 1, c);
      hide Step, Run, Crowd, Arrivals, Fresh;
      var d, v := Detection(KeyOf(n - 1), NOWHERE, 0.0), Fresh(map[], KeyOf(n - 1), NOWHERE);
      RunGrows(states, ds, vs, c, d, v, Crowded(n, c));
      RunLength(states, ds, vs, c);
      states, ds, vs := states + [Crowded(n, c)], ds + [d], vs + [v];
    }
  }

  lemma RunLength(states: seq<State>, ds: seq<Detection>, vs: seq<Verdict>, c: Config)
    requires Run(states, ds, vs, c)
    ensures |states| == |ds| + 1
  {
  }
}
