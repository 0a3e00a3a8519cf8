/** Boot: recover the visits a crash left open, then sweep what nobody owns. */
module Recovery {
  import opened VisitLifecycle
  import opened VisitRuntime

  const RECOVERY_MAX_FINALIZE_ATTEMPTS: nat := 3

  /** One call of the finalizer. */
  datatype Call = Call(visitId: VisitId, startTs: real, endTs: real)

  datatype Summary = Summary(
    skipped: set<VisitId>, finalized: set<VisitId>, failed: set<VisitId>, abandoned: set<VisitId>)

  predicate ClipIsValid(clips: map<VisitId, Clip>, id: VisitId) {
    id in clips && clips[id].bytes > 0 && clips[id].probe.Valid?
  }

  /** Exactly the footage scratch can hold. */
  function RecoveryCall(id: VisitId, e: Entry, now: real): Call {
    Call(id, e.startTs, if e.lastExtend <= now then e.lastExtend else now)
  }

  function Marked(e: Entry): Entry {
    e.(state := FINALIZING, attempts := e.attempts + 1)
  }

  // -------------------------------------------------------- one whole pass

  /** What one pass meets: the visits whose clip the probe accepts, and those the
      finalizer publishes when asked. */
  datatype Luck = Luck(valid: set<VisitId>, published: set<VisitId>)

  /** The entry is finalized in vain and may be tried again. */
  predicate Stays(t: Table, id: VisitId, luck: Luck)
    requires id in t
  {
    id !in luck.valid && id !in luck.published && t[id].attempts + 1 < RECOVERY_MAX_FINALIZE_ATTEMPTS
  }

  /** The table once the entries in `done` have been dealt with. */
  function Resolved(t: Table, done: set<VisitId>, luck: Luck): Table {
    map id | id in t && (id in done ==> Stays(t, id, luck)) :: if id in done then Marked(t[id]) else t[id]
  }

  function Pass(t: Table, luck: Luck): Table {
    Resolved(t, t.Keys, luck)
  }

  function Passes(t: Table, lucks: seq<Luck>): Table
    decreases |lucks|
  {
    if lucks == [] then t else Passes(Pass(t, lucks[0]), lucks[1..])
  }

  /** How often the finalizer is called for `id` over these passes. */
  function CallsFor(t: Table, lucks: seq<Luck>, id: VisitId): nat
    decreases |lucks|
  {
    if lucks == [] then 0
    else (if id in t && id !in lucks[0].valid then 1 else 0) + CallsFor(Pass(t, lucks[0]), lucks[1..], id)
  }

  /** An entry outlives n passes exactly when none of them found or made its
      clip and its attempts stay under the limit, and then every pass was
      counted. */
  lemma {:induction false} OutlivesPasses(t: Table, lucks: seq<Luck>, id: VisitId)
    requires id in t
    ensures id in Passes(t, lucks) <==>
              && (forall i :: 0 <= i < |lucks| ==> id !in lucks[i].valid && id !in lucks[i].published)
              && (lucks == [] || t[id].attempts + |lucks| < 3)
    ensures id in Passes(t, lucks) ==> Passes(t, lucks)[id].attempts == t[id].attempts + |lucks|
    decreases |lucks|
  {
    if lucks != [] {
      var t1 := Pass(t, lucks[0]);
      if id in t1 {
        OutlivesPasses(t1, lucks[1..], id);
        assert forall i :: 1 <= i < |lucks| ==> lucks[i] == lucks[1..][i - 1];
      } else {
        PassesOnlyRemove(t1, lucks[1..], id);
      }
    }
  }

  lemma {:induction false} PassesOnlyRemove(t: Table, lucks: seq<Luck>, id: VisitId)
    requires id !in t
    ensures id !in Passes(t, lucks) && CallsFor(t, lucks, id) == 0
    decreases |lucks|
  {
    if lucks != [] { PassesOnlyRemove(Pass(t, lucks[0]), lucks[1..], id); }
  }

  /** Any number of complete passes finalize an entry at most three times. */
  lemma {:induction false} AtMostThreeCalls(t: Table, lucks: seq<Luck>, id: VisitId)
    ensures CallsFor(t, lucks, id) <= 3
    ensures id in t && t[id].attempts < 3 ==>
              CallsFor(t, lucks, id) + t[id].attempts <= 3
    ensures id in t && t[id].attempts >= 3 ==> CallsFor(t, lucks, id) <= 1
    decreases |lucks|
  {
    if lucks != [] {
      AtMostThreeCalls(Pass(t, lucks[0]), lucks[1..], id);
      if id !in Pass(t, lucks[0]) { PassesOnlyRemove(Pass(t, lucks[0]), lucks[1..], id); }
    }
  }

  /** Three complete passes leave nothing behind, whatever they met. */
  lemma ThreePassesEmpty(t: Table, lucks: seq<Luck>)
    requires |lucks| >= 3
    ensures Passes(t, lucks) == map[]
  {
    forall id ensures id !in Passes(t, lucks) {
      if id in t { OutlivesPasses(t, lucks, id); } else { PassesOnlyRemove(t, lucks, id); }
    }
  }

  /** The limit is three, no less.  An entry that has not been tried, and that no
      pass finds or publishes, is there after two complete passes, marked twice,
      and gone after the third, which calls the finalizer for the third time. */
  lemma ThirdPassAbandons(t: Table, l0: Luck, l1: Luck, l2: Luck, id: VisitId)
    requires id in t && t[id].attempts == 0
    requires forall l :: l in [l0, l1, l2] ==> id !in l.valid && id !in l.published
    ensures id in Passes(t, [l0, l1]) && Passes(t, [l0, l1])[id] == t[id].(state := FINALIZING, attempts := 2)
    ensures id !in Passes(t, [l0, l1, l2]) && CallsFor(t, [l0, l1, l2], id) == 3
  {
    var t1 := Pass(t, l0);
    var t2 := Pass(t1, l1);
    assert l0 in [l0, l1, l2] && l1 in [l0, l1, l2] && l2 in [l0, l1, l2];
    assert [l0, l1][1..] == [l1] && [l1][1..] == [] && [l0, l1, l2][1..] == [l1, l2] && [l1, l2][1..] == [l2] && [l2][1..] == [];
    assert t1[id] == t[id].(state := FINALIZING, attempts := 1);
    assert t2[id] == t[id].(state := FINALIZING, attempts := 2);
    assert Passes(t, [l0, l1]) == Passes(t1, [l1]) == Passes(t2, []) == t2;
    assert Passes(t2, [l2]) == Passes(Pass(t2, l2), []);
    assert CallsFor(t2, [l2], id) == 1 + CallsFor(Pass(t2, l2), [], id);
    assert CallsFor(t1, [l1, l2], id) == 1 + CallsFor(t2, [l2], id);
  }

  // ------------------------------------------------------------ the method

  /** The calls made for the entries in `done`: one for each without a clip. */
  ghost predicate CallsOnce(t: Table, done: set<VisitId>, valid: set<VisitId>, now: real, calls: seq<Call>) {
    && (forall i :: 0 <= i < |calls| ==>
          var id := calls[i].visitId;
          id in done && id in t && id !in valid && calls[i] == RecoveryCall(id, t[id], now))
    && (forall i, j :: 0 <= i < j < |calls| ==> calls[i].visitId != calls[j].visitId)
    && (forall id :: id in done && id in t && id !in valid ==> Called(calls, id))
  }

  predicate Called(calls: seq<Call>, id: VisitId) {
    exists i :: 0 <= i < |calls| && calls[i].visitId == id
  }

  lemma CallOneMore(t: Table, done: set<VisitId>, valid: set<VisitId>, now: real, calls: seq<Call>, id: VisitId)
    requires CallsOnce(t, done, valid, now, calls) && id !in done && id in t
    ensures id in valid ==> CallsOnce(t, done + {id}, valid, now, calls)
    ensures id !in valid ==> CallsOnce(t, done + {id}, valid, now, calls + [RecoveryCall(id, t[id], now)])
  {
    var calls' := calls + [RecoveryCall(id, t[id], now)];
    assert calls'[|calls|].visitId == id;
    forall j | Called(calls, j) ensures Called(calls', j) {
      var i :| 0 <= i < |calls| && calls[i].visitId == j;
      assert calls'[i].visitId == j;
    }
  }

  /** The summary once the entries in `done` have been dealt with. */
  function SummaryOf(t: Table, done: set<VisitId>, luck: Luck): Summary {
    var called := set id | id in done && id in t && id !in luck.valid;
    Summary(
      set id | id in done && id in t && id in luck.valid,
      set id | id in called && id in luck.published,
      set id | id in called && id !in luck.published && Stays(t, id, luck),
      set id | id in called && id !in luck.published && !Stays(t, id, luck))
  }

  /** What becomes of one entry. */
  datatype Fate = Skipped | Finalized | Failed | Abandoned

  function FateOf(t: Table, id: VisitId, luck: Luck): Fate
    requires id in t
  {
    if id in luck.valid then Skipped
    else if id in luck.published then Finalized
    else if Stays(t, id, luck) then Failed
    else Abandoned
  }

  function Noted(s: Summary, id: VisitId, fate: Fate): Summary {
    match fate
    case Skipped => s.(skipped := s.skipped + {id})
    case Finalized => s.(finalized := s.finalized + {id})
    case Failed => s.(failed := s.failed + {id})
    case Abandoned => s.(abandoned := s.abandoned + {id})
  }

  ghost predicate Progress(t: Table, done: set<VisitId>, luck: Luck, now: real, visits: Table, summary: Summary,
                           calls: seq<Call>)
  {
    && visits == Resolved(t, done, luck)
    && summary == SummaryOf(t, done, luck)
    && CallsOnce(t, done, luck.valid, now, calls)
  }

  lemma ResolveOneMore(t: Table, done: set<VisitId>, luck: Luck, id: VisitId)
    requires id in t && id !in done
    ensures var r := Resolved(t, done, luck);
            && id in r && r[id] == t[id]
            && Resolved(t, done + {id}, luck) == if Stays(t, id, luck) then r[id := Marked(t[id])] else r - {id}
  {
  }

  lemma ProgressOneMore(t: Table, done: set<VisitId>, luck: Luck, now: real, visits: Table, summary: Summary,
                        calls: seq<Call>, id: VisitId)
    requires Progress(t, done, luck, now, visits, summary, calls) && id in t && id !in done
    ensures id in visits && visits[id] == t[id]
    ensures Progress(t, done + {id}, luck, now,
                     if FateOf(t, id, luck).Failed? then visits[id := Marked(t[id])] else visits - {id},
                     Noted(summary, id, FateOf(t, id, luck)),
                     calls + if id in luck.valid then [] else [RecoveryCall(id, t[id], now)])
  {
    CallOneMore(t, done, luck.valid, now, calls, id);
    assert calls + [] == calls;
  }

  /** The summary says of every entry what became of it: those called failed are
      the ones still in the table, and nothing is named twice. */
  lemma SummaryTells(t: Table, luck: Luck)
    ensures var s := SummaryOf(t, t.Keys, luck);
            && s.failed == Pass(t, luck).Keys
            && s.skipped + s.finalized + s.failed + s.abandoned == t.Keys
            && s.skipped !! s.finalized !! s.failed !! s.abandoned
            && (forall id :: id in t ==> (id in s.skipped <==> id in luck.valid))
            && (forall id :: id in t && id !in luck.valid ==> (id in s.finalized <==> id in luck.published))
            && (forall id :: id in s.abandoned ==> t[id].attempts >= 2)
  {
  }

  /** `willing` are the calls that yield a clip if the scratch is still there. */
  function LuckOf(t: Table, clips: map<VisitId, Clip>, scratch: set<VisitId>, willing: set<Call>, now: real): Luck {
    var valid := set id | id in t && ClipIsValid(clips, id);
    Luck(valid, set id | id in t && id in scratch && id !in valid && RecoveryCall(id, t[id], now) in willing)
  }

  /** The clips after the finalizer has run on `called`. */
  ghost predicate OnlyAdds(clips: map<VisitId, Clip>, clips': map<VisitId, Clip>, published: set<VisitId>) {
    && clips'.Keys == clips.Keys + published
    && (forall id :: id in clips && id !in published ==> clips'[id] == clips[id])
    && (forall id :: id in published ==> ClipIsValid(clips', id))
  }

  lemma OnlyAddsMore(clips0: map<VisitId, Clip>, clips1: map<VisitId, Clip>, clips2: map<VisitId, Clip>,
                     a: set<VisitId>, b: set<VisitId>)
    requires OnlyAdds(clips0, clips1, a) && OnlyAdds(clips1, clips2, b)
    ensures OnlyAdds(clips0, clips2, a + b)
  {
  }

  lemma StillAsFound(clips0: map<VisitId, Clip>, clips: map<VisitId, Clip>, published: set<VisitId>, id: VisitId)
    requires OnlyAdds(clips0, clips, published) && id !in published
    ensures ClipIsValid(clips, id) <==> ClipIsValid(clips0, id)
  {
  }

  /** The finalizer as recovery sees it.  It may only be called on an entry that
      is already marked on disk and has no clip that the probe accepts; it always
      takes the scratch, and publishes only from scratch. */
  method CallFinalizer(store: Store, call: Call, willing: set<Call>) returns (ok: bool)
    requires call.visitId in store.durable && store.durable[call.visitId].state.FINALIZING?
    requires !ClipIsValid(store.clips, call.visitId)
    modifies store`clips, store`scratch, store`emptyDirs
    ensures ok == (call in willing && call.visitId in old(store.scratch))
    ensures store.scratch == old(store.scratch) - {call.visitId}
    ensures store.emptyDirs == old(store.emptyDirs) - {call.visitId}
    ensures OnlyAdds(old(store.clips), store.clips, if ok then {call.visitId} else {})
  {
    ok := call in willing && call.visitId in store.scratch;
    if ok {
      store.clips := store.clips[call.visitId := Clip(1, Valid)];
    }
    store.scratch, store.emptyDirs := store.scratch - {call.visitId}, store.emptyDirs - {call.visitId};
  }

  /** One entry: skip a valid clip, otherwise mark it on disk, finalize it, and
      drop it on success or on the last attempt. */
  method RecoverOne(store: Store, id: VisitId, now: real, willing: set<Call>, ghost luck: Luck)
    returns (fate: Fate, calls: seq<Call>)
    requires id in store.durable && (id in luck.valid <==> ClipIsValid(store.clips, id))
    requires id !in luck.valid ==>
               (id in luck.published <==> RecoveryCall(id, store.durable[id], now) in willing && id in store.scratch)
    modifies store`durable, store`clips, store`scratch, store`emptyDirs
    ensures var t := old(store.durable);
            && fate == FateOf(t, id, luck)
            && store.durable == (if fate.Failed? then t[id := Marked(t[id])] else t - {id})
            && calls == (if id in luck.valid then [] else [RecoveryCall(id, t[id], now)])
    ensures var t, clips := old(store.durable), old(store.clips);
            var end := if t[id].lastExtend <= now then t[id].lastExtend else now;
            if id in clips && clips[id].bytes > 0 && clips[id].probe == Valid then
              fate == Skipped && calls == [] && id !in store.durable
            else
              && calls == [Call(id, t[id].startTs, end)]
              && if calls[0] in willing && id in old(store.scratch) then fate == Finalized && id !in store.durable
                 else if t[id].attempts >= 2 then fate == Abandoned && id !in store.durable
                 else fate == Failed && id in store.durable
                      && store.durable[id] == t[id].(state := FINALIZING, attempts := t[id].attempts + 1)
    ensures store.scratch == old(store.scratch) - (if id in luck.valid then {} else {id})
    ensures store.emptyDirs == old(store.emptyDirs) - (if id in luck.valid then {} else {id})
    ensures OnlyAdds(old(store.clips), store.clips, if fate.Finalized? then {id} else {})
  {
    var visits: Table := store.durable;
    if ClipIsValid(store.clips, id) {
      store.durable := visits - {id};
      return Skipped, [];
    }
    var rec := Marked(visits[id]);
    visits := visits[id := rec];
    store.durable := visits;
    calls := [RecoveryCall(id, rec, now)];
    var ok := CallFinalizer(store, calls[0], willing);
    if ok {
      fate := Finalized;
      store.durable := visits - {id};
    } else if rec.attempts >= RECOVERY_MAX_FINALIZE_ATTEMPTS {
      fate := Abandoned;
      store.durable := visits - {id};
    } else {
      fate := Failed;
    }
  }

  /** Three-state recovery, at one reading of the clock for all entries. */
  method RecoverOpenVisits(store: Store, now: real, willing: set<Call>)
    returns (summary: Summary, calls: seq<Call>, ghost luck: Luck)
    modifies store`durable, store`clips, store`scratch, store`emptyDirs
    ensures luck == LuckOf(old(store.durable), old(store.clips), old(store.scratch), willing, now)
    ensures store.durable == Pass(old(store.durable), luck)
    ensures summary == SummaryOf(old(store.durable), old(store.durable).Keys, luck)
    ensures CallsOnce(old(store.durable), old(store.durable).Keys, luck.valid, now, calls)
    ensures OnlyAdds(old(store.clips), store.clips, luck.published)
    ensures store.scratch == old(store.scratch) - (old(store.durable).Keys - luck.valid)
    ensures store.emptyDirs == old(store.emptyDirs) - (old(store.durable).Keys - luck.valid)
  {
    ghost var t, clips0, scratch0, empty0 := store.durable, store.clips, store.scratch, store.emptyDirs;
    luck := LuckOf(t, clips0, scratch0, willing, now);
    summary, calls := Summary({}, {}, {}, {}), [];
    var todo := store.durable.Keys;
    while todo != {}
      invariant todo <= t.Keys
      invariant Progress(t, t.Keys - todo, luck, now, store.durable, summary, calls)
      invariant OnlyAdds(clips0, store.clips, luck.published * (t.Keys - todo))
      invariant store.scratch == scratch0 - (t.Keys - todo - luck.valid)
      invariant store.emptyDirs == empty0 - (t.Keys - todo - luck.valid)
      decreases todo
    {
      var id :| id in todo;
      summary, calls := RecoverNext(store, id, now, willing, t, t.Keys - todo, luck, clips0, scratch0, summary, calls);
      assert t.Keys - (todo - {id}) == t.Keys - todo + {id};
      todo := todo - {id};
    }
    assert t.Keys - todo == t.Keys;
    assert luck.published * t.Keys == luck.published;
  }

  method RecoverNext(store: Store, id: VisitId, now: real, willing: set<Call>, ghost t: Table, ghost done: set<VisitId>,
                     ghost luck: Luck, ghost clips0: map<VisitId, Clip>, ghost scratch0: set<VisitId>,
                     summary: Summary, calls: seq<Call>)
    returns (summary': Summary, calls': seq<Call>)
    requires id in t && id !in done && luck == LuckOf(t, clips0, scratch0, willing, now)
    requires Progress(t, done, luck, now, store.durable, summary, calls)
    requires OnlyAdds(clips0, store.clips, luck.published * done)
    requires store.scratch == scratch0 - (done - luck.valid)
    modifies store`durable, store`clips, store`scratch, store`emptyDirs
    ensures Progress(t, done + {id}, luck, now, store.durable, summary', calls')
    ensures OnlyAdds(clips0, store.clips, luck.published * (done + {id}))
    ensures store.scratch == scratch0 - (done + {id} - luck.valid)
    ensures store.emptyDirs == old(store.emptyDirs) - ({id} - luck.valid)
  {
    hide OnlyAdds, ClipIsValid;
    ProgressOneMore(t, done, luck, now, store.durable, summary, calls, id);
    ghost var clips := store.clips;
    StillAsFound(clips0, clips, luck.published * done, id);
    assert id in luck.valid <==> ClipIsValid(clips0, id);
    var fate, made := RecoverOne(store, id, now, willing, luck);
    summary' := Noted(summary, id, fate);
    calls' := calls + made;
    OnlyAddsMore(clips0, clips, store.clips, luck.published * done, if fate.Finalized? then {id} else {});
    assert luck.published * (done + {id}) == luck.published * done + (if fate.Finalized? then {id} else {});
  }

  /** The scratch directories, with and without a whole segment. */
  datatype Dirs = Dirs(scratch: set<VisitId>, empty: set<VisitId>)

  /** Those that nobody alive owns. */
  function Orphans(d: Dirs, live: set<VisitId>): set<VisitId> {
    d.scratch + d.empty - live
  }

  /** Remove scratch directories nobody in the durable table owns, and stray
      temporary files.  Clips, the table and the ring are out of its reach. */
  method SweepOrphans(store: Store) returns (reclaimed: nat)
    modifies store`scratch, store`emptyDirs, store`temps
    ensures store.scratch == old(store.scratch) * store.durable.Keys
    ensures store.emptyDirs == old(store.emptyDirs) * store.durable.Keys
    ensures store.temps == {}
    ensures reclaimed == |old(store.scratch) + old(store.emptyDirs) - store.durable.Keys| + |old(store.temps)|
  {
    var dirs := SweepScratch(store);
    var files := SweepTemps(store);
    reclaimed := dirs + files;
  }

  method SweepScratch(store: Store) returns (reclaimed: nat)
    modifies store`scratch, store`emptyDirs
    ensures store.scratch == old(store.scratch) * store.durable.Keys
    ensures store.emptyDirs == old(store.emptyDirs) * store.durable.Keys
    ensures reclaimed == |Orphans(Dirs(old(store.scratch), old(store.emptyDirs)), store.durable.Keys)|
  {
    ghost var d0 := Dirs(store.scratch, store.emptyDirs);
    ghost var gone;
    reclaimed, gone := SweepNames(store, store.scratch + store.emptyDirs, store.durable.Keys, d0);
    SweepEnds(d0, store.durable.Keys, gone, Dirs(store.scratch, store.emptyDirs));
  }

  method SweepNames(store: Store, listing: set<VisitId>, live: set<VisitId>, ghost d0: Dirs)
    returns (reclaimed: nat, ghost gone: set<VisitId>)
    requires listing == d0.scratch + d0.empty && d0 == Dirs(store.scratch, store.emptyDirs)
    modifies store`scratch, store`emptyDirs
    ensures Swept(d0, live, {}, gone, Dirs(store.scratch, store.emptyDirs)) && reclaimed == |gone|
  {
    SweepBegins(d0, live);
    hide Swept;
    var names := listing;
    reclaimed, gone := 0, {};
    while names != {}
      invariant Swept(d0, live, names, gone, Dirs(store.scratch, store.emptyDirs)) && reclaimed == |gone|
      decreases names
    {
      var name :| name in names;
      var removed;
      removed, gone := SweepDir(store, name, live, d0, names, gone);
      reclaimed := reclaimed + removed;
      names := names - {name};
    }
  }

  method SweepDir(store: Store, name: VisitId, live: set<VisitId>, ghost d0: Dirs, ghost names: set<VisitId>,
                  ghost gone: set<VisitId>)
    returns (removed: nat, ghost gone': set<VisitId>)
    requires Swept(d0, live, names, gone, Dirs(store.scratch, store.emptyDirs)) && name in names
    modifies store`scratch, store`emptyDirs
    ensures Swept(d0, live, names - {name}, gone', Dirs(store.scratch, store.emptyDirs))
    ensures |gone'| == |gone| + removed
  {
    SweptOneMore(d0, live, names, gone, Dirs(store.scratch, store.emptyDirs), name);
    hide Swept;
    removed, gone' := 0, gone;
    if name !in live {
      store.scratch, store.emptyDirs := store.scratch - {name}, store.emptyDirs - {name};
      removed, gone' := 1, gone + {name};
    }
  }

  /** Those not in `names` have been looked at, and `gone` are the ones removed. */
  ghost predicate Swept(d0: Dirs, live: set<VisitId>, names: set<VisitId>, gone: set<VisitId>, d: Dirs) {
    && gone !! live && gone !! names && gone + names <= d0.scratch + d0.empty <= live + gone + names
    && d == Dirs(d0.scratch - gone, d0.empty - gone)
  }

  lemma SweepBegins(d0: Dirs, live: set<VisitId>)
    ensures Swept(d0, live, d0.scratch + d0.empty, {}, d0)
  {
    assert d0.scratch - {} == d0.scratch && d0.empty - {} == d0.empty;
  }

  lemma SweptOneMore(d0: Dirs, live: set<VisitId>, names: set<VisitId>, gone: set<VisitId>, d: Dirs, name: VisitId)
    requires Swept(d0, live, names, gone, d) && name in names
    ensures if name in live then Swept(d0, live, names - {name}, gone, d)
            else Swept(d0, live, names - {name}, gone + {name}, Dirs(d.scratch - {name}, d.empty - {name}))
    ensures |gone + {name}| == |gone| + 1
  {
    assert d.scratch - {name} == d0.scratch - (gone + {name});
    assert d.empty - {name} == d0.empty - (gone + {name});
  }

  lemma SweepEnds(d0: Dirs, live: set<VisitId>, gone: set<VisitId>, d: Dirs)
    requires Swept(d0, live, {}, gone, d)
    ensures |gone| == |Orphans(d0, live)|
    ensures d.scratch == d0.scratch * live && d.empty == d0.empty * live
  {
    assert gone == d0.scratch + d0.empty - live;
    assert d0.scratch - gone == d0.scratch * live && d0.empty - gone == d0.empty * live;
  }

  method SweepTemps(store: Store) returns (reclaimed: nat)
    modifies store`temps
    ensures store.temps == {} && reclaimed == |old(store.temps)|
  {
    reclaimed := 0;
    while store.temps != {}
      invariant store.temps <= old(store.temps)
      invariant reclaimed + |store.temps| == |old(store.temps)|
      decreases store.temps
    {
      var name :| name in store.temps;
      store.temps := store.temps - {name};
      reclaimed := reclaimed + 1;
    }
  }
}
