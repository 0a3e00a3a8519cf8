/** An undisturbed recovery, taken step by step, is the one pass that
    `Recovery.RecoverOpenVisits` makes. */
module RecoverySteps {
  import opened Collections
  import opened VisitLifecycle
  import opened VisitRuntime
  import opened Recovery
  import opened Pipeline

  /** Finalize threads of an earlier runner may go on beside the recovery. */
  predicate IsRecovery(e: Event) {
    e.RecoverSkip? || e.RecoverMark? || IsAttempt(e) || e.JobConcat? || e.JobPublish? || e.JobEnd?
  }

  function IdsOf(ids: seq<VisitId>): set<VisitId> {
    set i | 0 <= i < |ids| :: ids[i]
  }

  lemma HeadAndRest(ids: seq<VisitId>)
    requires ids != []
    ensures IdsOf(ids) == {ids[0]} + IdsOf(ids[1..])
  {
    forall id | id in IdsOf(ids) ensures id in {ids[0]} + IdsOf(ids[1..]) {
      var i :| 0 <= i < |ids| && ids[i] == id;
      if i > 0 { assert ids[1..][i - 1] == id; }
    }
  }

  /** What a history has grown by. */
  function Since<T>(before: seq<T>, now: seq<T>): seq<T> {
    if |before| <= |now| then now[|before|..] else []
  }

  /** The calls of the finalizer and the publishes since the boot `s0`. */
  function CallsSince(s0: World, s: World): seq<Call> {
    Since(s0.calls, s.calls)
  }

  function PublishedSince(s0: World, s: World): seq<VisitId> {
    Since(s0.published, s.published)
  }

  function CalledIds(calls: seq<Call>): set<VisitId> {
    set i | 0 <= i < |calls| :: calls[i].visitId
  }

  function Settled(s0: World, s: World): set<VisitId>
    requires s.mode.Recovering?
  {
    s0.r.durable.Keys - IdsOf(s.mode.todo)
  }

  function Working(s: World): set<VisitId>
    requires s.mode.Recovering?
  {
    if s.mode.current.Trying? then {s.mode.current.visitId} else {}
  }

  /** What the pass that began at the boot `s0` has met so far: entries settled
      without a call had a clip the probe accepted. */
  function LuckSoFar(s0: World, s: World): Luck
    requires s.mode.Recovering?
  {
    Luck(Settled(s0, s) - CalledIds(CallsSince(s0, s)), IdsOf(PublishedSince(s0, s)))
  }

  /** The recovery goes on from `s0`, and the histories have only grown. */
  ghost predicate Underway(s0: World, s: World) {
    && s.mode.Recovering? && Distinct(s.mode.todo) && s.clock == s0.clock
    && (forall i :: 0 <= i < |s.mode.todo| ==> s.mode.todo[i] in s0.r.durable)
    && |s0.calls| <= |s.calls| && |s0.published| <= |s.published|
    && s.r.jobs.Keys !! s0.r.durable.Keys && s0.clips <= s.clips
    && (s.mode.current.Trying? ==> s.mode.todo != [] && s.mode.current.visitId == s.mode.todo[0])
  }

  /** The table is what the pass makes of it so far. */
  ghost predicate TableOnTrack(s0: World, s: World)
    requires Underway(s0, s)
  {
    var t, luck := s0.r.durable, LuckSoFar(s0, s);
    && luck.published * t.Keys <= Settled(s0, s) + Working(s)
    && match s.mode.current
       case Nobody => s.r.durable == Resolved(t, Settled(s0, s), luck)
       case Trying(id, stage, _, _) =>
         && (stage.Published? <==> id in luck.published)
         && s.r.durable == Resolved(t, Settled(s0, s), luck)[id := Marked(t[id])]
  }

  /** So are the calls: one for each entry dealt with, unless it has a clip. */
  ghost predicate CallsOnTrack(s0: World, s: World)
    requires Underway(s0, s)
  {
    && CallsOnce(s0.r.durable, Settled(s0, s) + Working(s), LuckSoFar(s0, s).valid, s0.clock, CallsSince(s0, s))
    && LuckSoFar(s0, s).valid <= s.clips
  }

  ghost predicate OnTrack(s0: World, s: World) {
    Underway(s0, s) && TableOnTrack(s0, s) && CallsOnTrack(s0, s)
  }

  /** Settling the head of the to-do list adds it to the settled entries. */
  lemma SettleHead(s0: World, s: World, s': World)
    requires Underway(s0, s) && s'.mode.Recovering? && s.mode.todo != [] && s'.mode.todo == s.mode.todo[1..]
    ensures Settled(s0, s') == Settled(s0, s) + {s.mode.todo[0]} && s.mode.todo[0] !in Settled(s0, s)
    ensures Distinct(s'.mode.todo) && forall i :: 0 <= i < |s'.mode.todo| ==> s'.mode.todo[i] in s0.r.durable
  {
    var todo, rest := s.mode.todo, s'.mode.todo;
    assert forall i :: 0 <= i < |rest| ==> rest[i] == todo[i + 1];
    HeadAndRest(todo);
  }

  lemma IdsOneMore(ids: seq<VisitId>, id: VisitId)
    ensures IdsOf(ids + [id]) == IdsOf(ids) + {id}
  {
    assert (ids + [id])[|ids|] == id;
    forall i | i in IdsOf(ids) ensures i in IdsOf(ids + [id]) {
      var k :| 0 <= k < |ids| && ids[k] == i;
      assert (ids + [id])[k] == i;
    }
  }

  lemma CalledOneMore(calls: seq<Call>, call: Call)
    ensures CalledIds(calls + [call]) == CalledIds(calls) + {call.visitId}
  {
    assert (calls + [call])[|calls|] == call;
    forall i | i in CalledIds(calls) ensures i in CalledIds(calls + [call]) {
      var k :| 0 <= k < |calls| && calls[k].visitId == i;
      assert (calls + [call])[k].visitId == i;
    }
  }

  /** The table after a pass depends on its luck with the settled entries only. */
  lemma ResolvedElsewhere(t: Table, done: set<VisitId>, luck: Luck, luck': Luck)
    requires forall id :: id in done && id in t ==> (id in luck.published <==> id in luck'.published)
    requires forall id :: id in done ==> (id in luck.valid <==> id in luck'.valid)
    ensures Resolved(t, done, luck) == Resolved(t, done, luck')
  {
  }

  /** An entry in `valid` is settled without a call. */
  lemma SkipOneMore(t: Table, done: set<VisitId>, valid: set<VisitId>, now: real, calls: seq<Call>, id: VisitId)
    requires CallsOnce(t, done, valid, now, calls) && id !in done
    ensures CallsOnce(t, done + {id}, valid + {id}, now, calls)
  {
  }

  lemma SkipOnTrack(s0: World, s: World, s': World)
    requires OnTrack(s0, s) && StepTake(s, RecoverSkip, s')
    ensures OnTrack(s0, s')
  {
    var t, id, done := s0.r.durable, s.mode.todo[0], Settled(s0, s);
    var luck, luck' := LuckSoFar(s0, s), LuckSoFar(s0, s');
    SettleHead(s0, s, s');
    assert Working(s) == {} && done + {} == done;
    assert id !in CalledIds(CallsSince(s0, s));
    assert luck'.valid == luck.valid + {id};
    SkipOneMore(t, done, luck.valid, s0.clock, CallsSince(s0, s), id);
    assert done + {id} + Working(s') == done + {id};
    ResolveOneMore(t, done, luck', id);
    ResolvedElsewhere(t, done, luck, luck');
  }

  lemma MarkOnTrack(s0: World, s: World, s': World)
    requires OnTrack(s0, s) && StepTake(s, RecoverMark, s')
    ensures OnTrack(s0, s')
  {
    var t, id, done := s0.r.durable, s.mode.todo[0], Settled(s0, s);
    var luck, luck' := LuckSoFar(s0, s), LuckSoFar(s0, s');
    assert id in IdsOf(s.mode.todo) && id !in done;
    assert Working(s) == {} && done + {} == done && Settled(s0, s') == done;
    assert s.r.durable[id] == t[id];
    var call := RecoveryCall(id, t[id], s0.clock);
    assert CallsSince(s0, s') == CallsSince(s0, s) + [call];
    CalledOneMore(CallsSince(s0, s), call);
    assert luck'.valid == luck.valid && luck' == luck;
    CallOneMore(t, done, luck.valid, s0.clock, CallsSince(s0, s), id);
  }

  lemma ReturnOnTrack(s0: World, s: World, s': World)
    requires OnTrack(s0, s) && StepAttempt(s, RecoverReturn, s')
    ensures OnTrack(s0, s')
  {
    var t, id, done := s0.r.durable, s.mode.current.visitId, Settled(s0, s);
    var luck, luck' := LuckSoFar(s0, s), LuckSoFar(s0, s');
    SettleHead(s0, s, s');
    assert Called(CallsSince(s0, s), id) && id in CalledIds(CallsSince(s0, s));
    assert luck'.valid == luck.valid && luck' == luck;
    assert done + {id} + Working(s') == done + Working(s);
    ResolveOneMore(t, done, luck, id);
  }

  /** Concat and clean-up touch neither table nor histories. */
  lemma QuietOnTrack(s0: World, s: World, s': World)
    requires OnTrack(s0, s) && Underway(s0, s')
    requires s'.mode.todo == s.mode.todo && s'.calls == s.calls && s'.published == s.published
    requires s'.r.durable == s.r.durable && s.clips <= s'.clips && Working(s') == Working(s)
    requires s.mode.current.Trying? ==> (s'.mode.current.stage.Published? <==> s.mode.current.stage.Published?)
    ensures OnTrack(s0, s')
  {
  }

  /** A publish, by the attempt or by a finalize thread. */
  lemma PublishOnTrack(s0: World, s: World, s': World, id: VisitId)
    requires OnTrack(s0, s) && Underway(s0, s')
    requires s'.mode.todo == s.mode.todo && s'.calls == s.calls && s'.published == s.published + [id]
    requires s'.r.durable == s.r.durable && s'.clips == s.clips + {id} && Working(s') == Working(s)
    requires if id in s0.r.durable then s.mode.current.Trying? && id == s.mode.current.visitId && s'.mode.current.stage.Published?
             else s'.mode.current == s.mode.current
    ensures OnTrack(s0, s')
  {
    var luck, luck' := LuckSoFar(s0, s), LuckSoFar(s0, s');
    assert PublishedSince(s0, s') == PublishedSince(s0, s) + [id];
    IdsOneMore(PublishedSince(s0, s), id);
    if id in s0.r.durable { assert id in IdsOf(s.mode.todo); }
    ResolvedElsewhere(s0.r.durable, Settled(s0, s), luck, luck');
  }

  lemma StepOnTrack(s0: World, s: World, e: Event, s': World)
    requires OnTrack(s0, s) && Step(s, e, s') && IsRecovery(e)
    ensures OnTrack(s0, s')
  {
    hide TableOnTrack, CallsOnTrack;
    match e
    case RecoverSkip => SkipOnTrack(s0, s, s');
    case RecoverMark => MarkOnTrack(s0, s, s');
    case RecoverReturn => ReturnOnTrack(s0, s, s');
    case RecoverPublish => PublishOnTrack(s0, s, s', s.mode.current.visitId);
    case JobPublish(id) => PublishOnTrack(s0, s, s', id);
    case _ => QuietOnTrack(s0, s, s');
  }

  lemma {:induction false} StaysOnTrack(states: seq<World>, events: seq<Event>, n: nat)
    requires Path(states, events) && OnTrack(states[0], states[0]) && n < |states|
    requires forall i :: 0 <= i < |events| ==> IsRecovery(events[i])
    ensures OnTrack(states[0], states[n])
  {
    if n > 0 {
      var i := n - 1;
      StaysOnTrack(states, events, i);
      assert Step(states[i], events[i], states[i + 1]);
      StepOnTrack(states[0], states[i], events[i], states[n]);
    }
  }

  lemma BootOnTrack(off: World, now: real, ids: seq<VisitId>, s0: World)
    requires Apart(off.r) && Step(off, Boot(now, ids), s0)
    ensures OnTrack(s0, s0)
  {
    assert Settled(s0, s0) == {} by {
      forall id | id in s0.r.durable ensures id in IdsOf(ids) { assert id in ids; }
    }
    var luck := LuckSoFar(s0, s0);
    assert Resolved(s0.r.durable, {}, luck) == s0.r.durable;
    assert {} + Working(s0) == {} && luck.valid == {};
  }

  /** From the boot to an empty to-do list, recovery does what one pass does:
      the same table, and one finalize call, over the recorded window at the time
      of the boot, for each entry but those whose clip the probe accepted. */
  lemma StepsMakeOnePass(states: seq<World>, events: seq<Event>, off: World, now: real, ids: seq<VisitId>)
    requires Path(states, events) && Apart(off.r) && Step(off, Boot(now, ids), states[0])
    requires forall i :: 0 <= i < |events| ==> IsRecovery(events[i])
    requires states[|states| - 1].mode == Recovering([], Nobody)
    ensures var last, t := states[|states| - 1], off.r.durable;
            var calls, luck := CallsSince(off, last), LuckSoFar(off, last);
            && last.r.durable == Pass(t, luck)
            && CallsOnce(t, t.Keys, luck.valid, now, calls)
            && luck.valid <= last.clips
  {
    BootOnTrack(off, now, ids, states[0]);
    StaysOnTrack(states, events, |states| - 1);
    var last := states[|states| - 1];
    assert Settled(states[0], last) == off.r.durable.Keys;
    assert off.r.durable.Keys + Working(last) == off.r.durable.Keys;
    assert LuckSoFar(off, last) == LuckSoFar(states[0], last);
  }
}
