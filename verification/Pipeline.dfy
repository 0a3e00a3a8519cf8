/** The continuous-capture worker as a step system: frames, escalation drains,
    background finalizes, crashes and boots, in any order.

    A crash may fall after any durable write.  A tick or an observe that dies
    half way has handled a prefix of its transitions (`upto`); a drain is two
    steps, because its finalizes start before its single write; a finalize and
    a recovery attempt are split at concat, publish and clean-up. */
module Pipeline {
  import opened Collections
  import opened VisitLifecycle
  import opened VisitRuntime
  import opened Recovery

  /** The recovery attempt in progress, if any.  It is `rejected` when the visit
      does have a valid clip and the probe failed to say so. */
  datatype Current = Nobody | Trying(visitId: VisitId, stage: Stage, reaped: bool, rejected: bool)

  /** `Off` covers both a dead worker and one whose capture flag is off. */
  datatype Mode = Off | Recovering(todo: seq<VisitId>, current: Current) | Armed | Draining

  /** `clips` are the visits with a valid clip; `published` lists every publish,
      `calls` every call recovery makes of the finalizer, `evicted` every visit
      the tracker dropped to stay within `maxKeys`. */
  datatype World = World(
    mode: Mode, r: RunnerState, temps: set<VisitId>, clips: set<VisitId>,
    nextId: VisitId, clock: real, maxKeys: nat,
    published: seq<VisitId>, evicted: set<VisitId>, calls: seq<Call>)

  /** `visits` and `out` are what the tracker makes of the call, `upto` how many
      of its transitions the runner handles. */
  datatype Event =
    | Tick(now: real, absence: real, env: Env, visits: Visits, out: seq<Transition>, upto: nat)
    | Observe(key: Key, now: real, knobs: Knobs, env: Env, visits: Visits, out: seq<Transition>, upto: nat)
    | DrainStart(now: real, env: Env, out: seq<Transition>)
    | DrainEnd
    | Disarm
    | JobConcat(id: VisitId) | JobPublish(id: VisitId) | JobEnd(id: VisitId)
    | Crash
    | Boot(now: real, ids: seq<VisitId>)
    | RecoverSkip | RecoverMark | RecoverConcat | RecoverPublish | RecoverReap | RecoverReturn
    | Arm

  ghost predicate Initial(s: World) {
    s == World(Off, RunnerState(map[], map[], map[], {}, map[], [], {}, 0, map[]), {}, {}, 0, s.clock, s.maxKeys, [], {}, [])
    && s.maxKeys >= 1
  }

  // ----------------------------------------------------------------- steps

  function WithoutMemory(r: RunnerState): RunnerState {
    r.(visits := map[], table := map[], jobs := map[], posted := {})
  }

  function AfterCrash(s: World): World {
    s.(mode := Off, r := WithoutMemory(s.r))
  }

  /** A batch of transitions, completed or cut short by a crash. */
  function AfterBatch(s: World, visits: Visits, out: seq<Transition>, upto: nat, now: real, absence: real, env: Env): World
    requires upto <= |out|
  {
    var s1 := s.(r := Handle(s.r.(visits := visits), out[..upto], now, absence, env), clock := now);
    if upto == |out| then s1 else AfterCrash(s1)
  }

  function EvictedIds(v: Visits, v': Visits, k: Key): set<VisitId> {
    set j | j in v && v[j].Present? && j != k && j !in v' :: v[j].visitId
  }

  function AfterObserve(s: World, e: Event): World
    requires e.Observe? && e.upto <= |e.out|
  {
    AfterBatch(s, e.visits, e.out, e.upto, e.now, e.knobs.absence, e.env)
    .(nextId := s.nextId + Opens(e.out), evicted := s.evicted + EvictedIds(s.r.visits, e.visits, e.key))
  }

  ghost predicate StepTick(s: World, e: Event, s': World)
    requires e.Tick?
  {
    && s.mode.Armed? && s.clock <= e.now && e.absence >= 0.0 && e.upto <= |e.out|
    && Ticked(s.r.visits, e.visits, e.now, e.absence, e.out)
    && s' == AfterBatch(s, e.visits, e.out, e.upto, e.now, e.absence, e.env)
  }

  ghost predicate StepObserve(s: World, e: Event, s': World)
    requires e.Observe?
  {
    && s.mode.Armed? && s.clock <= e.now && e.upto <= |e.out|
    && e.knobs.preRoll >= 0.0 && e.knobs.absence >= 0.0 && e.knobs.maxVisit >= 0.0
    && Observed(s.r.visits, e.visits, e.key, e.now, e.knobs, s.nextId, s.maxKeys, e.out)
    && s' == AfterObserve(s, e)
  }

  ghost predicate StepDrain(s: World, e: Event, s': World)
    requires e.DrainStart? || e.DrainEnd? || e.Disarm?
  {
    match e
    case DrainStart(now, env, out) =>
      && s.mode.Armed? && s.clock <= now
      && ClosesLive(s.r.visits, s.r.visits.Keys, now, out)
      && s' == s.(mode := Draining, r := Drain(s.r, out, env).(visits := map[]), clock := now)
    case DrainEnd =>
      s.mode.Draining? && s' == s.(mode := Armed, r := s.r.(durable := s.r.table), maxKeys := DEFAULT_MAX_KEYS)
    case Disarm =>
      s.mode.Armed? && s' == s.(mode := Off, r := WithoutMemory(s.r).(jobs := s.r.jobs))
  }

  ghost predicate StepJob(s: World, e: Event, s': World)
    requires e.JobConcat? || e.JobPublish? || e.JobEnd?
  {
    && e.id in s.r.jobs
    && var job := s.r.jobs[e.id];
       match e
       case JobConcat(id) =>
         && job.stage.Waiting? && id in s.r.scratch
         && s' == s.(r := s.r.(jobs := s.r.jobs[id := job.(stage := Concatenated)]), temps := s.temps + {id})
       case JobPublish(id) =>
         && job.stage.Concatenated? && id in s.temps
         && s' == s.(r := s.r.(jobs := s.r.jobs[id := job.(stage := Published)]), temps := s.temps - {id},
                     clips := s.clips + {id}, published := s.published + [id])
       case JobEnd(id) =>
         s' == s.(r := s.r.(jobs := s.r.jobs - {id}, scratch := s.r.scratch - {id}),
                  temps := if job.stage.Waiting? then s.temps else s.temps - {id})
  }

  predicate Enumerates(ids: seq<VisitId>, t: Table) {
    && (forall i :: 0 <= i < |ids| ==> ids[i] in t)
    && Distinct(ids)
    && (forall id :: id in t ==> id in ids)
  }

  /** Take the next entry: skip a clip the probe accepts, otherwise mark the
      entry on disk and call the finalizer.  The probe accepts no bad clip, but
      it may fail on a good one.  The clock stands still from the boot on. */
  ghost predicate StepTake(s: World, e: Event, s': World)
    requires e.RecoverSkip? || e.RecoverMark?
  {
    && s.mode.Recovering? && s.mode.current.Nobody? && s.mode.todo != []
    && var id := s.mode.todo[0];
       && id in s.r.durable
       && if e.RecoverSkip? then
            && id in s.clips
            && s' == s.(mode := Recovering(s.mode.todo[1..], Nobody), r := s.r.(durable := s.r.durable - {id}))
          else
            s' == s.(mode := s.mode.(current := Trying(id, Waiting, false, id in s.clips)),
                     r := s.r.(durable := s.r.durable[id := Marked(s.r.durable[id])]),
                     calls := s.calls + [RecoveryCall(id, s.r.durable[id], s.clock)])
  }

  predicate IsAttempt(e: Event) {
    e.RecoverConcat? || e.RecoverPublish? || e.RecoverReap? || e.RecoverReturn?
  }

  ghost predicate StepAttempt(s: World, e: Event, s': World)
    requires IsAttempt(e)
  {
    && s.mode.Recovering? && s.mode.current.Trying? && s.mode.todo != []
    && var c := s.mode.current;
       var id := c.visitId;
       && id in s.r.durable
       && if e.RecoverConcat? then
            && c.stage.Waiting? && !c.reaped && id in s.r.scratch
            && s' == s.(mode := s.mode.(current := c.(stage := Concatenated)), temps := s.temps + {id})
          else if e.RecoverPublish? then
            && c.stage.Concatenated? && !c.reaped && id in s.temps
            && s' == s.(mode := s.mode.(current := c.(stage := Published)), temps := s.temps - {id},
                        clips := s.clips + {id}, published := s.published + [id])
          else if e.RecoverReap? then
            && !c.reaped
            && s' == s.(mode := s.mode.(current := c.(reaped := true)), r := s.r.(scratch := s.r.scratch - {id}),
                        temps := if c.stage.Waiting? then s.temps else s.temps - {id})
          else
            && c.reaped
            && var drop := c.stage.Published? || s.r.durable[id].attempts >= RECOVERY_MAX_FINALIZE_ATTEMPTS;
               s' == s.(mode := Recovering(s.mode.todo[1..], Nobody),
                        r := s.r.(durable := if drop then s.r.durable - {id} else s.r.durable))
  }

  /** Boot, or the capture flag going up: recover, sweep, then a fresh runner.
      A recovery that raises is logged and the sweep follows all the same. */
  ghost predicate StepBoot(s: World, e: Event, s': World)
    requires e.Boot? || e.Arm?
  {
    match e
    case Boot(now, ids) =>
      && s.mode.Off? && s.clock <= now && Enumerates(ids, s.r.durable)
      && s' == s.(mode := Recovering(ids, Nobody), clock := now)
    case Arm =>
      && s.mode.Recovering? && s.mode.current.Nobody?
      && s' == s.(mode := Armed, maxKeys := DEFAULT_MAX_KEYS, temps := {},
                  r := s.r.(scratch := s.r.scratch * s.r.durable.Keys))
  }

  ghost predicate Step(s: World, e: Event, s': World) {
    match e
    case Tick(_, _, _, _, _, _) => StepTick(s, e, s')
    case Observe(_, _, _, _, _, _, _) => StepObserve(s, e, s')
    case DrainStart(_, _, _) => StepDrain(s, e, s')
    case DrainEnd => StepDrain(s, e, s')
    case Disarm => StepDrain(s, e, s')
    case JobConcat(_) => StepJob(s, e, s')
    case JobPublish(_) => StepJob(s, e, s')
    case JobEnd(_) => StepJob(s, e, s')
    case Crash => s' == AfterCrash(s)
    case Boot(_, _) => StepBoot(s, e, s')
    case Arm => StepBoot(s, e, s')
    case RecoverSkip => StepTake(s, e, s')
    case RecoverMark => StepTake(s, e, s')
    case _ => StepAttempt(s, e, s')
  }

  /** Consecutive states of the worker; `Initial(states[0])` makes it a run. */
  ghost predicate Path(states: seq<World>, events: seq<Event>) {
    && |states| == |events| + 1
    && forall i :: 0 <= i < |events| ==> Step(states[i], events[i], states[i + 1])
  }

  // ------------------------------------------------------------- invariant

  predicate Sane(e: Entry, clock: real) {
    e.startTs <= e.lastExtend <= e.lastSeen <= clock
  }

  /** The entry of the live record `v` of `k`. */
  predicate Agrees(t: Table, k: Key, v: Record)
    requires v.Present?
  {
    && v.visitId in t
    && var e := t[v.visitId];
       e.key == k && e.startTs == v.startTs && e.lastSeen == v.lastSeen && e.segmentIndex == v.segmentIndex
  }

  /** The parts of the world a batch of transitions does not touch. */
  datatype Context = Context(clips: set<VisitId>, evicted: set<VisitId>, clock: real, nextId: VisitId)

  predicate Owned(r: RunnerState, c: Context, id: VisitId, pending: set<VisitId>)
    requires id in r.table
  {
    var e := r.table[id];
    || id in c.evicted
    || id in pending
    || (Live(r.visits, e.key) && r.visits[e.key].visitId == id)
  }

  /** The entry claims what the last copy call asked for; before the first one,
      nothing. */
  predicate ClaimsCopied(r: RunnerState, id: VisitId, e: Entry) {
    if id in r.lastCopy then r.lastCopy[id] == Span(e.startTs, e.lastExtend) else e.lastExtend == e.startTs
  }

  /** The entry claims no more than the last copy call asked for. */
  predicate WithinCopied(r: RunnerState, id: VisitId, e: Entry) {
    e.lastExtend > e.startTs ==>
      id in r.lastCopy && r.lastCopy[id].startTs == e.startTs && e.lastExtend <= r.lastCopy[id].untilTs
  }

  predicate Timed(v: Record, clock: real)
    requires v.Present?
  {
    v.startTs <= v.startedAt <= v.lastSeen <= clock
  }

  predicate EntryOk(r: RunnerState, c: Context, id: VisitId, pending: set<VisitId>)
    requires id in r.table
  {
    && Sane(r.table[id], c.clock) && id < c.nextId
    && id !in c.clips && id !in r.jobs && id !in r.handed
    && ClaimsCopied(r, id, r.table[id]) && Owned(r, c, id, pending)
  }

  predicate JobOk(r: RunnerState, c: Context, id: VisitId)
    requires id in r.jobs
  {
    && id in r.handed && (r.jobs[id].stage.Published? <==> id in c.clips)
    && r.jobs[id].startTs <= r.jobs[id].endTs <= c.clock
  }

  /** Memory is consistent but for the transitions still to be handled: the
      visits in `pending` are closed yet still in the table, and the table does
      not yet know the latest about the keys in `late`. */
  ghost predicate Core(r: RunnerState, c: Context, pending: set<VisitId>, late: set<Key>) {
    && (forall k :: Live(r.visits, k) && k !in late ==> Agrees(r.table, k, r.visits[k]))
    && (forall k :: Live(r.visits, k) ==> r.visits[k].visitId !in pending && Timed(r.visits[k], c.clock))
    && pending <= r.table.Keys
    && (forall id :: id in r.table ==> EntryOk(r, c, id, pending))
    && (forall id :: id in r.jobs ==> JobOk(r, c, id))
    && Distinct(r.handed) && (forall id :: id in r.handed ==> id < c.nextId)
    && (forall id :: id in r.posted ==> id in r.table || id in r.handed)
    && (forall id :: id in r.lastCopy ==> id < c.nextId)
  }

  predicate DurableOk(r: RunnerState, c: Context) {
    forall id :: id in r.durable ==> Sane(r.durable[id], c.clock) && id < c.nextId && WithinCopied(r, id, r.durable[id])
  }

  /** The disk has the table; or nothing was written since the runner was
      built, and what an earlier recovery left is still there. */
  predicate Synced(r: RunnerState) {
    r.durable == r.table || r.table == map[]
  }

  /** No finalize thread works on a visit recovery would take up. */
  predicate Apart(r: RunnerState) {
    r.jobs.Keys !! r.durable.Keys
  }

  function ContextOf(s: World): Context {
    Context(s.clips, s.evicted, s.clock, s.nextId)
  }

  ghost predicate ClipsOk(s: World) {
    && (forall id :: id in s.published <==> id in s.clips)
    && (forall id :: id in s.clips ==> id < s.nextId)
  }

  predicate RecoveringOk(s: World)
    requires s.mode.Recovering?
  {
    && (forall i :: 0 <= i < |s.mode.todo| ==> s.mode.todo[i] in s.r.durable)
    && Distinct(s.mode.todo)
    && (s.mode.current.Trying? ==>
          && s.mode.todo != [] && s.mode.current.visitId == s.mode.todo[0]
          && s.r.durable[s.mode.todo[0]].state.FINALIZING?
          && (s.mode.current.stage.Published? || s.mode.current.rejected <==> s.mode.current.visitId in s.clips)
          && (s.mode.current.reaped ==> s.mode.current.visitId !in s.r.scratch))
  }

  ghost predicate ModeOk(s: World) {
    match s.mode
    case Armed => Synced(s.r) && Apart(s.r) && |s.r.visits| <= s.maxKeys
    case Draining => s.r.visits == map[] && forall id :: id in s.r.table ==> id in s.r.durable && s.r.durable[id] == s.r.table[id]
    case Off => s.r.visits == map[] && s.r.table == map[] && Apart(s.r)
    case Recovering(_, _) => s.r.visits == map[] && s.r.table == map[] && Apart(s.r) && RecoveringOk(s)
  }

  ghost predicate Inv(s: World) {
    && s.maxKeys >= 1
    && Core(s.r, ContextOf(s), {}, {})
    && DurableOk(s.r, ContextOf(s))
    && ClipsOk(s)
    && ModeOk(s)
  }
}
