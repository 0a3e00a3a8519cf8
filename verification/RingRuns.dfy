/** One visit's copies against a ring that keeps turning: any interleaving of
    slot rotations, recorder restarts and copy calls. */
module RingRuns {
  import opened Collections
  import opened Preroll

  datatype Config = Config(capacity: nat, segmentS: real, startTs: real)

  /** Every slot write so far, the last of which may still be growing, and the
      contents of the scratch in name order.  `first` is the number of writes at
      the first copy call, `upto` at the last; `passed` are the closed writes that
      some call failed on, or that began after the band it asked for. */
  datatype State = State(writes: seq<Ident>, order: seq<Ident>, passed: set<Ident>, copying: bool, first: nat, upto: nat)

  datatype Event =
    | Grow(mtime: real)
    | Rotate(mtime: real)
    | Restart(mtime: real)
    | Copy(untilTs: real, fails: set<Ident>, added: seq<Ident>)

  /** The directory after these writes: the last one to each slot. */
  function RingOf(writes: seq<Ident>): Ring {
    if writes == [] then map[]
    else
      var last := writes[|writes| - 1];
      RingOf(writes[..|writes| - 1])[last.slot := last.mtime]
  }

  function NextSlot(writes: seq<Ident>, capacity: nat): Slot
    requires capacity >= 1
  {
    if writes == [] || writes[|writes| - 1].slot + 1 == capacity then 0 else writes[|writes| - 1].slot + 1
  }

  predicate Newer(writes: seq<Ident>, mtime: real) {
    writes != [] ==> writes[|writes| - 1].mtime < mtime
  }

  predicate Misses(e: Event, c: Config, x: Ident)
    requires e.Copy?
  {
    x in e.fails || x.mtime - c.segmentS > e.untilTs || e.untilTs < c.startTs
  }

  /** The closed writes this call could not or need not take. */
  function PassedBy(s: State, e: Event, c: Config): set<Ident>
    requires e.Copy?
  {
    set i | 0 <= i < |s.writes| - 1 && Misses(e, c, s.writes[i]) :: s.writes[i]
  }

  ghost predicate Step(s: State, e: Event, s': State, c: Config)
    requires c.capacity >= 1
  {
    match e
    case Grow(mtime) =>
      && s.writes != [] && s.writes[|s.writes| - 1].mtime <= mtime
      && s' == s.(writes := s.writes[|s.writes| - 1 := s.writes[|s.writes| - 1].(mtime := mtime)])
    case Rotate(mtime) =>
      Newer(s.writes, mtime) && s' == s.(writes := s.writes + [Ident(NextSlot(s.writes, c.capacity), mtime)])
    case Restart(mtime) =>
      Newer(s.writes, mtime) && s' == s.(writes := s.writes + [Ident(0, mtime)])
    case Copy(untilTs, fails, added) =>
      && Appends(RingOf(s.writes), c.segmentS, c.startTs, untilTs, s.order, fails, added)
      && s' == s.(order := s.order + added, copying := true, upto := |s.writes|,
                  first := if s.copying then s.first else |s.writes|, passed := s.passed + PassedBy(s, e, c))
  }

  ghost predicate Run(states: seq<State>, events: seq<Event>, c: Config) {
    && c.capacity >= 1 && |states| == |events| + 1
    && states[0] == State([], [], {}, false, 0, 0)
    && forall i :: 0 <= i < |events| ==> Step(states[i], events[i], states[i + 1], c)
  }

  // ------------------------------------------------------------- the ring

  /** No later write has taken the slot of write `i`. */
  predicate Held(writes: seq<Ident>, i: nat)
    requires i < |writes|
  {
    forall j :: i < j < |writes| ==> writes[j].slot != writes[i].slot
  }

  lemma {:induction false} HeldIsInRing(writes: seq<Ident>, i: nat)
    requires i < |writes| && Held(writes, i)
    ensures writes[i].slot in RingOf(writes) && RingOf(writes)[writes[i].slot] == writes[i].mtime
  {
    if i < |writes| - 1 {
      HeldIsInRing(writes[..|writes| - 1], i);
    }
  }

  lemma {:induction false} RingIsHeld(writes: seq<Ident>, slot: Slot) returns (i: nat)
    requires slot in RingOf(writes)
    ensures i < |writes| && Held(writes, i) && writes[i] == Ident(slot, RingOf(writes)[slot])
  {
    i := |writes| - 1;
    if writes[i].slot != slot {
      i := RingIsHeld(writes[..|writes| - 1], slot);
    }
  }

  /** In the ring and older than the newest write: closed. */
  lemma OlderIsClosed(writes: seq<Ident>, i: nat)
    requires Increasing(writes) && i < |writes|
    ensures Closed(RingOf(writes), writes[i]) <==> i < |writes| - 1
  {
    HeldIsInRing(writes, |writes| - 1);
    if Closed(RingOf(writes), writes[i]) {
      var s :| s in RingOf(writes) && RingOf(writes)[s] > writes[i].mtime;
      var j := RingIsHeld(writes, s);
    }
  }

  // ------------------------------------------------- order of the scratch

  /** Everything in scratch is a closed write, each at most once. */
  ghost predicate CopiedClosed(s: State) {
    && s.upto <= |s.writes|
    && forall x :: x in s.order ==> exists i :: 0 <= i < s.upto - 1 && s.writes[i] == x
  }

  /** What is older than something in scratch, still in the ring and not before
      the window, is in scratch too. */
  ghost predicate NothingSkipped(s: State, c: Config) {
    forall x, i :: (x in s.order && 0 <= i < |s.writes| && Held(s.writes, i)
                    && c.startTs <= s.writes[i].mtime < x.mtime) ==> s.writes[i] in s.order
  }

  ghost predicate Ordered(s: State, c: Config) {
    Increasing(s.writes) && CopiedClosed(s) && NothingSkipped(s, c) && Increasing(s.order)
  }

  lemma EligibleWrite(s: State, c: Config, untilTs: real, x: Ident) returns (i: nat)
    requires Increasing(s.writes)
    requires Eligible(RingOf(s.writes), c.segmentS, c.startTs, untilTs, Idents(s.order), x)
    ensures i < |s.writes| - 1 && s.writes[i] == x && Held(s.writes, i)
  {
    i := RingIsHeld(s.writes, x.slot);
    OlderIsClosed(s.writes, i);
  }

  /** A copy call that fails nowhere appends only what is newer than everything
      already in scratch. */
  lemma AppendsNewer(s: State, c: Config, untilTs: real, added: seq<Ident>, x: Ident, y: Ident)
    requires Ordered(s, c) && Appends(RingOf(s.writes), c.segmentS, c.startTs, untilTs, s.order, {}, added)
    requires x in s.order && y in added
    ensures x.mtime < y.mtime
  {
    var j := EligibleWrite(s, c, untilTs, y);
    var i :| 0 <= i < s.upto - 1 && s.writes[i] == x;
    if i > j {
      assert false;
    }
  }

  lemma CopyKeepsOrder(s: State, e: Event, s': State, c: Config)
    requires c.capacity >= 1 && Ordered(s, c) && e.Copy? && Step(s, e, s', c) && e.fails == {}
    ensures Increasing(s'.order)
  {
    var added := e.added;
    forall i, j | 0 <= i < j < |s'.order| ensures s'.order[i].mtime < s'.order[j].mtime {
      if j >= |s.order| {
        if i < |s.order| {
          AppendsNewer(s, c, e.untilTs, added, s.order[i], added[j - |s.order|]);
        } else {
          var x, y := added[i - |s.order|], added[j - |s.order|];
          var i' := EligibleWrite(s, c, e.untilTs, x);
          var j' := EligibleWrite(s, c, e.untilTs, y);
          assert x != y && i' != j';
        }
      }
    }
  }

  lemma CopySkipsNothing(s: State, e: Event, s': State, c: Config)
    requires c.capacity >= 1 && Ordered(s, c) && e.Copy? && Step(s, e, s', c) && e.fails == {}
    ensures NothingSkipped(s', c) && CopiedClosed(s')
  {
    CopiesStayClosed(s, e, s', c);
    forall x, i | x in s'.order && 0 <= i < |s'.writes| && Held(s'.writes, i)
                  && c.startTs <= s'.writes[i].mtime < x.mtime
      ensures s'.writes[i] in s'.order
    {
      if x !in s.order {
        var j := EligibleWrite(s, c, e.untilTs, x);
        HeldIsInRing(s.writes, i);
        OlderIsClosed(s.writes, i);
        assert s.writes[i] in s.order || s.writes[i] in e.added;
      }
    }
  }

  lemma CopiesStayClosed(s: State, e: Event, s': State, c: Config)
    requires c.capacity >= 1 && Increasing(s.writes) && CopiedClosed(s) && e.Copy? && Step(s, e, s', c)
    ensures CopiedClosed(s')
  {
    forall x | x in s'.order ensures exists i :: 0 <= i < s'.upto - 1 && s'.writes[i] == x {
      if x in s.order {
        var i :| 0 <= i < s.upto - 1 && s.writes[i] == x;
      } else {
        var i := EligibleWrite(s, c, e.untilTs, x);
      }
    }
  }

  /** A recorder that starts again writes into the first slot: exactly the write that
      was there leaves the ring, wherever the recorder had got to. */
  lemma RestartTakesFirstSlot(s: State, e: Event, s': State, c: Config, i: nat)
    requires c.capacity >= 1 && e.Restart? && Step(s, e, s', c) && i < |s.writes|
    ensures Held(s'.writes, i) <==> Held(s.writes, i) && s.writes[i].slot != 0
    ensures Held(s'.writes, |s.writes|) && s'.writes[|s.writes|] == Ident(0, e.mtime)
  {
    assert forall j :: 0 <= j < |s.writes| ==> s'.writes[j] == s.writes[j];
    if Held(s'.writes, i) {
      assert s'.writes[|s.writes|].slot != s'.writes[i].slot;
      assert forall j :: i < j < |s.writes| ==> s'.writes[j].slot != s'.writes[i].slot;
    }
  }

  /** Turning the ring leaves closed writes alone. */
  lemma TurnKeepsWrites(s: State, e: Event, s': State, c: Config)
    requires c.capacity >= 1 && Increasing(s.writes) && !e.Copy? && Step(s, e, s', c)
    ensures Increasing(s'.writes) && |s.writes| <= |s'.writes| && s'.order == s.order && s'.upto == s.upto
    ensures forall i :: 0 <= i < |s.writes| - 1 ==> s'.writes[i] == s.writes[i]
    ensures forall i :: 0 <= i < |s.writes| ==> s'.writes[i].slot == s.writes[i].slot
    ensures forall i :: 0 <= i < |s.writes| && Held(s'.writes, i) ==> Held(s.writes, i)
  {
    forall i | 0 <= i < |s.writes| && Held(s'.writes, i) ensures Held(s.writes, i) {
      forall j | i < j < |s.writes| ensures s.writes[j].slot != s.writes[i].slot {
        assert s'.writes[j].slot == s.writes[j].slot;
      }
    }
  }

  lemma TurnKeepsCopies(s: State, e: Event, s': State, c: Config)
    requires c.capacity >= 1 && Increasing(s.writes) && CopiedClosed(s) && !e.Copy? && Step(s, e, s', c)
    ensures CopiedClosed(s')
  {
    TurnKeepsWrites(s, e, s', c);
    hide Step;
    forall x | x in s'.order ensures exists i :: 0 <= i < s'.upto - 1 && s'.writes[i] == x {
      var i :| 0 <= i < s.upto - 1 && s.writes[i] == x;
      assert s'.writes[i] == x;
    }
  }

  lemma TurnKeepsOrder(s: State, e: Event, s': State, c: Config)
    requires c.capacity >= 1 && Ordered(s, c) && !e.Copy? && Step(s, e, s', c)
    ensures Ordered(s', c)
  {
    TurnKeepsWrites(s, e, s', c);
    TurnKeepsCopies(s, e, s', c);
    hide Step;
    forall x, i | x in s'.order && 0 <= i < |s'.writes| && Held(s'.writes, i)
                  && c.startTs <= s'.writes[i].mtime < x.mtime
      ensures s'.writes[i] in s'.order
    {
      var k :| 0 <= k < s.upto - 1 && s.writes[k] == x;
      assert s'.writes[k] == x && i < k;
      assert Held(s.writes, i);
    }
  }

  /** Whatever the ring did between the calls, restarts included, and whatever
      band each call asked for: if no copy failed, the scratch holds closed
      generations only and lists them in strictly increasing play order. */
  lemma {:induction false} ScratchInPlayOrder(states: seq<State>, events: seq<Event>, c: Config, n: nat)
    requires Run(states, events, c) && n < |states|
    requires forall i :: 0 <= i < |events| && events[i].Copy? ==> events[i].fails == {}
    ensures Ordered(states[n], c)
  {
    if n > 0 {
      var i := n - 1;
      ScratchInPlayOrder(states, events, c, i);
      assert Step(states[i], events[i], states[i + 1], c);
      if events[i].Copy? {
        CopyKeepsOrder(states[i], events[i], states[n], c);
        CopySkipsNothing(states[i], events[i], states[n], c);
      } else {
        TurnKeepsOrder(states[i], events[i], states[n], c);
      }
    }
  }

  // --------------------------------------------------- when a copy fails

  /** Write `i` is closed, still in the ring, in the band and not in scratch. */
  ghost predicate Outstanding(s: State, c: Config, untilTs: real, i: nat)
    requires i < |s.writes|
  {
    && i < |s.writes| - 1 && Held(s.writes, i) && s.writes[i] !in s.order
    && c.startTs <= untilTs && Overlaps(s.writes[i].mtime, c.segmentS, c.startTs, untilTs)
  }

  lemma OutstandingIsEligible(s: State, c: Config, untilTs: real, i: nat)
    requires Increasing(s.writes) && i < |s.writes|
    ensures Outstanding(s, c, untilTs, i) ==>
              Eligible(RingOf(s.writes), c.segmentS, c.startTs, untilTs, Idents(s.order), s.writes[i])
  {
    if Outstanding(s, c, untilTs, i) {
      HeldIsInRing(s.writes, i);
      OlderIsClosed(s.writes, i);
    }
  }

  /** Everything outstanding, but for what fails again, is newer than everything
      copied. */
  ghost predicate NoneOverdue(s: State, c: Config, untilTs: real, fails: set<Ident>) {
    forall i, x :: (0 <= i < |s.writes| && Outstanding(s, c, untilTs, i) && s.writes[i] !in fails && x in s.order)
      ==> x.mtime < s.writes[i].mtime
  }

  lemma OverdueBreaksOrder(s: State, e: Event, s': State, c: Config, i: nat, x: Ident)
    requires c.capacity >= 1 && e.Copy? && Step(s, e, s', c)
    requires Increasing(s.writes) && i < |s.writes| && Outstanding(s, c, e.untilTs, i) && s.writes[i] !in e.fails
    requires x in s.order && Increasing(s'.order)
    ensures x.mtime < s.writes[i].mtime
  {
    OutstandingIsEligible(s, c, e.untilTs, i);
    var k :| 0 <= k < |s.order| && s.order[k] == x;
    var m :| 0 <= m < |e.added| && e.added[m] == s.writes[i];
    assert s'.order[k] == x && s'.order[|s.order| + m] == s.writes[i];
  }

  lemma AddedIncreasing(s: State, c: Config, untilTs: real, fails: set<Ident>, added: seq<Ident>)
    requires Increasing(s.writes) && Appends(RingOf(s.writes), c.segmentS, c.startTs, untilTs, s.order, fails, added)
    ensures Increasing(added)
  {
    forall i, j | 0 <= i < j < |added| ensures added[i].mtime < added[j].mtime {
      var i' := EligibleWrite(s, c, untilTs, added[i]);
      var j' := EligibleWrite(s, c, untilTs, added[j]);
      assert added[i] != added[j] && i' != j';
    }
  }

  lemma NoneOverdueKeepsOrder(s: State, e: Event, s': State, c: Config)
    requires c.capacity >= 1 && e.Copy? && Step(s, e, s', c)
    requires Increasing(s.writes) && Increasing(s.order) && NoneOverdue(s, c, e.untilTs, e.fails)
    ensures Increasing(s'.order)
  {
    AddedIncreasing(s, c, e.untilTs, e.fails, e.added);
    forall i, j | 0 <= i < |s.order| && 0 <= j < |e.added| ensures s.order[i].mtime < e.added[j].mtime {
      var k := EligibleWrite(s, c, e.untilTs, e.added[j]);
      assert Outstanding(s, c, e.untilTs, k);
    }
  }

  /** A failed copy that is made good later lands behind newer footage: a call,
      whichever of its copies fail, keeps the scratch in play order exactly when
      nothing it copies is older than something copied before. */
  lemma OrderKeptExactly(s: State, e: Event, s': State, c: Config)
    requires c.capacity >= 1 && e.Copy? && Step(s, e, s', c)
    requires Increasing(s.writes) && Increasing(s.order)
    ensures Increasing(s'.order) <==> NoneOverdue(s, c, e.untilTs, e.fails)
  {
    if Increasing(s'.order) {
      forall i, x | 0 <= i < |s.writes| && Outstanding(s, c, e.untilTs, i) && s.writes[i] !in e.fails && x in s.order
        ensures x.mtime < s.writes[i].mtime
      {
        OverdueBreaksOrder(s, e, s', c, i, x);
      }
    }
    if NoneOverdue(s, c, e.untilTs, e.fails) {
      NoneOverdueKeepsOrder(s, e, s', c);
    }
  }

  lemma {:induction false} WritesIncrease(states: seq<State>, events: seq<Event>, c: Config, n: nat)
    requires Run(states, events, c) && n < |states|
    ensures Increasing(states[n].writes) && CopiedClosed(states[n])
  {
    if n > 0 {
      var i := n - 1;
      WritesIncrease(states, events, c, i);
      var s, e, s' := states[i], events[i], states[i + 1];
      assert Step(s, e, s', c);
      if e.Copy? {
        CopiesStayClosed(s, e, s', c);
      } else {
        TurnKeepsWrites(s, e, s', c);
        TurnKeepsCopies(s, e, s', c);
      }
    }
  }

  ghost predicate CopiesInOrder(s: State, e: Event, c: Config) {
    e.Copy? ==> NoneOverdue(s, c, e.untilTs, e.fails)
  }

  /** Once out of order, always out of order. */
  lemma OrderStep(s: State, e: Event, s': State, c: Config)
    requires c.capacity >= 1 && Step(s, e, s', c) && Increasing(s.writes)
    ensures Increasing(s'.order) <==> Increasing(s.order) && CopiesInOrder(s, e, c)
  {
    if Increasing(s.order) {
      if e.Copy? { OrderKeptExactly(s, e, s', c); }
    } else {
      var i, j :| 0 <= i < j < |s.order| && s.order[i].mtime >= s.order[j].mtime;
      assert s'.order[i] == s.order[i] && s'.order[j] == s.order[j];
    }
  }

  /** On any run, with rotations, restarts and failing copies in any order, the
      scratch is in play order if and only if every call so far met the
      condition. */
  lemma {:induction false} OrderKeptOnRuns(states: seq<State>, events: seq<Event>, c: Config, n: nat)
    requires Run(states, events, c) && n < |states|
    ensures Increasing(states[n].order) <==> forall k :: 0 <= k < n ==> CopiesInOrder(states[k], events[k], c)
  {
    if n > 0 {
      var i := n - 1;
      WritesIncrease(states, events, c, i);
      assert Step(states[i], events[i], states[i + 1], c);
      OrderKeptOnRuns(states, events, c, i);
      hide Step, Increasing, CopiesInOrder, CopiedClosed;
      OrderStep(states[i], events[i], states[n], c);
    }
  }

  // ------------------------------------ failures that break the play order

  /** The call fails on `y` and copies something newer. */
  ghost predicate FailsBehind(e: Event, y: Ident) {
    e.Copy? && y in e.fails && exists x :: x in e.added && x.mtime > y.mtime
  }

  /** Some call made good the copy of a segment on which an earlier call, that
      copied something newer, had failed. */
  ghost predicate MadeGood(events: seq<Event>, n: nat)
    requires n <= |events|
  {
    exists k, m, y :: 0 <= k < m < n && FailsBehind(events[k], y) && events[m].Copy? && y in events[m].added
  }

  lemma {:induction false} OrderGrows(states: seq<State>, events: seq<Event>, c: Config, n: nat, m: nat)
    requires Run(states, events, c) && n <= m < |states|
    ensures states[n].order <= states[m].order
  {
    if n < m {
      OrderGrows(states, events, c, n, m - 1);
      assert Step(states[m - 1], events[m - 1], states[m], c);
    }
  }

  /** Which call copied `x`. */
  lemma {:induction false} CopiedAt(states: seq<State>, events: seq<Event>, c: Config, n: nat, x: Ident) returns (k: nat)
    requires Run(states, events, c) && n < |states| && x in states[n].order
    ensures k < n && events[k].Copy? && x in events[k].added
  {
    k := n - 1;
    assert Step(states[k], events[k], states[k + 1], c);
    if x in states[k].order { k := CopiedAt(states, events, c, k, x); }
  }

  /** Closed writes stay the writes they are. */
  lemma {:induction false} ClosedStays(states: seq<State>, events: seq<Event>, c: Config, k: nat, n: nat, i: nat)
    requires Run(states, events, c) && k <= n < |states| && i < |states[k].writes| - 1
    ensures i < |states[n].writes| - 1 && states[n].writes[i] == states[k].writes[i]
    ensures Held(states[n].writes, i) ==> Held(states[k].writes, i)
  {
    if k < n {
      ClosedStays(states, events, c, k, n - 1, i);
      WritesIncrease(states, events, c, n - 1);
      assert Step(states[n - 1], events[n - 1], states[n], c);
      if !events[n - 1].Copy? { TurnKeepsWrites(states[n - 1], events[n - 1], states[n], c); }
    }
  }

  /** Nothing stays outstanding behind what is copied, but what that call failed
      on: it was in the ring, closed and in the band just as well. */
  lemma OverdueWasFailed(states: seq<State>, events: seq<Event>, c: Config, n: nat, untilTs: real, i: nat, x: Ident)
    returns (k: nat)
    requires Run(states, events, c) && n < |states| && i < |states[n].writes| && Outstanding(states[n], c, untilTs, i)
    requires x in states[n].order && x.mtime >= states[n].writes[i].mtime
    ensures k < n && events[k].Copy? && states[n].writes[i] in events[k].fails
    ensures x in events[k].added && x.mtime > states[n].writes[i].mtime
  {
    var y := states[n].writes[i];
    k := CopiedAt(states, events, c, n, x);
    WritesIncrease(states, events, c, n);
    WritesIncrease(states, events, c, k);
    var s, e := states[k], events[k];
    assert Step(s, e, states[k + 1], c);
    var j := EligibleWrite(s, c, e.untilTs, x);
    ClosedStays(states, events, c, k, n, j);
    assert i < j;
    ClosedStays(states, events, c, k, n, i);
    OrderGrows(states, events, c, k, n);
    OrderGrows(states, events, c, k + 1, n);
    OutstandingIsEligible(s, c, e.untilTs, i);
    assert y !in s.order && y !in states[k + 1].order;
  }

  lemma MadeGoodBreaksOrder(states: seq<State>, events: seq<Event>, c: Config, n: nat, k: nat, m: nat, y: Ident)
    requires Run(states, events, c) && k < m < n < |states| && FailsBehind(events[k], y)
    requires events[m].Copy? && y in events[m].added
    ensures !Increasing(states[n].order)
  {
    var x :| x in events[k].added && x.mtime > y.mtime;
    assert Step(states[k], events[k], states[k + 1], c) && Step(states[m], events[m], states[m + 1], c);
    OrderGrows(states, events, c, k + 1, m);
    OrderGrows(states, events, c, m + 1, n);
    hide Run, Step, Appends;
    var a :| 0 <= a < |events[k].added| && events[k].added[a] == x;
    var b :| 0 <= b < |events[m].added| && events[m].added[b] == y;
    var i, j := |states[k].order| + a, |states[m].order| + b;
    assert states[k + 1].order[i] == x && states[m].order[i] == x && i < j;
    assert states[m + 1].order[j] == y && states[m + 1].order[i] == x;
    assert states[n].order[j] == y && states[n].order[i] == x;
  }

  /** What puts the scratch out of order, exactly, on any run: a call fails on a
      segment while it copies a newer one, and a later call makes that copy good. */
  lemma OutOfOrderExactly(states: seq<State>, events: seq<Event>, c: Config, n: nat)
    requires Run(states, events, c) && n < |states|
    ensures Increasing(states[n].order) <==> !MadeGood(events, n)
  {
    if k, m, y :| 0 <= k < m < n && FailsBehind(events[k], y) && events[m].Copy? && y in events[m].added {
      MadeGoodBreaksOrder(states, events, c, n, k, m, y);
    }
    OrderKeptOnRuns(states, events, c, n);
    if m :| 0 <= m < n && !CopiesInOrder(states[m], events[m], c) {
      var s, e := states[m], events[m];
      var i, x :| 0 <= i < |s.writes| && Outstanding(s, c, e.untilTs, i) && s.writes[i] !in e.fails && x in s.order
                  && x.mtime >= s.writes[i].mtime;
      var k := OverdueWasFailed(states, events, c, m, e.untilTs, i, x);
      WritesIncrease(states, events, c, m);
      assert Step(s, e, states[m + 1], c);
      OutstandingIsEligible(s, c, e.untilTs, i);
      assert FailsBehind(events[k], s.writes[i]) && s.writes[i] in e.added;
    }
  }

  const THREE: seq<Ident> := [Ident(0, 1.0), Ident(1, 2.0), Ident(2, 3.0)]

  lemma RingOfThree()
    ensures RingOf(THREE) == map[0 := 1.0, 1 := 2.0, 2 := 3.0]
  {
    assert THREE[..2] == [Ident(0, 1.0), Ident(1, 2.0)];
    assert THREE[..2][..1] == [Ident(0, 1.0)];
    assert THREE[..2][..1][..0] == [];
    assert RingOf(THREE[..2][..1]) == map[0 := 1.0];
  }

  /** The two calls below do copy what they ought to. */
  lemma TwoCalls()
    ensures Appends(RingOf(THREE), 1.0, 0.0, 10.0, [], {Ident(0, 1.0)}, [Ident(1, 2.0)])
    ensures Appends(RingOf(THREE), 1.0, 0.0, 10.0, [Ident(1, 2.0)], {}, [Ident(0, 1.0)])
  {
    var a, b, ring := Ident(0, 1.0), Ident(1, 2.0), RingOf(THREE);
    RingOfThree();
    assert ring[2] == 3.0;
    assert forall x :: Eligible(ring, 1.0, 0.0, 10.0, Idents([]), x) <==> x == a || x == b;
    assert forall x :: Eligible(ring, 1.0, 0.0, 10.0, Idents([b]), x) <==> x == a;
  }

  /** A call over the three segments, as a step. */
  lemma CallOnThree(c: Config, copying: bool, upto: nat, order: seq<Ident>, passed: set<Ident>, fails: set<Ident>, added: seq<Ident>)
    requires c == Config(10, 1.0, 0.0) && fails <= {Ident(0, 1.0)} && (copying ==> upto == 3)
    requires Appends(RingOf(THREE), 1.0, 0.0, 10.0, order, fails, added)
    ensures Step(State(THREE, order, passed, copying, upto, upto), Copy(10.0, fails, added),
                 State(THREE, order + added, passed + (fails * {Ident(0, 1.0)}), true, 3, 3), c)
  {
    var s, e := State(THREE, order, passed, copying, upto, upto), Copy(10.0, fails, added);
    assert PassedBy(s, e, c) == fails * {Ident(0, 1.0)} by {
      if Ident(0, 1.0) in fails { assert s.writes[0] == Ident(0, 1.0) && Misses(e, c, s.writes[0]); }
    }
    hide Appends, RingOf, PassedBy;
  }

  lemma ThreeRotations(c: Config)
    requires c == Config(10, 1.0, 0.0)
    ensures Step(State([], [], {}, false, 0, 0), Rotate(1.0), State(THREE[..1], [], {}, false, 0, 0), c)
    ensures Step(State(THREE[..1], [], {}, false, 0, 0), Rotate(2.0), State(THREE[..2], [], {}, false, 0, 0), c)
    ensures Step(State(THREE[..2], [], {}, false, 0, 0), Rotate(3.0), State(THREE, [], {}, false, 0, 0), c)
  {
  }

  function ThreeStates(): seq<State> {
    var a, b := Ident(0, 1.0), Ident(1, 2.0);
    [State([], [], {}, false, 0, 0), State(THREE[..1], [], {}, false, 0, 0), State(THREE[..2], [], {}, false, 0, 0),
     State(THREE, [], {}, false, 0, 0), State(THREE, [b], {a}, true, 3, 3), State(THREE, [b, a], {a}, true, 3, 3)]
  }

  function ThreeEvents(): seq<Event> {
    var a, b := Ident(0, 1.0), Ident(1, 2.0);
    [Rotate(1.0), Rotate(2.0), Rotate(3.0), Copy(10.0, {a}, [b]), Copy(10.0, {}, [a])]
  }

  lemma ThreeIsRun(c: Config)
    requires c == Config(10, 1.0, 0.0)
    ensures Run(ThreeStates(), ThreeEvents(), c)
  {
    var a, b := Ident(0, 1.0), Ident(1, 2.0);
    TwoCalls();
    ThreeRotations(c);
    hide Appends, RingOf, Step;
    CallOnThree(c, false, 0, [], {}, {a}, [b]);
    CallOnThree(c, true, 3, [b], {a}, {}, [a]);
    assert {} + {a} * {a} == {a} && {a} + {} * {a} == {a};
    assert [] + [b] == [b] && [b] + [a] == [b, a];
    var states, events := ThreeStates(), ThreeEvents();
    assert Step(states[3], events[3], states[4], c) && Step(states[4], events[4], states[5], c);
    forall i | 0 <= i < 5 ensures Step(states[i], events[i], states[i + 1], c) {
      if i == 0 { assert Step(states[0], events[0], states[1], c); }
      if i == 1 { assert Step(states[1], events[1], states[2], c); }
      if i == 2 { assert Step(states[2], events[2], states[3], c); }
    }
  }

  /** A run with two calls over the same band, the first of which fails on the
      older of two segments; nothing is overwritten between them. */
  lemma FailedCopyBreaksOrder(c: Config)
    requires c == Config(10, 1.0, 0.0)
    ensures Run(ThreeStates(), ThreeEvents(), c) && !Increasing(ThreeStates()[5].order)
    ensures forall i :: 0 <= i < 5 ==> Timely(ThreeStates()[i], ThreeEvents()[i]) && !ThreeEvents()[i].Restart?
  {
    ThreeIsRun(c);
    hide Run;
    assert ThreeStates()[5].order[1].mtime < ThreeStates()[5].order[0].mtime;
  }

  // -------------------------------------------------------- nothing is lost

  /** The slot of the n-th write of an undisturbed recorder. */
  function SlotOf(n: nat, capacity: nat): Slot
    requires capacity >= 1
  {
    if n < capacity then n else SlotOf(n - capacity, capacity)
  }

  predicate RoundRobin(writes: seq<Ident>, capacity: nat)
    requires capacity >= 1
  {
    forall i :: 0 <= i < |writes| ==> writes[i].slot == SlotOf(i, capacity)
  }

  lemma {:induction false} SlotFollows(n: nat, capacity: nat)
    requires capacity >= 1
    ensures SlotOf(n, capacity) < capacity
    ensures SlotOf(n + 1, capacity) == if SlotOf(n, capacity) + 1 == capacity then 0 else SlotOf(n, capacity) + 1
    decreases n
  {
    if n >= capacity { SlotFollows(n - capacity, capacity); }
  }

  lemma {:induction false} SlotDiffers(i: nat, j: nat, capacity: nat)
    requires capacity >= 1 && i < j < i + capacity
    ensures SlotOf(i, capacity) != SlotOf(j, capacity)
    decreases i
  {
    if i >= capacity { SlotDiffers(i - capacity, j - capacity, capacity); }
  }

  /** The ring holds exactly the last `capacity` writes. */
  lemma HoldsLast(writes: seq<Ident>, capacity: nat, i: nat)
    requires capacity >= 1 && RoundRobin(writes, capacity) && i < |writes|
    ensures Held(writes, i) <==> i + capacity >= |writes|
  {
    if i + capacity >= |writes| {
      forall j | i < j < |writes| ensures writes[j].slot != writes[i].slot {
        SlotDiffers(i, j, capacity);
      }
    } else {
      assert SlotOf(i + capacity, capacity) == SlotOf(i, capacity);
      assert writes[i + capacity].slot == writes[i].slot;
    }
  }

  // ---------------------------------------------------- what a run captures

  /** The call has write `i` to copy: it is not the newest, no later write has its
      slot, and the `segmentS` seconds before it ended meet the band. */
  predicate Offered(s: State, e: Event, c: Config, i: nat)
    requires e.Copy? && i < |s.writes|
  {
    && i < |s.writes| - 1 && (forall j :: i < j < |s.writes| ==> s.writes[j].slot != s.writes[i].slot)
    && c.startTs <= e.untilTs && c.startTs <= s.writes[i].mtime && s.writes[i].mtime - c.segmentS <= e.untilTs
  }

  /** The call copies `x`, unless it is there already. */
  ghost predicate Takes(s: State, e: Event, c: Config, x: Ident) {
    e.Copy? && x !in e.fails && exists i :: 0 <= i < |s.writes| && s.writes[i] == x && Offered(s, e, c, i)
  }

  lemma TakesIsEligible(s: State, e: Event, c: Config, x: Ident)
    requires Increasing(s.writes) && e.Copy?
    ensures Takes(s, e, c, x) <==>
              Eligible(RingOf(s.writes), c.segmentS, c.startTs, e.untilTs, {}, x) && x !in e.fails
  {
    var s0 := s.(order := []);
    assert Idents(s0.order) == {};
    if Eligible(RingOf(s.writes), c.segmentS, c.startTs, e.untilTs, {}, x) && x !in e.fails {
      var i := EligibleWrite(s0, c, e.untilTs, x);
      assert Offered(s, e, c, i);
    }
    if Takes(s, e, c, x) {
      var i :| 0 <= i < |s.writes| && s.writes[i] == x && Offered(s, e, c, i);
      OutstandingIsEligible(s0, c, e.untilTs, i);
    }
  }

  /** Exactly what is captured, on any run: a generation is in scratch if and
      only if at some call so far it was in the ring, closed and in the band, and
      its copy did not fail. */
  lemma {:induction false} CopiedExactly(states: seq<State>, events: seq<Event>, c: Config, n: nat, x: Ident)
    requires Run(states, events, c) && n < |states|
    ensures x in states[n].order <==> exists k :: 0 <= k < n && Takes(states[k], events[k], c, x)
  {
    if n > 0 {
      var i := n - 1;
      var s, e, s' := states[i], events[i], states[i + 1];
      assert Step(s, e, s', c);
      CopiedExactly(states, events, c, i, x);
      WritesIncrease(states, events, c, i);
      if e.Copy? { TakesIsEligible(s, e, c, x); }
      assert x in states[n].order <==> x in s.order || Takes(s, e, c, x);
    }
  }

  /** Write `i` was in the ring at the first call, or came after it. */
  ghost predicate SinceFirst(s: State, i: nat)
    requires i < |s.writes|
  {
    s.copying && (i >= s.first || (s.first <= |s.writes| && Held(s.writes[..s.first], i)))
  }

  /** Every write since the first call that closed by the last one, and does not
      end before the window, is in scratch or was passed over. */
  ghost predicate AllKept(s: State, c: Config) {
    && Increasing(s.writes) && CopiedClosed(s) && s.first <= s.upto
    && (!s.copying ==> s.upto == 0)
    && (forall i :: 0 <= i < s.upto - 1 && SinceFirst(s, i) && c.startTs <= s.writes[i].mtime ==>
          s.writes[i] in s.order || s.writes[i] in s.passed)
  }

  /** How far the ring turned since the last copy call. */
  function Advance(s: State): int {
    |s.writes| - s.upto
  }

  /** Nothing written since the last call, nor the write it had to withhold, has
      been overwritten. */
  ghost predicate Timely(s: State, e: Event) {
    e.Copy? && s.copying ==> forall i :: 0 <= i < |s.writes| && s.upto - 1 <= i ==> Held(s.writes, i)
  }

  /** A timely call, whatever its band and whichever of its copies fail, takes
      every write that closed since the last one, or passes it over. */
  lemma TimelyCopyTakes(s: State, e: Event, s': State, c: Config, i: nat)
    requires c.capacity >= 1 && AllKept(s, c) && e.Copy? && Step(s, e, s', c) && Timely(s, e)
    requires i < s'.upto - 1 && SinceFirst(s', i) && c.startTs <= s.writes[i].mtime
    ensures s.writes[i] in s'.order || s.writes[i] in s'.passed
  {
    if s.writes[i] !in s.order && !Misses(e, c, s.writes[i]) {
      if s.copying && i < s.upto - 1 {
        assert s.writes[i] in s.passed;
      } else {
        assert s.writes[..|s.writes|] == s.writes;
        assert Held(s.writes, i);
        OutstandingIsEligible(s, c, e.untilTs, i);
      }
    }
  }

  lemma TurnKeepsFirst(s: State, e: Event, s': State, c: Config, i: nat)
    requires c.capacity >= 1 && Increasing(s.writes) && !e.Copy? && Step(s, e, s', c) && s.first <= |s.writes|
    requires i < |s.writes| && SinceFirst(s', i)
    ensures SinceFirst(s, i)
  {
    TurnKeepsWrites(s, e, s', c);
    if i < s.first {
      forall j | i < j < s.first ensures s.writes[..s.first][j].slot != s.writes[..s.first][i].slot {
        assert s'.writes[..s.first][j].slot != s'.writes[..s.first][i].slot;
      }
    }
  }

  lemma TurnKeeps(s: State, e: Event, s': State, c: Config)
    requires c.capacity >= 1 && AllKept(s, c) && !e.Copy? && Step(s, e, s', c)
    ensures AllKept(s', c)
  {
    TurnKeepsWrites(s, e, s', c);
    TurnKeepsCopies(s, e, s', c);
    assert s'.copying == s.copying && s'.first == s.first && s'.upto == s.upto && s'.passed == s.passed;
    forall i | 0 <= i < s'.upto - 1 && SinceFirst(s', i) && c.startTs <= s'.writes[i].mtime
      ensures s'.writes[i] in s'.order || s'.writes[i] in s'.passed
    {
      assert s'.writes[i] == s.writes[i];
      TurnKeepsFirst(s, e, s', c, i);
    }
  }

  lemma CopyKeeps(s: State, e: Event, s': State, c: Config)
    requires c.capacity >= 1 && AllKept(s, c) && e.Copy? && Step(s, e, s', c) && Timely(s, e)
    ensures AllKept(s', c)
  {
    CopiesStayClosed(s, e, s', c);
    forall i | 0 <= i < s'.upto - 1 && SinceFirst(s', i) && c.startTs <= s'.writes[i].mtime
      ensures s'.writes[i] in s'.order || s'.writes[i] in s'.passed
    {
      TimelyCopyTakes(s, e, s', c, i);
    }
  }

  /** No footage is lost to ring wrap: over any interleaving of rotations,
      recorder restarts and copies in which nothing is overwritten between two
      calls, the scratch holds every generation that closed since the first call
      and that the window reaches, but for those a call passed over. */
  lemma {:induction false} NoFootageLost(states: seq<State>, events: seq<Event>, c: Config, n: nat)
    requires Run(states, events, c) && n < |states|
    requires forall i :: 0 <= i < n ==> Timely(states[i], events[i])
    ensures AllKept(states[n], c)
  {
    if n > 0 {
      var k := n - 1;
      NoFootageLost(states, events, c, k);
      var s, e, s' := states[k], events[k], states[k + 1];
      assert Step(s, e, s', c) && Timely(s, e);
      hide Step, AllKept, Timely;
      if e.Copy? { CopyKeeps(s, e, s', c); } else { TurnKeeps(s, e, s', c); }
    }
  }

  /** What is passed over: a write that was closed at some call, which failed on
      it or asked for a band that ended before it began. */
  lemma {:induction false} PassedExactly(states: seq<State>, events: seq<Event>, c: Config, n: nat, x: Ident)
    requires Run(states, events, c) && n < |states|
    ensures x in states[n].passed <==>
              exists k :: 0 <= k < n && events[k].Copy? && x in PassedBy(states[k], events[k], c)
  {
    if n > 0 {
      var i := n - 1;
      PassedExactly(states, events, c, i, x);
      assert Step(states[i], events[i], states[i + 1], c);
      hide PassedBy;
    }
  }

  /** The call fails nowhere and asks for everything that is closed. */
  predicate UpToNow(s: State, e: Event, c: Config) {
    e.Copy? ==>
      && e.fails == {} && c.startTs <= e.untilTs
      && forall i :: 0 <= i < |s.writes| - 1 ==> s.writes[i].mtime - c.segmentS <= e.untilTs
  }

  /** Calls that ask for everything up to now, as extends do, pass nothing over,
      and the last call, whose band may end earlier, nothing within its band. */
  lemma NothingPassed(states: seq<State>, events: seq<Event>, c: Config, n: nat, x: Ident)
    requires Run(states, events, c) && n < |events| && forall k :: 0 <= k < n ==> UpToNow(states[k], events[k], c)
    requires events[n].Copy? && !Misses(events[n], c, x)
    ensures x !in states[n + 1].passed
  {
    PassedExactly(states, events, c, n + 1, x);
    if k :| 0 <= k < n && events[k].Copy? && x in PassedBy(states[k], events[k], c) {
      assert UpToNow(states[k], events[k], c);
    }
  }

  /** An undisturbed recorder goes round robin. */
  lemma {:induction false} RoundRobinOnRuns(states: seq<State>, events: seq<Event>, c: Config, n: nat)
    requires Run(states, events, c) && n < |states| && forall i :: 0 <= i < n ==> !events[i].Restart?
    ensures RoundRobin(states[n].writes, c.capacity)
  {
    if n > 0 {
      var i := n - 1;
      RoundRobinOnRuns(states, events, c, i);
      assert Step(states[i], events[i], states[i + 1], c);
      if events[i].Rotate? && states[i].writes != [] {
        SlotFollows(|states[i].writes| - 1, c.capacity);
      }
    }
  }

  /** Nothing written since the last call, nor the write it withheld, if there was
      one, is lost from an undisturbed ring of this capacity. */
  predicate WithinRound(s: State, capacity: nat) {
    Advance(s) + (if s.upto == 0 then 0 else 1) <= capacity
  }

  lemma TimelyWithinRound(s: State, e: Event, c: Config)
    requires c.capacity >= 1 && RoundRobin(s.writes, c.capacity) && e.Copy? && s.copying && s.upto <= |s.writes|
    ensures Timely(s, e) <==> WithinRound(s, c.capacity)
  {
    var oldest := if s.upto == 0 then 0 else s.upto - 1;
    if oldest < |s.writes| { HoldsLast(s.writes, c.capacity, oldest); }
    if WithinRound(s, c.capacity) {
      forall i | 0 <= i < |s.writes| && oldest <= i ensures Held(s.writes, i) {
        HoldsLast(s.writes, c.capacity, i);
      }
    }
  }

  /** The bound is exact.  On any run without a restart of the recorder, a call is
      timely if and only if the ring turned by less than its capacity since the
      last one (by no more than it, if that one found an empty ring). */
  lemma TimelyExactly(states: seq<State>, events: seq<Event>, c: Config, n: nat)
    requires Run(states, events, c) && n < |events| && forall k :: 0 <= k < n ==> !events[k].Restart?
    requires events[n].Copy? && states[n].copying
    ensures Timely(states[n], events[n]) <==> WithinRound(states[n], c.capacity)
  {
    RoundRobinOnRuns(states, events, c, n);
    WritesIncrease(states, events, c, n);
    TimelyWithinRound(states[n], events[n], c);
  }

  lemma WithheldStep(s: State, e: Event, s': State, c: Config)
    requires c.capacity >= 1 && RoundRobin(s.writes, c.capacity) && Increasing(s.writes) && CopiedClosed(s)
    requires s.copying && s.upto >= 1 && e.Copy? && Step(s, e, s', c)
    requires c.startTs <= s.writes[s.upto - 1].mtime && !Misses(e, c, s.writes[s.upto - 1])
    ensures s.writes[s.upto - 1] in s'.order <==> 0 < Advance(s) < c.capacity
    ensures s'.writes[|s'.writes| - 1] !in s'.order
  {
    var g := s.upto - 1;
    HoldsLast(s.writes, c.capacity, g);
    OutstandingIsEligible(s, c, e.untilTs, g);
    CopiesStayClosed(s, e, s', c);
    if s.writes[g] in s'.order {
      assert s.writes[g] !in s.order;
      var i := EligibleWrite(s, c, e.untilTs, s.writes[g]);
    }
  }

  /** And so is what it is for.  On any run without a restart, the write the last
      call had to withhold is in scratch after the next one that asks for it, and
      whose copy of it does not fail, if and only if the ring turned, but by less
      than its capacity; the write still in progress is never copied. */
  lemma WithheldIsCopiedIff(states: seq<State>, events: seq<Event>, c: Config, n: nat)
    requires Run(states, events, c) && n < |events| && forall k :: 0 <= k < n ==> !events[k].Restart?
    requires events[n].Copy? && states[n].copying && 1 <= states[n].upto <= |states[n].writes|
    requires var x := states[n].writes[states[n].upto - 1]; c.startTs <= x.mtime && !Misses(events[n], c, x)
    ensures var s := states[n];
            && (s.writes[s.upto - 1] in states[n + 1].order <==> 0 < Advance(s) < c.capacity)
            && s.writes[|s.writes| - 1] !in states[n + 1].order
  {
    RoundRobinOnRuns(states, events, c, n);
    WritesIncrease(states, events, c, n);
    assert Step(states[n], events[n], states[n + 1], c);
    WithheldStep(states[n], events[n], states[n + 1], c);
  }
}
