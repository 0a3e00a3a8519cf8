/** From the turning ring to the published clip. */
module EndToEnd {
  import opened Collections
  import opened Preroll
  import opened ClipNames
  import opened Recording
  import opened RingRuns

  /** The probe of the finalize rejects the scratch file that holds `x`. */
  predicate Rejected(order: seq<Ident>, badNames: set<nat>, x: Ident) {
    exists m :: m in badNames && m < |order| && order[m] == x
  }

  lemma PartsAreCopied(files: map<nat, File>, order: seq<Ident>, names: seq<nat>, badNames: set<nat>, x: Ident)
    requires Numbered(files, order) && x in PartsOf(files, PlayableOf(files, badNames, names))
    ensures x in order
  {
    var kept := PlayableOf(files, badNames, names);
    var i :| 0 <= i < |kept| && PartsOf(files, kept)[i] == x;
    assert kept[i] in kept && Playable(files, badNames, kept[i]);
    assert order[kept[i]] == x;
  }

  /** The whole way.  Take any run of a ring with rotations and recorder restarts,
      on which nothing is overwritten between two copy calls and each call copies
      in order, and a scratch that holds what these calls copied.  A clip then
      published from it plays in strictly increasing order, plays nothing but
      what was copied, and plays every generation that closed since the first
      call and that the window reaches, except what a call passed over or the
      finalize's probe rejects. */
  lemma ClipHasItsFootage(states: seq<State>, events: seq<Event>, c: Config, n: nat, files: map<nat, File>,
                          names: seq<nat>, w: Weather, window: real)
    requires Run(states, events, c) && n < |states|
    requires forall k :: 0 <= k < n ==> Timely(states[k], events[k]) && CopiesInOrder(states[k], events[k], c)
    requires Numbered(files, states[n].order) && |states[n].order| < 1000000 && Lists(files, names)
    requires Publishes(files, names, w, window)
    ensures var s, parts := states[n], ClipOf(files, names, w, window).parts;
            && Increasing(parts) && (forall x :: x in parts ==> x in s.order)
            && |s.writes| >= s.upto
            && forall i :: 0 <= i < s.upto - 1 && SinceFirst(s, i) && c.startTs <= s.writes[i].mtime ==>
                 s.writes[i] in parts || s.writes[i] in s.passed || Rejected(s.order, w.badNames, s.writes[i])
  {
    NoFootageLost(states, events, c, n);
    OrderKeptOnRuns(states, events, c, n);
    var s, parts := states[n], ClipOf(files, names, w, window).parts;
    ClipPlaysInOrder(files, s.order, names, w.badNames);
    forall x | x in parts ensures x in s.order { PartsAreCopied(files, s.order, names, w.badNames, x); }
    hide Run, Timely, CopiesInOrder, Publishes, Lists, Numbered;
    forall i | 0 <= i < s.upto - 1 && SinceFirst(s, i) && c.startTs <= s.writes[i].mtime && s.writes[i] !in s.passed
      ensures s.writes[i] in parts || Rejected(s.order, w.badNames, s.writes[i])
    {
      var m :| 0 <= m < |s.order| && s.order[m] == s.writes[i];
      if m in w.badNames { assert Rejected(s.order, w.badNames, s.writes[i]); }
    }
  }

  /** In particular, when no copy fails and each call but the last asks for all
      that is closed, the clip has every generation within the last call's band
      that closed since the first call, but for what the probe rejects. */
  lemma ClipHasItsWindow(states: seq<State>, events: seq<Event>, c: Config, n: nat, files: map<nat, File>,
                         names: seq<nat>, w: Weather, window: real, i: nat)
    requires Run(states, events, c) && n < |events| && events[n].Copy? && events[n].fails == {}
    requires forall k :: 0 <= k <= n ==> Timely(states[k], events[k])
    requires forall k :: 0 <= k < n ==> UpToNow(states[k], events[k], c)
    requires var s := states[n + 1];
             Numbered(files, s.order) && |s.order| < 1000000 && Lists(files, names) && Publishes(files, names, w, window)
    requires i < states[n + 1].upto - 1 && i < |states[n + 1].writes| && SinceFirst(states[n + 1], i)
    requires var x := states[n + 1].writes[i];
             c.startTs <= events[n].untilTs && c.startTs <= x.mtime && x.mtime - c.segmentS <= events[n].untilTs
    ensures var s, parts := states[n + 1], ClipOf(files, names, w, window).parts;
            Increasing(parts) && (s.writes[i] in parts || Rejected(s.order, w.badNames, s.writes[i]))
  {
    NothingPassed(states, events, c, n, states[n + 1].writes[i]);
    NoFailureKeepsOrder(states, events, c, n + 1);
    ClipHasItsFootage(states, events, c, n + 1, files, names, w, window);
  }

  /** Without failing copies every call copies in order. */
  lemma NoFailureKeepsOrder(states: seq<State>, events: seq<Event>, c: Config, n: nat)
    requires Run(states, events, c) && n < |states|
    requires forall k :: 0 <= k < n && events[k].Copy? ==> events[k].fails == {}
    ensures forall k :: 0 <= k < n ==> CopiesInOrder(states[k], events[k], c)
  {
    var states', events' := states[..n + 1], events[..n];
    assert Run(states', events', c) by {
      forall k | 0 <= k < n ensures Step(states'[k], events'[k], states'[k + 1], c) {
        assert Step(states[k], events[k], states[k + 1], c);
      }
    }
    ScratchInPlayOrder(states', events', c, n);
    OrderKeptOnRuns(states', events', c, n);
    forall k | 0 <= k < n ensures CopiesInOrder(states[k], events[k], c) {
      assert CopiesInOrder(states'[k], events'[k], c);
    }
  }
}
