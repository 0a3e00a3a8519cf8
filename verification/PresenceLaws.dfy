/** What the emit gate measures, by counting cells, and when it emits, in terms of
    the detections before. */
module PresenceLaws {
  import opened Collections
  import opened Presence
  import opened PresenceRuns

  // ---------------------------------------------------- counting unit cells

  /** The unit cells of a box with whole corners. */
  function Cells(x0: int, y0: int, x1: int, y1: int): set<(int, int)> {
    set x, y | x0 <= x < x1 && y0 <= y < y1 :: (x, y)
  }

  lemma {:induction false} ColumnSize(x: int, y0: int, y1: int)
    requires y0 <= y1
    ensures |Cells(x, y0, x + 1, y1)| == y1 - y0
    decreases y1 - y0
  {
    if y0 == y1 {
      assert Cells(x, y0, x + 1, y1) == {};
    } else {
      ColumnSize(x, y0, y1 - 1);
      assert Cells(x, y0, x + 1, y1) == Cells(x, y0, x + 1, y1 - 1) + {(x, y1 - 1)};
    }
  }

  lemma OneMoreColumn(x0: int, y0: int, x1: int, y1: int)
    requires x0 < x1
    ensures Cells(x0, y0, x1, y1) == Cells(x0, y0, x1 - 1, y1) + Cells(x1 - 1, y0, x1, y1)
    ensures Cells(x0, y0, x1 - 1, y1) !! Cells(x1 - 1, y0, x1, y1)
  {
  }

  lemma Widen(w: int, h: int)
    ensures w * h + h == (w + 1) * h
  {
  }

  lemma {:induction false} CellsSize(x0: int, y0: int, x1: int, y1: int)
    requires x0 <= x1 && y0 <= y1
    ensures |Cells(x0, y0, x1, y1)| == (x1 - x0) * (y1 - y0)
    decreases x1 - x0
  {
    if x0 == x1 {
      assert Cells(x0, y0, x1, y1) == {};
    } else {
      var rest, column := Cells(x0, y0, x1 - 1, y1), Cells(x1 - 1, y0, x1, y1);
      CellsSize(x0, y0, x1 - 1, y1);
      ColumnSize(x1 - 1, y0, y1);
      OneMoreColumn(x0, y0, x1, y1);
      hide Cells;
      assert |rest + column| == |rest| + |column|;
      Widen(x1 - 1 - x0, y1 - y0);
    }
  }

  function Larger(a: int, b: int): int { if a >= b then a else b }
  function Smaller(a: int, b: int): int { if a <= b then a else b }

  function BoxOf(x0: int, y0: int, x1: int, y1: int): Box {
    Box(x0 as real, y0 as real, x1 as real, y1 as real)
  }

  lemma ProductOfInts(a: int, b: int)
    ensures (a * b) as real == a as real * b as real
  {
  }

  lemma AreaCounts(x0: int, y0: int, x1: int, y1: int)
    requires x0 <= x1 && y0 <= y1
    ensures Area(BoxOf(x0, y0, x1, y1)) == |Cells(x0, y0, x1, y1)| as real
  {
    CellsSize(x0, y0, x1, y1);
    ProductOfInts(x1 - x0, y1 - y0);
  }

  lemma CellsMeet(ax0: int, ay0: int, ax1: int, ay1: int, bx0: int, by0: int, bx1: int, by1: int)
    ensures Cells(ax0, ay0, ax1, ay1) * Cells(bx0, by0, bx1, by1)
         == Cells(Larger(ax0, bx0), Larger(ay0, by0), Smaller(ax1, bx1), Smaller(ay1, by1))
  {
  }

  lemma CellsOrNone(x0: int, y0: int, x1: int, y1: int)
    ensures Cells(x0, y0, x1, y1) == {} <==> x0 >= x1 || y0 >= y1
    ensures x0 < x1 && y0 < y1 ==> |Cells(x0, y0, x1, y1)| == (x1 - x0) * (y1 - y0) > 0
  {
    if x0 < x1 && y0 < y1 {
      assert (x0, y0) in Cells(x0, y0, x1, y1);
      CellsSize(x0, y0, x1, y1);
    }
  }

  /** The overlap is the number of common cells over the number of all cells. */
  lemma IouCountsCells(ax0: int, ay0: int, ax1: int, ay1: int, bx0: int, by0: int, bx1: int, by1: int)
    requires ax0 <= ax1 && ay0 <= ay1 && bx0 <= bx1 && by0 <= by1
    ensures var a, b := Cells(ax0, ay0, ax1, ay1), Cells(bx0, by0, bx1, by1);
            var iou := Iou(BoxOf(ax0, ay0, ax1, ay1), BoxOf(bx0, by0, bx1, by1));
            && (a * b == {} ==> iou == 0.0)
            && (a * b != {} ==> |a + b| > 0 && iou == |a * b| as real / |a + b| as real)
  {
    var a, b := Cells(ax0, ay0, ax1, ay1), Cells(bx0, by0, bx1, by1);
    var w, h := Smaller(ax1, bx1) - Larger(ax0, bx0), Smaller(ay1, by1) - Larger(ay0, by0);
    CellsMeet(ax0, ay0, ax1, ay1, bx0, by0, bx1, by1);
    CellsOrNone(Larger(ax0, bx0), Larger(ay0, by0), Smaller(ax1, bx1), Smaller(ay1, by1));
    AreaCounts(ax0, ay0, ax1, ay1);
    AreaCounts(bx0, by0, bx1, by1);
    hide Area, Cells;
    assert |a + b| == |a| + |b| - |a * b|;
    if w > 0 && h > 0 {
      assert |a * b| <= |a + b| by { SubsetSize(a * b, a + b); }
      RatioOf(w, h, |a|, |b|, |a + b|);
    }
  }

  lemma RatioOf(w: int, h: int, a: nat, b: nat, union: nat)
    requires w > 0 && h > 0 && union == a + b - w * h && union > 0
    ensures Ratio(w as real, h as real, a as real, b as real) == (w * h) as real / union as real
  {
    ProductOfInts(w, h);
  }

  /** A box that is not degenerate overlaps itself fully. */
  lemma IouOfItself(b: Box)
    requires b.left < b.right && b.top < b.bottom
    ensures Iou(b, b) == 1.0
  {
    var w, h := b.right - b.left, b.bottom - b.top;
    ProductGrows(w, h, w, h);
    assert Area(b) == w * h;
    RatioOfItself(w, h);
  }

  lemma RatioOfItself(w: real, h: real)
    requires w > 0.0 && h > 0.0
    ensures Ratio(w, h, w * h, w * h) == 1.0
  {
    ProductGrows(w, h, w, h);
    SelfQuotient(w * h);
  }

  lemma SelfQuotient(x: real)
    requires x > 0.0
    ensures x / (x + x - x) == 1.0
  {
    assert x + x - x == x;
  }

  // ------------------------------------------------- emits, from the history

  /** The last of the first `n` detections that is of `k`, or -1. */
  function LastOf(ds: seq<Detection>, n: nat, k: Key): int
    requires n <= |ds|
    ensures -1 <= LastOf(ds, n, k) < n
    ensures LastOf(ds, n, k) >= 0 ==> ds[LastOf(ds, n, k)].key == k
  {
    if n == 0 then -1 else if ds[n - 1].key == k then n - 1 else LastOf(ds, n - 1, k)
  }

  /** A suppression of `k` has gone to the ledger since its latest emit. */
  function Noted(ds: seq<Detection>, vs: seq<Verdict>, n: nat, k: Key): bool
    requires n <= |ds| == |vs|
  {
    n > 0 && if ds[n - 1].key == k then !vs[n - 1].emit && (vs[n - 1].ledger || Noted(ds, vs, n - 1, k))
             else Noted(ds, vs, n - 1, k)
  }

  /** The table knows of `k` what the detections said; or its last one is longer ago
      than the gap, or the cap threw it out. */
  ghost predicate Knows(s: State, ds: seq<Detection>, vs: seq<Verdict>, n: nat, k: Key, c: Config)
    requires n <= |ds| == |vs|
  {
    var last := LastOf(ds, n, k);
    && (k in s.table ==>
          && last >= 0 && s.table[k].box == ds[last].box && s.table[k].lastSeen == ds[last].now
          && k in s.latest && s.table[k].lastEmit == s.latest[k] && s.table[k].clipEndsAt == s.latest[k] + c.knobs.clip
          && s.table[k].suppressLedgered == Noted(ds, vs, n, k))
    && (k !in s.table && k !in s.evicted && last >= 0 ==> s.clock - ds[last].now > c.knobs.gap)
  }

  lemma StepKnows(states: seq<State>, ds: seq<Detection>, vs: seq<Verdict>, c: Config, n: nat, k: Key)
    requires n < |ds| == |vs| && |states| == |ds| + 1 && Step(states[n], ds[n], vs[n], states[n + 1], c)
    requires Knows(states[n], ds, vs, n, k, c)
    ensures Knows(states[n + 1], ds, vs, n + 1, k, c)
  {
    var s, d, v, s' := states[n], ds[n], vs[n], states[n + 1];
    if k != d.key { GatedElsewhere(s.table, s'.table, d, c, v, k); }
  }

  lemma {:induction false} KnowsOnEveryRun(states: seq<State>, ds: seq<Detection>, vs: seq<Verdict>, c: Config, n: nat, k: Key)
    requires Run(states, ds, vs, c) && n < |states|
    ensures Knows(states[n], ds, vs, n, k, c)
  {
    if n > 0 {
      KnowsOnEveryRun(states, ds, vs, c, n - 1, k);
      assert Step(states[n - 1], ds[n - 1], vs[n - 1], states[n], c);
      hide Step, Knows;
      StepKnows(states, ds, vs, c, n - 1, k);
    }
  }

  /** Exactly when a detection emits: it is the first of its key, or the first for
      longer than the gap, or the cap threw its key out meanwhile; or it is somewhere
      else than the one before and the floor since the latest emit is over; or it
      goes on where the one before was and the clip of the latest emit has ended. */
  lemma EmitsExactly(states: seq<State>, ds: seq<Detection>, vs: seq<Verdict>, c: Config, n: nat)
    requires Run(states, ds, vs, c) && n < |ds|
    ensures var s, d, last := states[n], ds[n], LastOf(ds, n, ds[n].key);
            && (d.key !in s.table ==> last < 0 || d.now - ds[last].now > c.knobs.gap || d.key in s.evicted)
            && if last < 0 || d.now - ds[last].now > c.knobs.gap || d.key !in s.table then vs[n].emit
               else
                 && d.key in s.latest
                 && var since := d.now - s.latest[d.key];
                    if Iou(d.box, ds[last].box) < c.threshold then vs[n].emit <==> since >= c.knobs.minGap
                    else vs[n].emit <==> since >= c.knobs.clip
  {
    KnowsOnEveryRun(states, ds, vs, c, n, ds[n].key);
    assert Step(states[n], ds[n], vs[n], states[n + 1], c);
    hide Iou, Noted;
  }

  /** Every emit is noted, and of the detections that do not emit exactly the first
      one since the latest emit that goes on where the one before was. */
  lemma LedgerExactly(states: seq<State>, ds: seq<Detection>, vs: seq<Verdict>, c: Config, n: nat)
    requires Run(states, ds, vs, c) && n < |ds|
    ensures vs[n].emit ==> vs[n].ledger
    ensures !vs[n].emit ==>
              var d, last := ds[n], LastOf(ds, n, ds[n].key);
              && last >= 0
              && (vs[n].ledger <==> Iou(d.box, ds[last].box) >= c.threshold && !Noted(ds, vs, n, d.key))
  {
    KnowsOnEveryRun(states, ds, vs, c, n, ds[n].key);
    assert Step(states[n], ds[n], vs[n], states[n + 1], c);
    hide Iou, Noted;
  }

  /** What the cap throws out is one presence, and none that stays has been unseen
      for longer. */
  lemma VictimIsLongestUnseen(states: seq<State>, ds: seq<Detection>, vs: seq<Verdict>, c: Config, n: nat, k: Key, j: Key)
    requires Run(states, ds, vs, c) && n < |ds| && k != ds[n].key && j != ds[n].key
    requires k in states[n].table && k !in states[n + 1].table && ds[n].now - states[n].table[k].lastSeen <= c.knobs.gap
    ensures LastOf(ds, n, k) >= 0
    ensures j in states[n + 1].table ==> LastOf(ds, n, j) >= 0 && ds[LastOf(ds, n, k)].now <= ds[LastOf(ds, n, j)].now
    ensures j in states[n].table && j !in states[n + 1].table && ds[n].now - states[n].table[j].lastSeen <= c.knobs.gap ==> j == k
  {
    KnowsOnEveryRun(states, ds, vs, c, n, k);
    KnowsOnEveryRun(states, ds, vs, c, n, j);
    assert Step(states[n], ds[n], vs[n], states[n + 1], c);
    hide Iou, Noted;
  }
}
