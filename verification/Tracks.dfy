/** The bounding-box sidecar: samples in the clip window, sorted, and thinned to
    a cap by integer index arithmetic. */
module Tracks {
  import opened Collections

  const SAMPLE_CAP: nat := 5000

  datatype Sample<B> = Sample(offset: real, boxes: B)

  /** Round half to even, to milliseconds. */
  function Round3(x: real): real {
    var y := x * 1000.0;
    var f := y.Floor;
    var d := y - f as real;
    (if d < 0.5 || (d == 0.5 && f % 2 == 0) then f else f + 1) as real / 1000.0
  }

  predicate InWindow(offset: real, preRoll: real, postRoll: real) {
    0.0 <= offset <= preRoll + postRoll + 1.0
  }

  /** The rendered samples that fall into the window, in input order. */
  function Rendered<B>(samples: seq<(real, B)>, clipStart: real, preRoll: real, postRoll: real): seq<Sample<B>> {
    if samples == [] then []
    else
      var rest := Rendered(samples[..|samples| - 1], clipStart, preRoll, postRoll);
      var (ts, boxes) := samples[|samples| - 1];
      if InWindow(ts - clipStart, preRoll, postRoll) then rest + [Sample(Round3(ts - clipStart), boxes)] else rest
  }

  /** The nearest number of milliseconds, and the even one of two. */
  lemma Round3IsNearest(x: real) returns (m: int)
    ensures Round3(x) * 1000.0 == m as real && -0.0005 <= Round3(x) - x <= 0.0005
    ensures Round3(x) - x == 0.0005 || Round3(x) - x == -0.0005 ==> m % 2 == 0
  {
    var f := (x * 1000.0).Floor;
    m := if Round3(x) * 1000.0 == f as real then f else f + 1;
  }

  /** `rendered` are the samples at the indices `at`, each with its offset in
      milliseconds: those from the start of the clip to a second after its end. */
  ghost predicate Picks<B>(rendered: seq<Sample<B>>, samples: seq<(real, B)>, clipStart: real, length: real, at: seq<nat>) {
    && |at| == |rendered| && (forall i, j :: 0 <= i < j < |at| ==> at[i] < at[j])
    && (forall i :: 0 <= i < |at| ==>
          at[i] < |samples| && rendered[i] == Sample(Round3(samples[at[i]].0 - clipStart), samples[at[i]].1))
    && forall k :: 0 <= k < |samples| ==> (k in at <==> 0.0 <= samples[k].0 - clipStart <= length + 1.0)
  }

  lemma PicksOneMore<B>(rendered: seq<Sample<B>>, samples: seq<(real, B)>, clipStart: real, length: real, at: seq<nat>)
    requires samples != [] && Picks(rendered, samples[..|samples| - 1], clipStart, length, at)
    ensures var n := |samples| - 1;
            if 0.0 <= samples[n].0 - clipStart <= length + 1.0 then
              Picks(rendered + [Sample(Round3(samples[n].0 - clipStart), samples[n].1)], samples, clipStart, length, at + [n])
            else Picks(rendered, samples, clipStart, length, at)
  {
    hide Round3;
    var n := |samples| - 1;
    forall k | 0 <= k < n ensures samples[..n][k] == samples[k] {}
    assert forall i :: 0 <= i < |at| ==> at[i] in at && at[i] < n;
  }

  /** Exactly the samples in the window are rendered, in input order. */
  lemma {:induction false} RenderedExactly<B>(samples: seq<(real, B)>, clipStart: real, preRoll: real, postRoll: real)
    returns (at: seq<nat>)
    ensures Picks(Rendered(samples, clipStart, preRoll, postRoll), samples, clipStart, preRoll + postRoll, at)
  {
    if samples == [] {
      at := [];
    } else {
      var n := |samples| - 1;
      at := RenderedExactly(samples[..n], clipStart, preRoll, postRoll);
      PicksOneMore(Rendered(samples[..n], clipStart, preRoll, postRoll), samples, clipStart, preRoll + postRoll, at);
      hide Picks, Round3;
      if 0.0 <= samples[n].0 - clipStart <= preRoll + postRoll + 1.0 { at := at + [n]; }
    }
  }

  predicate Earlier<B>(x: Sample<B>, y: Sample<B>) {
    x.offset < y.offset
  }

  /** `ys` is what a stable sort by offset makes of `xs`: a permutation in order,
      in which samples of equal offset stay as they came. */
  ghost predicate StablySorted<B(!new)>(ys: seq<Sample<B>>, xs: seq<Sample<B>>) {
    && Ascending(ys) && multiset(ys) == multiset(xs)
    && forall v: Sample<B> :: AllLike(ys, Earlier<B>, v) == AllLike(xs, Earlier<B>, v)
  }

  predicate Ascending<B>(xs: seq<Sample<B>>) {
    forall i, j :: 0 <= i < j < |xs| ==> xs[i].offset <= xs[j].offset
  }

  // --------------------------------------------------------------- thinning

  /** The i-th kept index of `n` samples. */
  function Index(i: nat, n: nat): int {
    (i * (n - 1)) / (SAMPLE_CAP - 1)
  }

  lemma IndexSplits(i: nat, n: nat)
    requires n > 0
    ensures var q, r := (n - 1) / 4999, (n - 1) % 4999;
            Index(i, n) == i * q + (i * r) / 4999
  {
    var q, r := (n - 1) / 4999, (n - 1) % 4999;
    assert i * (n - 1) == 4999 * (i * q) + i * r by {
      assert n - 1 == 4999 * q + r;
      Distributes(i, q, r);
    }
  }

  lemma Distributes(i: int, q: int, r: int)
    ensures i * (4999 * q + r) == 4999 * (i * q) + i * r
  {
    assert i * (4999 * q) == 4999 * (i * q);
  }

  /** Consecutive kept indices are (n-1) div 4999 apart, or one more. */
  lemma GapIsEven(i: nat, n: nat)
    requires n > 0
    ensures (n - 1) / 4999 <= Index(i + 1, n) - Index(i, n) <= (n - 1) / 4999 + 1
  {
    var q, r := (n - 1) / 4999, (n - 1) % 4999;
    IndexSplits(i, n);
    IndexSplits(i + 1, n);
    assert (i + 1) * q == i * q + q;
    assert (i + 1) * r == i * r + r;
  }

  lemma {:induction false} IndicesIncrease(i: nat, j: nat, n: nat)
    requires n > SAMPLE_CAP && i < j
    ensures Index(i, n) < Index(j, n)
    decreases j
  {
    GapIsEven(j - 1, n);
    if i < j - 1 { IndicesIncrease(i, j - 1, n); }
  }

  lemma OrderedIndices(i: nat, j: nat, n: nat)
    requires n > SAMPLE_CAP && i < j < SAMPLE_CAP
    ensures 0 <= Index(i, n) < Index(j, n) <= n - 1
  {
    hide Index;
    EndIndices(n);
    IndicesIncrease(i, j, n);
    if i > 0 { IndicesIncrease(0, i, n); }
    if j < SAMPLE_CAP - 1 { IndicesIncrease(j, SAMPLE_CAP - 1, n); }
  }

  lemma EndIndices(n: nat)
    requires n > 0
    ensures Index(0, n) == 0 && Index(SAMPLE_CAP - 1, n) == n - 1
  {
  }

  /** Above the cap, the 5000 indices run from the first to the last sample,
      strictly increasing, and any two of their gaps differ by at most one. */
  lemma ThinningIsUniform(n: nat, i: nat, j: nat)
    requires n > SAMPLE_CAP && i < j < SAMPLE_CAP - 1
    ensures Index(0, n) == 0 && Index(SAMPLE_CAP - 1, n) == n - 1
    ensures 0 <= Index(i, n) < Index(j, n) < Index(j + 1, n) <= n - 1
    ensures -1 <= (Index(i + 1, n) - Index(i, n)) - (Index(j + 1, n) - Index(j, n)) <= 1
  {
    hide Index;
    EndIndices(n);
    OrderedIndices(i, j, n);
    OrderedIndices(j, j + 1, n);
    GapIsEven(i, n);
    GapIsEven(j, n);
  }

  /** `ys` takes elements of `xs` at strictly increasing positions. */
  ghost predicate Subsequence<B>(ys: seq<Sample<B>>, xs: seq<Sample<B>>, at: seq<nat>) {
    && |at| == |ys|
    && (forall i :: 0 <= i < |at| ==> at[i] < |xs| && ys[i] == xs[at[i]])
    && (forall i, j :: 0 <= i < j < |at| ==> at[i] < at[j])
  }

  lemma SubsequenceAscends<B>(ys: seq<Sample<B>>, xs: seq<Sample<B>>, at: seq<nat>)
    requires Ascending(xs) && Subsequence(ys, xs, at)
    ensures Ascending(ys)
  {
  }

  // ----------------------------------------------------------- the payload

  /** Build the sample list of the payload. */
  method BuildPayload<B(!new)>(eventTs: real, preRollS: real, postRollS: real, samples: seq<(real, B)>)
    returns (kept: seq<Sample<B>>, ghost sorted: seq<Sample<B>>, ghost at: seq<nat>)
    ensures var pre, post := if preRollS < 0.0 then 0.0 else preRollS, if postRollS < 0.0 then 0.0 else postRollS;
            StablySorted(sorted, Rendered(samples, eventTs - pre, pre, post))
    ensures Ascending(kept) && Subsequence(kept, sorted, at)
    ensures |sorted| <= 5000 ==> kept == sorted
    ensures |sorted| > 5000 ==>
              |kept| == 5000 && forall i :: 0 <= i < 5000 ==> at[i] == (i * (|sorted| - 1)) / 4999
  {
    var preRoll, postRoll := Nonnegative(preRollS), Nonnegative(postRollS);
    var clipStart := eventTs - preRoll;
    var rendered := Render(samples, clipStart, preRoll, postRoll);
    rendered := SortByOffset(rendered);
    sorted, kept := rendered, rendered;
    at := seq(|rendered|, i => i);
    if |rendered| > SAMPLE_CAP {
      var n := |rendered|;
      forall i, j | 0 <= i < j < SAMPLE_CAP ensures Index(i, n) < Index(j, n) {
        OrderedIndices(i, j, n);
      }
      kept := seq(SAMPLE_CAP, i requires 0 <= i < SAMPLE_CAP => rendered[ThinAt(i, n)]);
      at := seq(SAMPLE_CAP, i requires 0 <= i < SAMPLE_CAP => ThinAt(i, n));
    }
    SubsequenceAscends(kept, sorted, at);
  }

  function ThinAt(i: nat, n: nat): (k: nat)
    requires n > SAMPLE_CAP && i < SAMPLE_CAP
    ensures k == Index(i, n) && k < n
  {
    assert Index(i, n) < n && Index(i, n) >= 0 by {
      if i < SAMPLE_CAP - 1 { OrderedIndices(i, SAMPLE_CAP - 1, n); } else { EndIndices(n); }
    }
    Index(i, n)
  }

  function Nonnegative(x: real): real {
    if x < 0.0 then 0.0 else x
  }

  method Render<B>(samples: seq<(real, B)>, clipStart: real, preRoll: real, postRoll: real) returns (rendered: seq<Sample<B>>)
    ensures rendered == Rendered(samples, clipStart, preRoll, postRoll)
  {
    rendered := [];
    for i := 0 to |samples|
      invariant rendered == Rendered(samples[..i], clipStart, preRoll, postRoll)
    {
      assert samples[..i + 1][..i] == samples[..i];
      var (ts, boxes) := samples[i];
      var offset := ts - clipStart;
      if offset < 0.0 || offset > preRoll + postRoll + 1.0 {
        continue;
      }
      rendered := rendered + [Sample(Round3(offset), boxes)];
    }
    assert samples[..|samples|] == samples;
  }

  method SortByOffset<B(!new)>(xs: seq<Sample<B>>) returns (ys: seq<Sample<B>>)
    ensures StablySorted(ys, xs)
  {
    ys := Sort(xs, Earlier<B>);
    assert forall i, j :: 0 <= i < j < |ys| ==> !Earlier(ys[j], ys[i]);
  }
}
