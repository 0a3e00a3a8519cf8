/** The segment ring and the incremental copy into a visit's scratch.

    A ring file is known by its slot and its modification time; a slot name is
    reused on every wrap, so the pair names one generation of footage. */
module Preroll {
  import opened Collections

  type Slot = nat

  datatype Ident = Ident(slot: Slot, mtime: real)

  /** A scratch file: a whole copy, or what a copy that failed left behind. */
  datatype File = Whole(ident: Ident) | Torn

  /** The ring directory: the modification time of every slot file. */
  type Ring = map<Slot, real>

  /** The segment ending at `mtime` and lasting `segmentS` meets the closed band. */
  predicate Overlaps(mtime: real, segmentS: real, startTs: real, untilTs: real) {
    mtime - segmentS <= untilTs && mtime >= startTs
  }

  predicate InRange(ring: Ring, segmentS: real, startTs: real, untilTs: real, x: Ident) {
    && startTs <= untilTs
    && x.slot in ring && ring[x.slot] == x.mtime
    && Overlaps(x.mtime, segmentS, startTs, untilTs)
  }

  /** Some slot is strictly newer, so this one is closed. */
  ghost predicate Closed(ring: Ring, x: Ident) {
    exists s :: s in ring && ring[s] > x.mtime
  }

  /** What a copy call ought to copy. */
  ghost predicate Eligible(ring: Ring, segmentS: real, startTs: real, untilTs: real, seen: set<Ident>, x: Ident) {
    InRange(ring, segmentS, startTs, untilTs, x) && x !in seen && Closed(ring, x)
  }

  predicate Older(x: Ident, y: Ident) {
    x.mtime < y.mtime
  }

  predicate SortedByMtime(xs: seq<Ident>) {
    forall i, j :: 0 <= i < j < |xs| ==> xs[i].mtime <= xs[j].mtime
  }

  predicate Increasing(xs: seq<Ident>) {
    forall i, j :: 0 <= i < j < |xs| ==> xs[i].mtime < xs[j].mtime
  }

  /** The names 0, 1, ... of `files` hold `order`; the name after the last one
      is free, or holds a torn file that the next copy will overwrite. */
  predicate Numbered(files: map<nat, File>, order: seq<Ident>) {
    && (forall i :: 0 <= i < |order| ==> i in files && files[i] == Whole(order[i]))
    && (forall i :: i in files ==> i < |order| || (i == |order| && files[i].Torn?))
  }

  function Idents(xs: seq<Ident>): set<Ident> {
    set x | x in xs
  }

  lemma SizeOfDistinct(xs: seq<Ident>)
    requires Distinct(xs)
    ensures |Idents(xs)| == |xs|
  {
    if xs != [] {
      var rest := xs[..|xs| - 1];
      SizeOfDistinct(rest);
      assert xs == rest + [xs[|xs| - 1]];
      assert Idents(xs) == Idents(rest) + {xs[|xs| - 1]};
      assert xs[|xs| - 1] !in rest;
    }
  }

  /** `added` is what one copy call appends to the scratch: exactly the eligible
      segments whose copy did not fail, in play order. */
  ghost predicate Appends(ring: Ring, segmentS: real, startTs: real, untilTs: real, order: seq<Ident>,
                          fails: set<Ident>, added: seq<Ident>)
  {
    && SortedByMtime(added) && Distinct(added)
    && forall x :: x in added <==> Eligible(ring, segmentS, startTs, untilTs, Idents(order), x) && x !in fails
  }

  /** The directory a visit's segments are copied into. */
  class Scratch {
    var files: map<nat, File>

    constructor ()
      ensures files == map[]
    {
      files := map[];
    }
  }

  class PrerollBuffer {
    const segmentS: real
    const capacity: nat
    var ring: Ring

    constructor (segmentS: real, capacity: nat)
      ensures this.segmentS == segmentS && this.capacity == capacity && ring == map[]
    {
      this.segmentS, this.capacity := segmentS, capacity;
      ring := map[];
    }

    /** The overlapping segments in play order. */
    method SegmentsInRange(startTs: real, endTs: real) returns (segments: seq<Ident>)
      ensures SortedByMtime(segments) && Distinct(segments)
      ensures forall x :: x in segments <==> InRange(ring, segmentS, startTs, endTs, x)
    {
      if endTs < startTs {
        return [];
      }
      var found: seq<Ident>, entries := [], ring.Keys;
      while entries != {}
        invariant entries <= ring.Keys && Distinct(found)
        invariant forall x :: x in found <==> InRange(ring, segmentS, startTs, endTs, x) && x.slot !in entries
        decreases entries
      {
        var slot :| slot in entries;
        entries := entries - {slot};
        if Overlaps(ring[slot], segmentS, startTs, endTs) {
          DistinctOneMore(found, Ident(slot, ring[slot]));
          found := found + [Ident(slot, ring[slot])];
        }
      }
      segments := Sort(found, Older);
      PermutedDistinct(found, segments);
      forall x ensures x in segments <==> x in found { PermutedMembers(found, segments, x); }
      assert forall i, j :: 0 <= i < j < |segments| ==> !Older(segments[j], segments[i]);
    }

    /** The newest modification time in the ring, if there is any file. */
    method RingNewestMtime() returns (found: bool, newest: real)
      ensures found <==> ring != map[]
      ensures found ==> (exists s :: s in ring && ring[s] == newest) && forall s :: s in ring ==> ring[s] <= newest
    {
      found, newest := false, 0.0;
      var entries := ring.Keys;
      while entries != {}
        invariant entries <= ring.Keys
        invariant found <==> ring.Keys - entries != {}
        invariant found ==> exists s :: s in ring && ring[s] == newest
        invariant found ==> forall s :: s in ring && s !in entries ==> ring[s] <= newest
        decreases entries
      {
        var slot :| slot in entries;
        if !found || ring[slot] > newest {
          found, newest := true, ring[slot];
        }
        assert slot !in entries - {slot};
        entries := entries - {slot};
      }
    }

    /** Copy what has closed since the last call.  `fails` are the copies that
        raise and `tears` those of them that leave a partial file. */
    method CopyNewSegments(startTs: real, untilTs: real, scratch: Scratch, alreadyCopied: set<Ident>,
                           fails: set<Ident>, tears: set<Ident>, ghost order: seq<Ident>)
      returns (newlyCopied: seq<nat>, seen: set<Ident>, ghost added: seq<Ident>)
      requires Accounts(scratch.files, order, [], alreadyCopied, [])
      modifies scratch
      ensures Appends(ring, segmentS, startTs, untilTs, order, fails, added)
      ensures Accounts(scratch.files, order, added, seen, newlyCopied)
    {
      seen, newlyCopied, added := alreadyCopied, [], [];
      var found, newest := RingNewestMtime();
      var segments := SegmentsInRange(startTs, untilTs);
      var i := 0;
      while i < |segments|
        invariant i <= |segments|
        invariant Copied(segments[..i], Idents(order), newest, fails, added)
        invariant Accounts(scratch.files, order, added, seen, newlyCopied)
      {
        var ident := segments[i];
        assert segments[..i + 1] == segments[..i] + [ident];
        CopiedOneMore(segments[..i], Idents(order), newest, fails, added, ident);
        if ident !in seen && ident.mtime < newest {
          if ident !in fails {
            AccountsOneMore(scratch.files, order, added, seen, newlyCopied, ident);
            scratch.files := scratch.files[|seen| := Whole(ident)];
            newlyCopied := newlyCopied + [|seen|];
            seen := seen + {ident};
            added := added + [ident];
          } else if ident in tears {
            AccountsTorn(scratch.files, order, added, seen, newlyCopied);
            scratch.files := scratch.files[|seen| := Torn];
          }
        }
        i := i + 1;
      }
      assert segments[..i] == segments;
      CopiedIsAppended(ring, segmentS, startTs, untilTs, order, newest, fails, segments, added);
    }
  }

  /** Names, contents, accumulator and result of a copy that has appended
      `added` to `order`: no gap, no collision, every generation once. */
  ghost predicate Accounts(files: map<nat, File>, order: seq<Ident>, added: seq<Ident>, seen: set<Ident>, names: seq<nat>) {
    && Numbered(files, order + added)
    && Distinct(order + added) && seen == Idents(order + added)
    && |names| == |added| && forall k :: 0 <= k < |names| ==> names[k] == |order| + k
  }

  lemma NumberedOneMore(files: map<nat, File>, all: seq<Ident>, x: Ident)
    requires Numbered(files, all)
    ensures Numbered(files[|all| := Whole(x)], all + [x])
  {
  }

  lemma AccountsOneMore(files: map<nat, File>, order: seq<Ident>, added: seq<Ident>, seen: set<Ident>, names: seq<nat>, x: Ident)
    requires Accounts(files, order, added, seen, names) && x !in seen
    ensures Accounts(files[|seen| := Whole(x)], order, added + [x], seen + {x}, names + [|seen|])
  {
    var all := order + added;
    SizeOfDistinct(all);
    assert order + (added + [x]) == all + [x];
    NumberedOneMore(files, all, x);
    DistinctOneMore(all, x);
    assert Idents(all + [x]) == Idents(all) + {x};
  }

  lemma AccountsTorn(files: map<nat, File>, order: seq<Ident>, added: seq<Ident>, seen: set<Ident>, names: seq<nat>)
    requires Accounts(files, order, added, seen, names)
    ensures Accounts(files[|seen| := Torn], order, added, seen, names)
  {
    SizeOfDistinct(order + added);
  }

  lemma CopiedIsAppended(ring: Ring, segmentS: real, startTs: real, untilTs: real, order: seq<Ident>, newest: real,
                         fails: set<Ident>, segments: seq<Ident>, added: seq<Ident>)
    requires Copied(segments, Idents(order), newest, fails, added)
    requires forall x :: x in segments <==> InRange(ring, segmentS, startTs, untilTs, x)
    requires ring != map[] ==> (exists s :: s in ring && ring[s] == newest) && forall s :: s in ring ==> ring[s] <= newest
    ensures Appends(ring, segmentS, startTs, untilTs, order, fails, added)
  {
    forall x | InRange(ring, segmentS, startTs, untilTs, x) ensures Closed(ring, x) <==> x.mtime < newest {
      assert x.slot in ring;
    }
  }

  /** `added` is what a pass over `segments` copies. */
  ghost predicate Copied(segments: seq<Ident>, seen0: set<Ident>, newest: real, fails: set<Ident>, added: seq<Ident>) {
    && SortedByMtime(added) && Distinct(added)
    && (forall x :: x in added <==> x in segments && x !in seen0 && x.mtime < newest && x !in fails)
  }

  lemma CopiedOneMore(segments: seq<Ident>, seen0: set<Ident>, newest: real, fails: set<Ident>, added: seq<Ident>, x: Ident)
    requires Copied(segments, seen0, newest, fails, added)
    requires SortedByMtime(segments + [x]) && Distinct(segments + [x])
    ensures x !in added
    ensures Copied(segments + [x], seen0, newest, fails,
                   if x !in seen0 && x.mtime < newest && x !in fails then added + [x] else added)
  {
    var all := segments + [x];
    assert all[|segments|] == x;
    forall y | y in segments ensures y.mtime <= x.mtime && y != x {
      var i :| 0 <= i < |segments| && segments[i] == y;
      assert all[i] == y;
    }
  }
}
