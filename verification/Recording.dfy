/** Finalize: concat a visit's scratch into one clip, publish it atomically or
    not at all. */
module Recording {
  import opened Collections
  import opened Preroll
  import opened ClipNames

  type ClipId = nat

  const FINALIZE_DURATION_TOLERANCE_S: real := 10.0
  const FINALIZE_TIMEOUT_FLOOR_S: real := 60.0
  const FINALIZE_TIMEOUT_CEIL_S: real := 1800.0
  const FINALIZE_TIMEOUT_S_PER_GB: real := 300.0
  const FINALIZE_FASTSTART_MAX_BYTES: nat := 256 * 1024 * 1024

  /** A media file: the generations it plays, in order, and its size. */
  datatype Media = Media(parts: seq<Ident>, bytes: nat)

  /** What ffmpeg does when asked: it needs so long, then exits. */
  datatype Concat = SpawnFailed | Runs(seconds: real, code: int, bytes: nat)

  /** What the decode pass reports, and the duration the probe reads. */
  datatype Decode = DecodeRaised | Decoded(code: int, badMarker: bool)
  datatype Probed = NoDuration | Duration(seconds: real)

  /** How the outside behaves during one finalize: `sizes` are the segment files
      that can be measured, `faststart` and `plain` what a concat with and without
      the second pass would do. */
  datatype Weather = Weather(
    listable: bool, badNames: set<nat>, sizes: map<nat, nat>, directoryMade: bool, listWritten: bool,
    faststart: Concat, plain: Concat, partial: bool, decode: Decode, probed: Probed, renames: bool)

  /** The bytes of the segments that can be measured. */
  function TotalBytes(sizes: map<nat, nat>, names: seq<nat>): nat {
    if names == [] then 0
    else
      var last := names[|names| - 1];
      TotalBytes(sizes, names[..|names| - 1]) + if last in sizes then sizes[last] else 0
  }

  /** 300 seconds a gigabyte, but no less than a minute and no more than half an
      hour. */
  function FinalizeTimeout(bytes: nat): (t: real)
    ensures t == if bytes <= 200000000 then 60.0 else if bytes >= 6000000000 then 1800.0 else bytes as real * 0.0000003
  {
    var scaled := bytes as real / 1000000000.0 * FINALIZE_TIMEOUT_S_PER_GB;
    if scaled < FINALIZE_TIMEOUT_FLOOR_S then FINALIZE_TIMEOUT_FLOOR_S
    else if scaled > FINALIZE_TIMEOUT_CEIL_S then FINALIZE_TIMEOUT_CEIL_S
    else scaled
  }

  predicate ConcatWorked(c: Concat, timeout: real) {
    c.Runs? && c.seconds <= timeout && c.code == 0 && c.bytes > 0
  }

  /** The concat of these segments: big ones do without the second pass. */
  function ConcatOf(w: Weather, kept: seq<nat>): Concat {
    if TotalBytes(w.sizes, kept) <= FINALIZE_FASTSTART_MAX_BYTES then w.faststart else w.plain
  }

  function TimeoutOf(w: Weather, kept: seq<nat>): real {
    FinalizeTimeout(TotalBytes(w.sizes, kept))
  }

  /** The decode pass is clean and the duration is within tolerance of the
      window; a window that is empty or unknown is not checked. */
  predicate Acceptable(decode: Decode, probed: Probed, window: real) {
    && decode.Decoded? && !decode.badMarker && decode.code == 0
    && (window > 0.0 ==>
          && probed.Duration?
          && -FINALIZE_DURATION_TOLERANCE_S <= probed.seconds - window <= FINALIZE_DURATION_TOLERANCE_S)
  }

  /** The probe keeps a segment. */
  predicate Playable(files: map<nat, File>, badNames: set<nat>, name: nat) {
    name in files && files[name].Whole? && name !in badNames
  }

  /** The playable names among `names`, in their order. */
  function PlayableOf(files: map<nat, File>, badNames: set<nat>, names: seq<nat>): (kept: seq<nat>)
    ensures forall n :: n in kept ==> n in files && files[n].Whole?
    ensures forall n :: n in kept <==> n in names && n in files && files[n].Whole? && n !in badNames
  {
    if names == [] then []
    else
      var rest := PlayableOf(files, badNames, names[..|names| - 1]);
      var last := names[|names| - 1];
      if Playable(files, badNames, last) then rest + [last] else rest
  }

  function PartsOf(files: map<nat, File>, names: seq<nat>): seq<Ident>
    requires forall n :: n in names ==> n in files && files[n].Whole?
  {
    seq(|names|, i requires 0 <= i < |names| => files[names[i]].ident)
  }

  /** `names` is the scratch listing, sorted as strings. */
  ghost predicate Lists(files: map<nat, File>, names: seq<nat>) {
    && SortedByName(names)
    && Distinct(names)
    && forall n :: n in names <==> n in files
  }

  /** Everything went well enough to publish. */
  predicate Publishes(files: map<nat, File>, names: seq<nat>, w: Weather, window: real) {
    var kept := PlayableOf(files, w.badNames, names);
    && w.listable && kept != []
    && w.directoryMade && w.listWritten && ConcatWorked(ConcatOf(w, kept), TimeoutOf(w, kept))
    && Acceptable(w.decode, w.probed, window) && w.renames
  }

  /** What is published then: the playable segments, in name order. */
  function ClipOf(files: map<nat, File>, names: seq<nat>, w: Weather, window: real): Media
    requires Publishes(files, names, w, window)
  {
    var kept := PlayableOf(files, w.badNames, names);
    Media(PartsOf(files, kept), ConcatOf(w, kept).bytes)
  }

  /** What it takes to publish, in bytes, seconds and exit codes: up to 256 MiB the
      concat is made with its second pass; it has a minute, or 300 seconds a
      gigabyte, or half an hour; the decode is clean; and the clip is within ten
      seconds of a window that is not empty. */
  lemma PublishesExactly(files: map<nat, File>, names: seq<nat>, w: Weather, window: real)
    ensures Publishes(files, names, w, window) <==>
              var kept := PlayableOf(files, w.badNames, names);
              var bytes := TotalBytes(w.sizes, kept);
              var concat := if bytes <= 268435456 then w.faststart else w.plain;
              && w.listable && kept != [] && w.directoryMade && w.listWritten
              && concat.Runs? && concat.code == 0 && concat.bytes > 0
              && (concat.seconds <= if bytes <= 200000000 then 60.0
                                    else if bytes >= 6000000000 then 1800.0 else bytes as real * 0.0000003)
              && w.decode == Decoded(0, false)
              && (window > 0.0 ==> w.probed.Duration? && window - 10.0 <= w.probed.seconds <= window + 10.0)
              && w.renames
  {
    assert FinalizeTimeout(TotalBytes(w.sizes, PlayableOf(files, w.badNames, names))) > 0.0;
  }

  /** The measured size is a sum over the segments; one that cannot be measured
      counts nothing. */
  lemma {:induction false} TotalBytesAdds(sizes: map<nat, nat>, names: seq<nat>, more: seq<nat>)
    ensures TotalBytes(sizes, names + more) == TotalBytes(sizes, names) + TotalBytes(sizes, more)
    ensures |more| == 1 ==> TotalBytes(sizes, more) == if more[0] in sizes then sizes[more[0]] else 0
  {
    if more == [] {
      assert names + more == names;
    } else {
      assert (names + more)[..|names + more| - 1] == names + more[..|more| - 1];
      TotalBytesAdds(sizes, names, more[..|more| - 1]);
    }
  }

  class Recordings {
    var clips: map<ClipId, Media>
    var temps: map<ClipId, Media>
    var lists: set<ClipId>
    var scratch: map<ClipId, map<nat, File>>
    var permits: nat

    constructor ()
      ensures clips == map[] && temps == map[] && lists == {} && scratch == map[] && permits == 1
    {
      clips, temps, lists, scratch, permits := map[], map[], {}, map[], 1;
    }

    ghost function FilesOf(id: ClipId): map<nat, File>
      reads this
    {
      if id in scratch then scratch[id] else map[]
    }

    /** All or nothing.  Whichever way it leaves, the clip of `id` is untouched
        unless the call returns true, and then it is the concat of the playable
        segments in name order; nobody else's files change; the scratch is gone,
        the permit is back, and no temporary file is new. */
    method FinalizeVisit(id: ClipId, startTs: real, endTs: real, w: Weather) returns (ok: bool, ghost names: seq<nat>)
      requires permits >= 1
      modifies this
      ensures Lists(old(FilesOf(id)), names)
      ensures ok <==> id in old(scratch) && Publishes(old(FilesOf(id)), names, w, endTs - startTs)
      ensures ok ==> w.decode == Decoded(0, false)
      ensures ok && endTs > startTs ==>
                w.probed.Duration? && endTs - startTs - 10.0 <= w.probed.seconds <= endTs - startTs + 10.0
      ensures !ok ==> clips == old(clips)
      ensures ok ==> clips == old(clips)[id := ClipOf(old(FilesOf(id)), names, w, endTs - startTs)]
      ensures scratch == old(scratch) - {id} && permits == old(permits)
      ensures temps == old(temps) || temps == old(temps) - {id}
      ensures ok || ReachedConcat(old(scratch), id, names, w) ==> id !in temps && id !in lists
      ensures lists == old(lists) || lists == old(lists) - {id}
    {
      permits := permits - 1;
      ok, names := FinalizeVisitLocked(id, endTs - startTs, w);
      PublishesExactly(FilesOf(id), names, w, endTs - startTs);
      scratch := scratch - {id};
      permits := permits + 1;
    }

    static predicate ReachedConcat(scratch: map<ClipId, map<nat, File>>, id: ClipId, names: seq<nat>, w: Weather) {
      id in scratch && w.listable && PlayableOf(scratch[id], w.badNames, names) != [] && w.directoryMade
    }

    method FinalizeVisitLocked(id: ClipId, window: real, w: Weather) returns (ok: bool, ghost names: seq<nat>)
      modifies this`clips, this`temps, this`lists
      ensures Lists(FilesOf(id), names)
      ensures ok <==> id in scratch && Publishes(FilesOf(id), names, w, window)
      ensures !ok ==> clips == old(clips)
      ensures ok ==> clips == old(clips)[id := ClipOf(FilesOf(id), names, w, window)]
      ensures temps == old(temps) || temps == old(temps) - {id}
      ensures ok || ReachedConcat(scratch, id, names, w) ==> id !in temps && id !in lists
      ensures lists == old(lists) || lists == old(lists) - {id}
    {
      var sorted := SortedListing(if id in scratch then scratch[id] else map[]);
      names := sorted;
      if id !in scratch || !w.listable || sorted == [] {
        return false, names;
      }
      var valid := FilterValidSegments(scratch[id], w.badNames, sorted);
      if valid == [] || !w.directoryMade {
        return false, names;
      }
      temps := temps - {id};
      var totalBytes := MeasureSegments(w.sizes, valid);
      var timeout := FinalizeTimeout(totalBytes);
      var concat := if totalBytes <= FINALIZE_FASTSTART_MAX_BYTES then w.faststart else w.plain;
      lists := lists + {id};
      ok := ConcatAndPublish(id, window, scratch[id], valid, concat, timeout, w);
      lists := lists - {id};
    }

    /** From the concat list to the rename. */
    method ConcatAndPublish(id: ClipId, window: real, files: map<nat, File>, valid: seq<nat>, concat: Concat,
                            timeout: real, w: Weather) returns (ok: bool)
      requires id !in temps && forall n :: n in valid ==> n in files && files[n].Whole?
      modifies this`clips, this`temps
      ensures ok <==> w.listWritten && ConcatWorked(concat, timeout) && Acceptable(w.decode, w.probed, window) && w.renames
      ensures clips == if ok then old(clips)[id := Media(PartsOf(files, valid), concat.bytes)] else old(clips)
      ensures temps == old(temps)
    {
      ghost var temps0 := temps;
      if !w.listWritten {
        Unlink(id);
        return false;
      }
      if concat.SpawnFailed? || concat.seconds > timeout || concat.code != 0 {
        if w.partial {
          temps := temps[id := Media([], 1)];
        }
        Unlink(id);
        assert temps == temps0;
        return false;
      }
      temps := temps[id := Media(PartsOf(files, valid), concat.bytes)];
      if temps[id].bytes == 0 || !DecodeValidate(w.decode, w.probed, window) || !w.renames {
        Unlink(id);
        assert temps == temps0;
        return false;
      }
      clips, temps := clips[id := temps[id]], temps - {id};
      assert temps == temps0;
      return true;
    }

    method Unlink(id: ClipId)
      modifies this`temps
      ensures temps == old(temps) - {id}
    {
      temps := temps - {id};
    }
  }

  /** The two checks in the order they are made. */
  predicate DecodeValidate(decode: Decode, probed: Probed, window: real)
    ensures DecodeValidate(decode, probed, window) <==>
              && decode == Decoded(0, false)
              && (window > 0.0 ==> probed.Duration? && window - 10.0 <= probed.seconds <= window + 10.0)
  {
    if decode.DecodeRaised? || decode.badMarker || decode.code != 0 then false
    else if window <= 0.0 then true
    else if probed.NoDuration? then false
    else
      var off := if probed.seconds >= window then probed.seconds - window else window - probed.seconds;
      off <= FINALIZE_DURATION_TOLERANCE_S
  }

  method MeasureSegments(sizes: map<nat, nat>, valid: seq<nat>) returns (totalBytes: nat)
    ensures totalBytes == TotalBytes(sizes, valid)
  {
    totalBytes := 0;
    for i := 0 to |valid|
      invariant totalBytes == TotalBytes(sizes, valid[..i])
    {
      assert valid[..i + 1][..i] == valid[..i];
      if valid[i] in sizes {
        totalBytes := totalBytes + sizes[valid[i]];
      }
    }
    assert valid[..|valid|] == valid;
  }

  method FilterValidSegments(files: map<nat, File>, badNames: set<nat>, segments: seq<nat>) returns (valid: seq<nat>)
    ensures valid == PlayableOf(files, badNames, segments)
  {
    valid := [];
    for i := 0 to |segments|
      invariant valid == PlayableOf(files, badNames, segments[..i])
    {
      assert segments[..i + 1][..i] == segments[..i];
      if segments[i] in files && files[segments[i]].Whole? && segments[i] !in badNames {
        valid := valid + [segments[i]];
      }
    }
    assert segments[..|segments|] == segments;
  }

  predicate ByName(m: nat, n: nat) {
    Less(Name(m), Name(n))
  }

  lemma NamesAreOrdered()
    ensures WeakOrder(ByName)
  {
    forall a, b | ByName(a, b) ensures !ByName(b, a) { LessIsStrict(Name(a), Name(b)); }
    forall a, b, c | ByName(a, b) && !ByName(c, b) ensures ByName(a, c) { NotLater(Name(a), Name(b), Name(c)); }
  }

  /** The directory listing, sorted by name. */
  method SortedListing(files: map<nat, File>) returns (names: seq<nat>)
    ensures Lists(files, names)
  {
    NamesAreOrdered();
    var found := ListOf(files.Keys);
    names := Sort(found, ByName);
    PermutedDistinct(found, names);
    forall n ensures n in names <==> n in files { PermutedMembers(found, names, n); }
    assert forall i, j :: 0 <= i < j < |names| ==> !ByName(names[j], names[i]);
  }

  // --------------------------------------------------- what the clip plays

  lemma {:induction false} KeptAscends(files: map<nat, File>, badNames: set<nat>, names: seq<nat>)
    requires AscendingNumbers(names)
    ensures AscendingNumbers(PlayableOf(files, badNames, names))
  {
    if names != [] {
      var rest := names[..|names| - 1];
      KeptAscends(files, badNames, rest);
      var kept := PlayableOf(files, badNames, rest);
      forall i | 0 <= i < |kept| ensures kept[i] < names[|names| - 1] {
        assert kept[i] in kept && kept[i] in rest;
        var k :| 0 <= k < |rest| && rest[k] == kept[i];
        assert names[k] == kept[i];
      }
      var all := PlayableOf(files, badNames, names);
      assert all == kept || all == kept + [names[|names| - 1]];
    }
  }

  /** End to end: the segments copied in play order, whatever torn file a failed
      copy left and whatever the probe drops, are concatenated in play order. */
  lemma ClipPlaysInOrder(files: map<nat, File>, order: seq<Ident>, names: seq<nat>, badNames: set<nat>)
    requires Numbered(files, order) && Increasing(order) && |order| < 1000000
    requires Lists(files, names)
    ensures var kept := PlayableOf(files, badNames, names);
            && Increasing(PartsOf(files, kept))
            && (forall i :: 0 <= i < |order| && i !in badNames ==> order[i] in PartsOf(files, kept))
  {
    assert forall i :: 0 <= i < |names| ==> names[i] in names;
    SortedNamesAscend(names);
    KeptAscends(files, badNames, names);
    var kept := PlayableOf(files, badNames, names);
    var parts := PartsOf(files, kept);
    forall i | 0 <= i < |kept| ensures kept[i] < |order| && parts[i] == order[kept[i]] {
      assert kept[i] in kept && Playable(files, badNames, kept[i]);
    }
    forall i, j | 0 <= i < j < |parts| ensures parts[i].mtime < parts[j].mtime {
      assert kept[i] < kept[j];
    }
    forall i | 0 <= i < |order| && i !in badNames ensures order[i] in parts {
      assert i in files && i in names && i in kept;
      var k :| 0 <= k < |kept| && kept[k] == i;
      assert parts[k] == order[i];
    }
  }
}
