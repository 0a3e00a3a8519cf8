/** The legacy emit gate: one event per continuous presence. */
module Presence {
  import opened Collections

  type Key = string

  datatype Box = Box(left: real, top: real, right: real, bottom: real)

  function Max(a: real, b: real): real { if a >= b then a else b }
  function Min(a: real, b: real): real { if a <= b then a else b }

  function Area(b: Box): real {
    Max(0.0, b.right - b.left) * Max(0.0, b.bottom - b.top)
  }

  function Overlap(a0: real, a1: real, b0: real, b1: real): real {
    Min(a1, b1) - Max(a0, b0)
  }

  function Ratio(iw: real, ih: real, areaA: real, areaB: real): real {
    if iw <= 0.0 || ih <= 0.0 then 0.0
    else
      var union := areaA + areaB - iw * ih;
      if union <= 0.0 then 0.0 else iw * ih / union
  }

  /** Intersection over union; zero on degenerate or disjoint boxes. */
  function Iou(a: Box, b: Box): real {
    Ratio(Overlap(a.left, a.right, b.left, b.right), Overlap(a.top, a.bottom, b.top, b.bottom), Area(a), Area(b))
  }

  lemma ScaleUp(k: real, x: real, y: real)
    requires k > 0.0 && x <= y
    ensures k * x <= k * y
  {
  }

  lemma ScaleSign(k: real, x: real)
    requires k > 0.0
    ensures (k * x <= 0.0) == (x <= 0.0)
  {
  }

  lemma ProductGrows(a: real, b: real, c: real, d: real)
    requires 0.0 < a <= c && 0.0 < b <= d
    ensures 0.0 < a * b <= c * d
  {
    ScaleUp(b, a, c);
    ScaleUp(c, b, d);
    ScaleSign(b, a);
  }

  lemma QuotientAtMostOne(x: real, y: real)
    requires 0.0 <= x <= y && y > 0.0
    ensures 0.0 <= x / y <= 1.0
  {
  }

  lemma RatioInUnitInterval(iw: real, ih: real, areaA: real, areaB: real)
    requires iw > 0.0 && ih > 0.0 ==> 0.0 < iw * ih <= areaA && iw * ih <= areaB
    ensures 0.0 <= Ratio(iw, ih, areaA, areaB) <= 1.0
  {
    if iw > 0.0 && ih > 0.0 { QuotientAtMostOne(iw * ih, areaA + areaB - iw * ih); }
  }

  lemma OverlapInside(iw: real, ih: real, b: Box)
    requires 0.0 < iw <= b.right - b.left && 0.0 < ih <= b.bottom - b.top
    ensures 0.0 < iw * ih <= Area(b)
  {
    ProductGrows(iw, ih, b.right - b.left, b.bottom - b.top);
  }

  lemma IouInUnitInterval(a: Box, b: Box)
    ensures 0.0 <= Iou(a, b) <= 1.0 && Iou(a, b) == Iou(b, a)
  {
    var iw, ih := Overlap(a.left, a.right, b.left, b.right), Overlap(a.top, a.bottom, b.top, b.bottom);
    if iw > 0.0 && ih > 0.0 {
      OverlapInside(iw, ih, a);
      OverlapInside(iw, ih, b);
    }
    hide Area;
    RatioInUnitInterval(iw, ih, Area(a), Area(b));
    assert Overlap(b.left, b.right, a.left, a.right) == iw && Overlap(b.top, b.bottom, a.top, a.bottom) == ih;
    RatioSymmetric(iw, ih, Area(a), Area(b));
  }

  lemma RatioSymmetric(iw: real, ih: real, areaA: real, areaB: real)
    ensures Ratio(iw, ih, areaA, areaB) == Ratio(iw, ih, areaB, areaA)
  {
    assert areaA + areaB - iw * ih == areaB + areaA - iw * ih;
  }

  /** Another coordinate system: each axis stretched and shifted. */
  datatype Frame = Frame(sx: real, sy: real, tx: real, ty: real)

  predicate Proper(f: Frame) {
    f.sx > 0.0 && f.sy > 0.0
  }

  function Times(k: real, x: real): real { k * x }

  /** Where a coordinate ends up on a stretched and shifted axis. */
  function Along(s: real, t: real, x: real): real { Times(s, x) + t }

  function Moved(f: Frame, b: Box): Box {
    Box(Along(f.sx, f.tx, b.left), Along(f.sy, f.ty, b.top), Along(f.sx, f.tx, b.right), Along(f.sy, f.ty, b.bottom))
  }

  lemma StretchMax(s: real, t: real, a: real, b: real)
    requires s > 0.0
    ensures Max(s * a + t, s * b + t) == s * Max(a, b) + t
    ensures Min(s * a + t, s * b + t) == s * Min(a, b) + t
  {
    if a >= b { ScaleUp(s, b, a); } else { ScaleUp(s, a, b); }
  }

  lemma StretchDifference(s: real, t: real, a: real, b: real)
    ensures (s * a + t) - (s * b + t) == s * (a - b)
  {
  }

  lemma OverlapScales(s: real, t: real, a0: real, a1: real, b0: real, b1: real)
    requires s > 0.0
    ensures Overlap(Along(s, t, a0), Along(s, t, a1), Along(s, t, b0), Along(s, t, b1)) == Times(s, Overlap(a0, a1, b0, b1))
  {
    StretchMax(s, t, a1, b1);
    StretchMax(s, t, a0, b0);
    StretchDifference(s, t, Min(a1, b1), Max(a0, b0));
  }

  lemma SideScales(s: real, t: real, a: real, b: real)
    requires s > 0.0
    ensures Max(0.0, (s * a + t) - (s * b + t)) == s * Max(0.0, a - b)
  {
    StretchDifference(s, t, a, b);
    ScaleSign(s, a - b);
  }

  lemma Regroup(a: real, b: real, c: real, d: real)
    ensures (a * b) * (c * d) == (a * c) * (b * d)
  {
    assert (a * b) * (c * d) == a * (b * (c * d));
    assert b * (c * d) == c * (b * d);
    assert a * (c * (b * d)) == (a * c) * (b * d);
  }

  lemma AreaScales(f: Frame, b: Box)
    requires Proper(f)
    ensures Area(Moved(f, b)) == Times(Times(f.sx, f.sy), Area(b))
  {
    SideScales(f.sx, f.tx, b.right, b.left);
    SideScales(f.sy, f.ty, b.bottom, b.top);
    Regroup(f.sx, Max(0.0, b.right - b.left), f.sy, Max(0.0, b.bottom - b.top));
  }

  lemma QuotientScales(k: real, x: real, y: real)
    requires k > 0.0 && y > 0.0
    ensures k * y > 0.0 && (k * x) / (k * y) == x / y
  {
    var q := x / y;
    assert x == q * y;
    assert k * x == q * (k * y);
    ScaleSign(k, y);
  }

  lemma UnionScales(k: real, a: real, b: real, i: real)
    ensures k * a + k * b - k * i == k * (a + b - i)
  {
  }

  lemma RatioInvariant(sx: real, sy: real, iw: real, ih: real, areaA: real, areaB: real)
    requires sx > 0.0 && sy > 0.0
    ensures Ratio(Times(sx, iw), Times(sy, ih), Times(Times(sx, sy), areaA), Times(Times(sx, sy), areaB))
         == Ratio(iw, ih, areaA, areaB)
  {
    var k, i := sx * sy, iw * ih;
    ScaleSign(sx, iw);
    ScaleSign(sy, ih);
    ScaleSign(sx, sy);
    Regroup(sx, iw, sy, ih);
    UnionScales(k, areaA, areaB, i);
    var union := areaA + areaB - i;
    ScaleSign(k, union);
    if union > 0.0 { QuotientScales(k, i, union); }
  }

  /** The gate sees the same overlap in pixels and in normalized coordinates. */
  lemma IouInvariant(f: Frame, a: Box, b: Box)
    requires Proper(f)
    ensures Iou(Moved(f, a), Moved(f, b)) == Iou(a, b)
  {
    AreaScales(f, a);
    AreaScales(f, b);
    hide Area, Overlap, Ratio, Times, Along;
    OverlapScales(f.sx, f.tx, a.left, a.right, b.left, b.right);
    OverlapScales(f.sy, f.ty, a.top, a.bottom, b.top, b.bottom);
    RatioInvariant(f.sx, f.sy, Overlap(a.left, a.right, b.left, b.right), Overlap(a.top, a.bottom, b.top, b.bottom),
                   Area(a), Area(b));
  }

  // ---------------------------------------------------------------- the gate

  datatype Entry = Entry(box: Box, lastSeen: real, clipEndsAt: real, lastEmit: real, suppressLedgered: bool)
  type Table = map<Key, Entry>

  datatype Knobs = Knobs(clip: real, gap: real, minGap: real)

  datatype Label = Emit | GapNewVisit | ReArm | Suppress | SuppressFirstOnly

  /** An overlap, unless there was no earlier box to compare with. */
  datatype Measured = NoBox | Measured(iou: real)

  /** The verdict, and the descriptor for the decision ledger. */
  datatype Verdict = Verdict(emit: bool, ledger: bool, transition: Label, reason: Label, iou: Measured, key: Key)

  predicate Lapsed(e: Entry, now: real, gap: real) {
    now - e.lastSeen > gap
  }

  function NewEntry(box: Box, now: real, clip: real): Entry {
    Entry(box, now, now + clip, now, false)
  }

  /** The verdict on a key without one: the overlap is with where it was last. */
  function Fresh(t: Table, key: Key, box: Box): Verdict {
    if key in t then Verdict(true, true, GapNewVisit, GapNewVisit, Measured(Iou(box, t[key].box)), key)
    else Verdict(true, true, Emit, Emit, NoBox, key)
  }

  /** The verdict on a key with a live presence. */
  function Continue(e: Entry, key: Key, box: Box, now: real, knobs: Knobs, threshold: real): Verdict {
    var iou := Measured(Iou(box, e.box));
    if Iou(box, e.box) < threshold then
      if now - e.lastEmit >= knobs.minGap then Verdict(true, true, Emit, Emit, iou, key)
      else Verdict(false, false, SuppressFirstOnly, Suppress, iou, key)
    else if now >= e.clipEndsAt then Verdict(true, true, ReArm, ReArm, iou, key)
    else Verdict(false, !e.suppressLedgered, SuppressFirstOnly, Suppress, iou, key)
  }

  function Continued(e: Entry, box: Box, now: real, clip: real, v: Verdict): Entry {
    if v.emit then Entry(box, now, now + clip, now, false)
    else Entry(box, now, e.clipEndsAt, e.lastEmit, e.suppressLedgered || v.ledger)
  }

  function Unlapsed(t: Table, now: real, gap: real): Table {
    map k | k in t && !Lapsed(t[k], now, gap) :: t[k]
  }

  /** Lapsed presences go; over the cap, one of the longest unseen goes too. */
  ghost predicate Pruned(t: Table, t': Table, now: real, gap: real, maxKeys: nat) {
    var kept := Unlapsed(t, now, gap);
    if |kept| <= maxKeys then t' == kept
    else exists k :: k in kept && t' == kept - {k} && forall j :: j in kept ==> kept[k].lastSeen <= kept[j].lastSeen
  }

  /** What one call may do. */
  ghost predicate Gated(t: Table, t': Table, key: Key, box: Box, now: real, knobs: Knobs, threshold: real, maxKeys: nat,
                        v: Verdict)
  {
    if key in t && !Lapsed(t[key], now, knobs.gap) then
      && v == Continue(t[key], key, box, now, knobs, threshold)
      && t' == t[key := Continued(t[key], box, now, knobs.clip, v)]
    else
      && v == Fresh(t, key, box)
      && key in t' && t'[key] == NewEntry(box, now, knobs.clip)
      && exists p :: Pruned(t, p, now, knobs.gap, maxKeys) && t' == p[key := t'[key]]
  }

  function Ages(t: Table): map<Key, real> {
    map k | k in t :: t[k].lastSeen
  }

  class PresenceTracker {
    const iouThreshold: real
    const maxKeys: nat
    var presence: Table

    constructor (iouThreshold: real, maxKeys: nat)
      ensures this.iouThreshold == iouThreshold && this.maxKeys == maxKeys && presence == map[]
    {
      this.iouThreshold, this.maxKeys := iouThreshold, maxKeys;
      presence := map[];
    }

    method ShouldEmitWithDecision(key: Key, box: Box, now: real, knobs: Knobs) returns (v: Verdict)
      modifies this
      ensures Gated(old(presence), presence, key, box, now, knobs, iouThreshold, maxKeys, v)
      ensures key !in old(presence) ==> v == Verdict(true, true, Emit, Emit, NoBox, key)
      ensures key in old(presence) ==>
                var p := old(presence)[key];
                var iou := Measured(Iou(box, p.box));
                v == if now - p.lastSeen > knobs.gap then Verdict(true, true, GapNewVisit, GapNewVisit, iou, key)
                     else if iou.iou < iouThreshold && now - p.lastEmit >= knobs.minGap then
                       Verdict(true, true, Emit, Emit, iou, key)
                     else if iou.iou >= iouThreshold && now >= p.clipEndsAt then Verdict(true, true, ReArm, ReArm, iou, key)
                     else Verdict(false, iou.iou >= iouThreshold && !p.suppressLedgered, SuppressFirstOnly, Suppress, iou, key)
    {
      if key !in presence || now - presence[key].lastSeen > knobs.gap {
        var reason := if key in presence then GapNewVisit else Emit;
        var gapIou := if key in presence then Measured(Iou(box, presence[key].box)) else NoBox;
        Prune(now, knobs.gap);
        presence := presence[key := Entry(box, now, now + knobs.clip, now, false)];
        return Verdict(true, true, reason, reason, gapIou, key);
      }
      var p := presence[key];
      var iou := Iou(box, p.box);
      var emit, ledger, transition, reason := false, false, SuppressFirstOnly, Suppress;
      if iou < iouThreshold {
        if now - p.lastEmit >= knobs.minGap {
          emit, transition, reason, ledger := true, Emit, Emit, true;
        }
      } else if now >= p.clipEndsAt {
        emit, transition, reason, ledger := true, ReArm, ReArm, true;
      } else if !p.suppressLedgered {
        ledger := true;
      }
      p := p.(lastSeen := now, box := box);
      if emit {
        p := p.(clipEndsAt := now + knobs.clip, lastEmit := now, suppressLedgered := false);
      } else if ledger {
        p := p.(suppressLedgered := true);
      }
      presence := presence[key := p];
      return Verdict(emit, ledger, transition, reason, Measured(iou), key);
    }

    method Prune(now: real, gap: real)
      modifies this
      ensures Pruned(old(presence), presence, now, gap, maxKeys)
      ensures forall k :: k in presence ==>
                k in old(presence) && presence[k] == old(presence)[k] && now - presence[k].lastSeen <= gap
      ensures forall k, j :: k in old(presence) && now - old(presence)[k].lastSeen <= gap && k !in presence && j in presence ==>
                old(presence)[k].lastSeen <= presence[j].lastSeen
    {
      var stale := set k | k in presence && now - presence[k].lastSeen > gap;
      ghost var kept := Unlapsed(presence, now, gap);
      presence := presence - stale;
      assert presence == kept;
      if |presence| > maxKeys {
        LeastExists(presence.Keys, Ages(presence));
        var oldest :| oldest in presence && IsLeast(presence.Keys, Ages(presence), oldest);
        presence := presence - {oldest};
      }
    }
  }
}
