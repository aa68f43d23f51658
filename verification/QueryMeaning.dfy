/** What Graph.Query returns: a pointwise merge, and exactly when. */
module QueryMeaning {
  import opened Model
  import opened Arithmetic
  import opened QueryMerge

  // ---------- grids of points ----------

  ghost predicate Contiguous(pts: seq<RRDData>, step: int) {
    forall i :: 0 < i < |pts| ==> pts[i].timestamp == pts[i - 1].timestamp + step
  }

  lemma {:induction false} ContiguousAt(pts: seq<RRDData>, step: int, i: nat)
    requires step > 0 && Contiguous(pts, step) && i < |pts|
    ensures pts[i].timestamp == pts[0].timestamp + i * step
    ensures OnGrid(pts[i].timestamp, pts[0].timestamp, step)
  {
    if i == 0 {
      GridStep(pts[0].timestamp, pts[0].timestamp, step);
    } else {
      ContiguousAt(pts, step, i - 1);
      assert i * step == (i - 1) * step + step;
      GridStep(pts[i].timestamp, pts[i - 1].timestamp, step);
      GridStep(step, 0, step);
      ModAdd(pts[i - 1].timestamp - pts[0].timestamp, step, step);
    }
  }

  lemma ContiguousIncreasing(pts: seq<RRDData>, step: int, i: nat, j: nat)
    requires step > 0 && Contiguous(pts, step) && i < j < |pts|
    ensures pts[i].timestamp < pts[j].timestamp
  {
    ContiguousAt(pts, step, i);
    ContiguousAt(pts, step, j);
    assert j * step == i * step + (j - i) * step;
    MulAtLeast(j - i, step);
  }

  lemma PointIs(pts: seq<RRDData>, k: nat, t: int, i: nat)
    requires i < k <= |pts| && pts[i].timestamp == t && forall j :: 0 <= j < i ==> pts[j].timestamp != t
    ensures PointAt(pts, k, t) == pts[i].value
  {
    var f := Find(PointTimes(pts), k, t);
    assert PointTimes(pts)[i] == t;
  }

  lemma PointNone(pts: seq<RRDData>, k: nat, t: int)
    requires k <= |pts| && forall j :: 0 <= j < k ==> pts[j].timestamp != t
    ensures PointAt(pts, k, t) == NaN
  {
    var f := Find(PointTimes(pts), k, t);
  }

  lemma PointOfContiguous(pts: seq<RRDData>, step: int, i: nat)
    requires step > 0 && Contiguous(pts, step) && i < |pts|
    ensures PointAt(pts, |pts|, pts[i].timestamp) == pts[i].value
  {
    forall j | 0 <= j < i ensures pts[j].timestamp != pts[i].timestamp {
      ContiguousIncreasing(pts, step, j, i);
    }
    PointIs(pts, |pts|, pts[i].timestamp, i);
  }

  /** A contiguous aligned list inside the window is walked to its end. */
  lemma WalksAll(pts: seq<RRDData>, base: int, step: int)
    requires step > 0 && Contiguous(pts, step) && (pts != [] ==> OnGrid(pts[0].timestamp, base, step))
    ensures Passed(PointTimes(pts), 0, base, step) == |pts|
  {
    PassedRun(PointTimes(pts), 0, base, step);
    forall i | 0 <= i < |pts|
      ensures OnGrid(pts[i].timestamp, base, step) && (i > 0 ==> pts[i].timestamp > pts[i - 1].timestamp)
    {
      ContiguousAt(pts, step, i);
      ModAdd(pts[i].timestamp - pts[0].timestamp, pts[0].timestamp - base, step);
    }
  }

  // ---------- the window filter and the densified cache, pointwise ----------

  ghost predicate Has(pts: seq<RRDData>, n: nat, t: int)
    requires n <= |pts|
  {
    exists i :: 0 <= i < n && pts[i].timestamp == t
  }

  lemma PointExtend(pts: seq<RRDData>, n: nat, t: int)
    requires n < |pts|
    ensures PointAt(pts, n + 1, t)
         == if Has(pts, n, t) then PointAt(pts, n, t) else if pts[n].timestamp == t then pts[n].value else NaN
  {
    var f := Find(PointTimes(pts), n, t);
    if f.Some? {
      assert pts[f.value].timestamp == t;
      PointIs(pts, n + 1, t, f.value);
    } else {
      assert !Has(pts, n, t) by {
        forall i | 0 <= i < n ensures pts[i].timestamp != t { assert PointTimes(pts)[i] != t; }
      }
      if pts[n].timestamp == t { PointIs(pts, n + 1, t, n); } else { PointNone(pts, n + 1, t); }
    }
  }

  lemma PointPrefix(a: seq<RRDData>, b: seq<RRDData>, t: int)
    requires a <= b
    ensures PointAt(b, |a|, t) == PointAt(a, |a|, t) && Has(a, |a|, t) == Has(b, |a|, t)
  {
    assert forall i :: 0 <= i < |a| ==> a[i] == b[i];
    var f := Find(PointTimes(a), |a|, t);
    if f.Some? {
      assert forall j :: 0 <= j < f.value ==> PointTimes(a)[j] == b[j].timestamp;
      PointIs(b, |a|, t, f.value);
    } else {
      assert forall j :: 0 <= j < |a| ==> PointTimes(a)[j] == b[j].timestamp;
      PointNone(b, |a|, t);
    }
  }

  lemma PointSnoc(a: seq<RRDData>, p: RRDData, t: int)
    ensures var b := a + [p];
            && PointAt(b, |b|, t)
               == (if Has(a, |a|, t) then PointAt(a, |a|, t) else if p.timestamp == t then p.value else NaN)
            && Has(b, |b|, t) == (Has(a, |a|, t) || p.timestamp == t)
  {
    var b := a + [p];
    PointPrefix(a, b, t);
    PointExtend(b, |a|, t);
    assert b[|a|] == p;
  }

  lemma {:induction false} KeptPoint(pts: seq<RRDData>, n: nat, lo: int, hi: int, t: int)
    requires lo <= t <= hi && n <= |pts|
    ensures var w := Kept(pts, n, lo, hi); PointAt(w, |w|, t) == PointAt(pts, n, t) && Has(w, |w|, t) == Has(pts, n, t)
  {
    if n == 0 {
      var w := Kept(pts, n, lo, hi);
      assert w == [];
      PointNone(pts, 0, t);
      PointNone(w, 0, t);
    } else {
      var w0, w := Kept(pts, n - 1, lo, hi), Kept(pts, n, lo, hi);
      KeptPoint(pts, n - 1, lo, hi, t);
      PointExtend(pts, n - 1, t);
      if lo <= pts[n - 1].timestamp <= hi {
        PointSnoc(w0, pts[n - 1], t);
      } else {
        assert w == w0;
      }
    }
  }

  /** A contiguous grid inside the window, in phase with ts and from there if the window has begun. */
  ghost predicate GridOf(d: seq<RRDData>, step: int, ts: int, last: int, lo: int, hi: int)
    requires step > 0
  {
    && Contiguous(d, step)
    && (forall p :: p in d ==> lo <= p.timestamp <= hi && OnGrid(p.timestamp, ts, step) && ts <= p.timestamp <= last)
    && (d != [] && lo <= ts ==> d[0].timestamp == ts)
  }

  lemma {:induction false} DenseGrid(kind: Kind, items: seq<GraphItem>, k: nat, step: int, ts: int, last: int,
                                     lo: int, hi: int)
    requires step > 0 && k <= |items|
    ensures GridOf(Dense(kind, items, k, step, ts, last, lo, hi), step, ts, last, lo, hi)
    decreases last - ts
  {
    if ts <= last {
      var rest := Dense(kind, items, k, step, ts + step, last, lo, hi);
      DenseGrid(kind, items, k, step, ts + step, last, lo, hi);
      GridHead(rest, CachedAt(kind, items, k, step, ts), step, ts, last, lo, hi);
    }
  }

  /** One more point before a grid that starts a step later. */
  lemma GridHead(rest: seq<RRDData>, v: Val, step: int, ts: int, last: int, lo: int, hi: int)
    requires step > 0 && ts <= last && GridOf(rest, step, ts + step, last, lo, hi)
    ensures GridOf((if lo <= ts <= hi then [RRDData(ts, v)] else []) + rest, step, ts, last, lo, hi)
  {
    GridStep(ts, ts, step);
    forall p | p in rest ensures OnGrid(p.timestamp, ts, step) && p.timestamp > ts {
      GridStep(p.timestamp, ts, step);
    }
    if rest != [] { assert rest[0] in rest; }
  }

  lemma {:induction false} DenseMember(kind: Kind, items: seq<GraphItem>, k: nat, step: int, ts: int, last: int,
                                       lo: int, hi: int, t: int)
    requires step > 0 && k <= |items| && lo <= t <= hi && OnGrid(t, ts, step) && t <= last
    ensures RRDData(t, CachedAt(kind, items, k, step, t)) in Dense(kind, items, k, step, ts, last, lo, hi)
    decreases last - ts
  {
    if t != ts {
      GridStep(t, ts, step);
      DenseMember(kind, items, k, step, ts + step, last, lo, hi, t);
    }
  }

  /** The densify loops are a lookup: at every time of the window the cache grid says what the items reached say. */
  lemma CachePoint(kind: Kind, items: seq<GraphItem>, step: int, lo: int, hi: int, t: int)
    requires step > 0 && items != [] && lo <= t <= hi
    ensures var cache := CacheGrid(kind, items, step, lo, hi);
            PointAt(cache, |cache|, t) == (if OnGrid(t, items[0].timestamp, step) && t <= LastDense(kind, items)
                                           then CachedAt(kind, items, Reached(items, step), step, t) else NaN)
  {
    var ts, last, k := items[0].timestamp, LastDense(kind, items), Reached(items, step);
    var cache := CacheGrid(kind, items, step, lo, hi);
    DenseGrid(kind, items, k, step, ts, last, lo, hi);
    if OnGrid(t, ts, step) && t <= last {
      DenseMember(kind, items, k, step, ts, last, lo, hi, t);
      var i :| 0 <= i < |cache| && cache[i] == RRDData(t, CachedAt(kind, items, k, step, t));
      PointOfContiguous(cache, step, i);
    } else {
      assert forall i :: 0 <= i < |cache| ==> cache[i] in cache;
      PointNone(cache, |cache|, t);
    }
  }

  // ---------- the splice, pointwise ----------

  lemma {:induction false} FillGrid(ts: int, until: int, step: int)
    requires step > 0 && OnGrid(until, ts, step)
    ensures var f := NanFill(ts, until, step);
            && Contiguous(f, step)
            && (forall p :: p in f ==> p.value == NaN)
            && (if f == [] then ts == until else f[0].timestamp == ts && f[|f| - 1].timestamp + step == until)
    decreases until - ts
  {
    GridStep(until, ts, step);
    if ts < until { FillGrid(ts + step, until, step); }
  }

  /** The disk's grid, when there is one, starts no later than the cache's and is in phase with it. */
  ghost predicate DiskFirst(disk: seq<RRDData>, cache: seq<RRDData>, step: int)
    requires step > 0
  {
    disk == [] || cache == [] || OnGrid(cache[0].timestamp, disk[0].timestamp, step)
  }

  ghost predicate ValueIs(s: seq<RRDData>, i: nat, disk: seq<RRDData>, cache: seq<RRDData>, q: nat)
    requires i < |s|
  {
    s[i].value == Prefer(if q <= i < q + |cache| then cache[i - q].value else NaN,
                         if i < |disk| then disk[i].value else NaN)
  }

  /** Inside the disk's range the junction is the very position whose time is the cache's first. */
  lemma JunctionInPhase(disk: seq<RRDData>, first: int, step: int)
    requires step > 0 && Contiguous(disk, step) && disk != [] && OnGrid(first, disk[0].timestamp, step)
    ensures var j := Junction(disk, |disk|, first);
            if j < |disk| then disk[j].timestamp == first else OnGrid(first, disk[j - 1].timestamp + step, step)
  {
    var j := Junction(disk, |disk|, first);
    if j > 0 {
      ContiguousAt(disk, step, j - 1);
      GridFrom(first, disk[j - 1].timestamp, disk[0].timestamp, step);
    }
  }

  /** s is one grid; the cache starts at position q of it and every value is the preferred one. */
  ghost predicate Shape(s: seq<RRDData>, q: nat, disk: seq<RRDData>, cache: seq<RRDData>, step: int) {
    && cache != []
    && |s| >= q + |cache| && |s| >= |disk|
    && Contiguous(s, step)
    && (disk != [] ==> s[0].timestamp == disk[0].timestamp)
    && s[q].timestamp == cache[0].timestamp
    && (disk == [] ==> q == 0)
    && forall i :: 0 <= i < |s| ==> ValueIs(s, i, disk, cache, q)
  }

  lemma AppendShape(disk: seq<RRDData>, fill: seq<RRDData>, cache: seq<RRDData>, step: int)
    requires step > 0 && disk != [] && cache != []
    requires Contiguous(disk, step) && Contiguous(cache, step) && Contiguous(fill, step)
    requires forall p :: p in fill ==> p.value == NaN
    requires if fill == [] then disk[|disk| - 1].timestamp + step == cache[0].timestamp
             else fill[0].timestamp == disk[|disk| - 1].timestamp + step
                  && fill[|fill| - 1].timestamp + step == cache[0].timestamp
    ensures Shape(disk + fill + cache, |disk| + |fill|, disk, cache, step)
  {
    var s, q := disk + fill + cache, |disk| + |fill|;
    forall i | 0 <= i < |s| ensures ValueIs(s, i, disk, cache, q) {
      if |disk| <= i < q { assert fill[i - |disk|] in fill; }
    }
  }

  lemma {:induction false} InStep(a: seq<RRDData>, j: nat, b: seq<RRDData>, step: int, i: nat)
    requires Contiguous(a, step) && Contiguous(b, step) && j + i < |a| && i < |b|
    requires a[j].timestamp == b[0].timestamp
    ensures a[j + i].timestamp == b[i].timestamp
  {
    if i > 0 { InStep(a, j, b, step, i - 1); }
  }

  lemma AloneShape(cache: seq<RRDData>, step: int)
    requires step > 0 && cache != [] && Contiguous(cache, step)
    ensures Spliced([], cache, step) == cache && Shape(cache, 0, [], cache, step)
  {
    assert [] + NanFill(cache[0].timestamp + step, cache[0].timestamp, step) == [];
  }

  lemma OverlayTimes(disk: seq<RRDData>, cache: seq<RRDData>, step: int, j: nat, i: nat)
    requires step > 0 && cache != [] && Contiguous(disk, step) && Contiguous(cache, step)
    requires j < |disk| && disk[j].timestamp == cache[0].timestamp
    requires i < |Overlay(disk, |disk|, j, cache)|
    ensures i >= |disk| ==> i - j < |cache|
    ensures i < |disk| ==> Overlay(disk, |disk|, j, cache)[i].timestamp == disk[i].timestamp
    ensures j <= i && i - j < |cache| ==> Overlay(disk, |disk|, j, cache)[i].timestamp == cache[i - j].timestamp
  {
    if j <= i && i < |disk| && i - j < |cache| { InStep(disk, j, cache, step, i - j); }
  }

  lemma OverlayShape(disk: seq<RRDData>, cache: seq<RRDData>, step: int, j: nat)
    requires step > 0 && cache != [] && Contiguous(disk, step) && Contiguous(cache, step)
    requires j < |disk| && disk[j].timestamp == cache[0].timestamp
    ensures Shape(Overlay(disk, |disk|, j, cache), j, disk, cache, step)
  {
    OverlayContiguous(disk, cache, step, j);
    OverlayTimes(disk, cache, step, j, 0);
    OverlayTimes(disk, cache, step, j, j);
    forall i | 0 <= i < |Overlay(disk, |disk|, j, cache)| ensures ValueIs(Overlay(disk, |disk|, j, cache), i, disk, cache, j) {
      OverlayTimes(disk, cache, step, j, i);
    }
  }

  lemma OverlayContiguous(disk: seq<RRDData>, cache: seq<RRDData>, step: int, j: nat)
    requires step > 0 && cache != [] && Contiguous(disk, step) && Contiguous(cache, step)
    requires j < |disk| && disk[j].timestamp == cache[0].timestamp
    ensures Contiguous(Overlay(disk, |disk|, j, cache), step)
  {
    var s := Overlay(disk, |disk|, j, cache);
    forall i | 0 < i < |s| ensures s[i].timestamp == s[i - 1].timestamp + step {
      OverlayTimes(disk, cache, step, j, i);
      OverlayTimes(disk, cache, step, j, i - 1);
      if i == |disk| {
        assert s[i - 1].timestamp == cache[i - 1 - j].timestamp;
      }
    }
  }

  lemma SplicedInside(disk: seq<RRDData>, cache: seq<RRDData>, step: int, j: nat)
    requires step > 0 && cache != [] && DiskFirst(disk, cache, step) && Contiguous(disk, step)
    requires j == Junction(disk, |disk|, cache[0].timestamp) && j < |disk|
    ensures disk[j].timestamp == cache[0].timestamp
    ensures Spliced(disk, cache, step) == Overlay(disk, |disk|, j, cache)
  {
    JunctionInPhase(disk, cache[0].timestamp, step);
    assert disk + [] == disk;
  }

  lemma SplicedBeyond(disk: seq<RRDData>, cache: seq<RRDData>, step: int, fill: seq<RRDData>)
    requires step > 0 && cache != [] && disk != [] && Junction(disk, |disk|, cache[0].timestamp) == |disk|
    requires fill == NanFill(disk[|disk| - 1].timestamp + step, cache[0].timestamp, step)
    ensures Spliced(disk, cache, step) == disk + fill + cache
  {
  }

  lemma BeyondShape(disk: seq<RRDData>, cache: seq<RRDData>, step: int) returns (q: nat)
    requires step > 0 && cache != [] && Contiguous(disk, step) && Contiguous(cache, step) && DiskFirst(disk, cache, step)
    requires disk != [] && Junction(disk, |disk|, cache[0].timestamp) == |disk|
    ensures Shape(Spliced(disk, cache, step), q, disk, cache, step)
  {
    var from := disk[|disk| - 1].timestamp + step;
    var fill := NanFill(from, cache[0].timestamp, step);
    JunctionInPhase(disk, cache[0].timestamp, step);
    FillGrid(from, cache[0].timestamp, step);
    SplicedBeyond(disk, cache, step, fill);
    AppendShape(disk, fill, cache, step);
    q := |disk| + |fill|;
  }

  lemma SpliceShape(disk: seq<RRDData>, cache: seq<RRDData>, step: int) returns (q: nat)
    requires step > 0 && cache != [] && Contiguous(disk, step) && Contiguous(cache, step) && DiskFirst(disk, cache, step)
    ensures Shape(Spliced(disk, cache, step), q, disk, cache, step)
  {
    var j := Junction(disk, |disk|, cache[0].timestamp);
    q := j;
    if disk == [] {
      AloneShape(cache, step);
    } else if j < |disk| {
      SplicedInside(disk, cache, step, j);
      OverlayShape(disk, cache, step, j);
    } else {
      q := BeyondShape(disk, cache, step);
    }
  }

  /** A list that lies on s from position off is looked up at s's times by position. */
  lemma SubGridPoint(s: seq<RRDData>, off: nat, sub: seq<RRDData>, step: int, i: nat)
    requires step > 0 && Contiguous(s, step) && Contiguous(sub, step) && i < |s|
    requires sub == [] || (off + |sub| <= |s| && s[off].timestamp == sub[0].timestamp)
    ensures PointAt(sub, |sub|, s[i].timestamp) == if off <= i < off + |sub| then sub[i - off].value else NaN
  {
    forall m | 0 <= m < |sub| ensures sub[m].timestamp == s[off + m].timestamp {
      InStep(s, off, sub, step, m);
    }
    if off <= i < off + |sub| {
      PointOfContiguous(sub, step, i - off);
    } else {
      forall m | 0 <= m < |sub| ensures sub[m].timestamp != s[i].timestamp {
        if off + m < i { ContiguousIncreasing(s, step, off + m, i); } else { ContiguousIncreasing(s, step, i, off + m); }
      }
      PointNone(sub, |sub|, s[i].timestamp);
    }
  }

  lemma SubGridAbsent(s: seq<RRDData>, off: nat, sub: seq<RRDData>, step: int, t: int)
    requires step > 0 && Contiguous(s, step) && Contiguous(sub, step)
    requires sub == [] || (off + |sub| <= |s| && s[off].timestamp == sub[0].timestamp)
    requires forall i :: 0 <= i < |s| ==> s[i].timestamp != t
    ensures PointAt(sub, |sub|, t) == NaN
  {
    forall m | 0 <= m < |sub| ensures sub[m].timestamp != t {
      InStep(s, off, sub, step, m);
    }
    PointNone(sub, |sub|, t);
  }

  /** The positional splice is a pointwise merge when the disk's grid starts no later than the cache's. */
  lemma SplicePoint(disk: seq<RRDData>, cache: seq<RRDData>, step: int, t: int)
    requires step > 0 && Contiguous(disk, step) && Contiguous(cache, step) && DiskFirst(disk, cache, step)
    ensures var s := Spliced(disk, cache, step);
            PointAt(s, |s|, t) == Prefer(PointAt(cache, |cache|, t), PointAt(disk, |disk|, t))
  {
    var s := Spliced(disk, cache, step);
    if cache == [] {
      PointNone(cache, 0, t);
    } else {
      var q := SpliceShape(disk, cache, step);
      if i :| 0 <= i < |s| && s[i].timestamp == t {
        PointOfContiguous(s, step, i);
        SubGridPoint(s, q, cache, step, i);
        SubGridPoint(s, 0, disk, step, i);
        assert ValueIs(s, i, disk, cache, q);
      } else {
        PointNone(s, |s|, t);
        SubGridAbsent(s, q, cache, step, t);
        SubGridAbsent(s, 0, disk, step, t);
      }
    }
  }

  // ---------- Query ----------

  /** What transfer guarantees of one series (its alignTs) and what ingest keeps: aligned, strictly increasing. */
  ghost predicate SortedAligned(items: seq<GraphItem>, step: int)
    requires step > 0
  {
    && (forall i :: 0 <= i < |items| ==> items[i].timestamp % step == 0)
    && (forall i, j :: 0 <= i < j < |items| ==> items[i].timestamp < items[j].timestamp)
  }

  ghost predicate AlignedGrid(pts: seq<RRDData>, step: int)
    requires step > 0
  {
    Contiguous(pts, step) && (pts != [] ==> pts[0].timestamp % step == 0)
  }

  lemma AlignedOnGrid(t: int, base: int, step: int)
    requires step > 0 && t % step == 0 && base % step == 0
    ensures OnGrid(t, base, step) <==> t >= base
  {
    ModAdd(t, base, step);
  }

  lemma ReachesAll(items: seq<GraphItem>, step: int)
    requires step > 0 && items != [] && SortedAligned(items, step)
    ensures Reached(items, step) == |items|
  {
    PassedRun(Times(items), 0, items[0].timestamp, step);
    forall i | 0 <= i < |items| ensures OnGrid(items[i].timestamp, items[0].timestamp, step) {
      AlignedOnGrid(items[i].timestamp, items[0].timestamp, step);
    }
  }

  /** Outside the range of the densified cache the items say nothing. */
  lemma CachedOutside(kind: Kind, items: seq<GraphItem>, step: int, t: int)
    requires step > 0 && items != [] && SortedAligned(items, step)
    requires t < items[0].timestamp || t > LastDense(kind, items)
    ensures CachedAt(kind, items, |items|, step, t) == NaN
  {
    assert forall i :: 0 <= i < |items| ==> items[0].timestamp <= Times(items)[i] <= items[|items| - 1].timestamp;
  }

  lemma CacheIsAlignedGrid(kind: Kind, items: seq<GraphItem>, step: int, lo: int, hi: int)
    requires step > 0 && items != [] && SortedAligned(items, step)
    ensures AlignedGrid(CacheGrid(kind, items, step, lo, hi), step)
    ensures forall p :: p in CacheGrid(kind, items, step, lo, hi) ==> lo <= p.timestamp <= hi
  {
    var cache := CacheGrid(kind, items, step, lo, hi);
    DenseGrid(kind, items, Reached(items, step), step, items[0].timestamp, LastDense(kind, items), lo, hi);
    if cache != [] {
      assert cache[0] in cache;
      ModAdd(cache[0].timestamp - items[0].timestamp, items[0].timestamp, step);
    }
  }

  /**
   The conditions under which Query promises its merge: one series' items, and base-resolution disk points
   whose in-window grid starts no later than the cache's.
   */
  ghost predicate MergeReady(kind: Kind, items: seq<GraphItem>, datas: seq<RRDData>, step: int, lo: int, hi: int)
    requires step > 0 && items != []
  {
    var disk, cache := InWindow(datas, lo, hi), CacheGrid(kind, items, step, lo, hi);
    && SortedAligned(items, step)
    && AlignedGrid(disk, step)
    && (disk == [] || cache == [] || disk[0].timestamp <= cache[0].timestamp)
  }

  /** The value Query should return at t: the cached one unless NaN, else the disk's, else NaN. */
  ghost function Pointwise(kind: Kind, items: seq<GraphItem>, datas: seq<RRDData>, step: int, t: int): Val
    requires step > 0
  {
    Prefer(CachedAt(kind, items, |items|, step, t), PointAt(datas, |datas|, t))
  }

  /** The value a result padded from lo shows at t. */
  ghost function ShownAt(m: seq<RRDData>, step: int, lo: int, t: int): Val
    requires step > 0
  {
    PointAt(m, Passed(PointTimes(m), 0, lo, step), t)
  }

  lemma MergeIsPointwise(kind: Kind, items: seq<GraphItem>, datas: seq<RRDData>, step: int, lo: int, hi: int, t: int)
    requires step > 0 && items != [] && MergeReady(kind, items, datas, step, lo, hi)
    requires lo <= t <= hi && lo % step == 0 && t % step == 0
    ensures ShownAt(Merged(kind, items, datas, step, lo, hi), step, lo, t) == Pointwise(kind, items, datas, step, t)
  {
    var disk, cache := InWindow(datas, lo, hi), CacheGrid(kind, items, step, lo, hi);
    var m := Merged(kind, items, datas, step, lo, hi);
    CacheIsAlignedGrid(kind, items, step, lo, hi);
    if disk != [] && cache != [] { AlignedOnGrid(cache[0].timestamp, disk[0].timestamp, step); }
    MergedOnGrid(disk, cache, step, lo, hi);
    SplicePoint(disk, cache, step, t);
    KeptPoint(datas, |datas|, lo, hi, t);
    CachePoint(kind, items, step, lo, hi, t);
    ReachesAll(items, step);
    AlignedOnGrid(t, items[0].timestamp, step);
    if t < items[0].timestamp || t > LastDense(kind, items) { CachedOutside(kind, items, step, t); }
  }

  lemma MergedOnGrid(disk: seq<RRDData>, cache: seq<RRDData>, step: int, lo: int, hi: int)
    requires step > 0 && lo % step == 0 && AlignedGrid(disk, step) && AlignedGrid(cache, step) && DiskFirst(disk, cache, step)
    requires forall p :: p in disk || p in cache ==> lo <= p.timestamp <= hi
    ensures var m := Spliced(disk, cache, step); Passed(PointTimes(m), 0, lo, step) == |m|
  {
    var m := Spliced(disk, cache, step);
    if cache != [] {
      var q := SpliceShape(disk, cache, step);
      assert cache[0] in cache;
      AlignedOnGrid(cache[0].timestamp, lo, step);
    }
    if disk != [] {
      assert disk[0] in disk;
      AlignedOnGrid(disk[0].timestamp, lo, step);
    }
    WalksAll(m, lo, step);
  }

  lemma {:induction false} KeptPrefix(pts: seq<RRDData>, step: int, n: nat, lo: int, hi: int)
    requires step > 0 && Contiguous(pts, step) && n <= |pts| && (pts != [] ==> pts[0].timestamp >= lo)
    ensures Kept(pts, n, lo, hi) <= pts[..n]
    ensures n > 0 && pts[n - 1].timestamp <= hi ==> Kept(pts, n, lo, hi) == pts[..n]
  {
    if n > 0 {
      KeptPrefix(pts, step, n - 1, lo, hi);
      assert pts[..n] == pts[..n - 1] + [pts[n - 1]];
      if n > 1 { ContiguousIncreasing(pts, step, 0, n - 1); }
    }
  }

  lemma FetchedGrid(values: seq<Val>, step: int, lo: int)
    requires step > 0
    ensures var datas := FetchedPoints(lo - step, step, values);
            Contiguous(datas, step) && (datas != [] ==> datas[0].timestamp == lo)
  {
    forall i | 0 < i < |values| ensures lo - step + (i + 1) * step == lo - step + i * step + step {
    }
  }

  /** A grid that starts at the window meets the disk side of MergeReady. */
  lemma GridMergeReady(kind: Kind, items: seq<GraphItem>, datas: seq<RRDData>, step: int, lo: int, hi: int)
    requires step > 0 && items != [] && SortedAligned(items, step) && lo % step == 0
    requires Contiguous(datas, step) && (datas != [] ==> datas[0].timestamp == lo)
    ensures MergeReady(kind, items, datas, step, lo, hi)
  {
    KeptPrefix(datas, step, |datas|, lo, hi);
    CacheIsAlignedGrid(kind, items, step, lo, hi);
    var cache := CacheGrid(kind, items, step, lo, hi);
    if cache != [] { assert cache[0] in cache; }
  }

  /** Points fetched from lo - step at the base resolution always do. */
  lemma FetchedMergeReady(kind: Kind, items: seq<GraphItem>, values: seq<Val>, step: int, lo: int, hi: int)
    requires step > 0 && items != [] && SortedAligned(items, step) && lo % step == 0
    ensures MergeReady(kind, items, FetchedPoints(lo - step, step, values), step, lo, hi)
  {
    FetchedGrid(values, step, lo);
    GridMergeReady(kind, items, FetchedPoints(lo - step, step, values), step, lo, hi);
  }

  // ---------- exactly when ----------

  ghost predicate SameTimes(a: seq<RRDData>, b: seq<RRDData>) {
    |a| == |b| && forall i :: 0 <= i < |a| ==> a[i].timestamp == b[i].timestamp
  }

  ghost predicate MergesRight(disk: seq<RRDData>, cache: seq<RRDData>, step: int, lo: int)
    requires step > 0
  {
    var m := Spliced(disk, cache, step);
    forall t :: ShownAt(m, step, lo, t) == Prefer(PointAt(cache, |cache|, t), PointAt(disk, |disk|, t))
  }

  /** Between grids of given times the splice is right for all values just when the disk's does not start later. */
  lemma SpliceExact(disk: seq<RRDData>, cache: seq<RRDData>, step: int, lo: int, hi: int)
    requires step > 0 && AlignedGrid(disk, step) && AlignedGrid(cache, step) && lo % step == 0
    requires forall p :: p in disk || p in cache ==> lo <= p.timestamp <= hi
    ensures (forall d, c | SameTimes(d, disk) && SameTimes(c, cache) :: MergesRight(d, c, step, lo))
       <==> (disk == [] || cache == [] || disk[0].timestamp <= cache[0].timestamp)
  {
    if disk == [] || cache == [] || disk[0].timestamp <= cache[0].timestamp {
      forall d, c | SameTimes(d, disk) && SameTimes(c, cache) ensures MergesRight(d, c, step, lo) {
        SpliceRight(disk, cache, d, c, step, lo, hi);
      }
    } else {
      var d, c := LateDisk(disk, cache, step, lo);
    }
  }

  ghost predicate Inside(pts: seq<RRDData>, lo: int, hi: int) {
    forall p :: p in pts ==> lo <= p.timestamp <= hi
  }

  lemma InsideToo(a: seq<RRDData>, b: seq<RRDData>, step: int, lo: int, hi: int)
    requires step > 0 && AlignedGrid(a, step) && SameTimes(a, b) && Inside(a, lo, hi)
    ensures AlignedGrid(b, step) && Inside(b, lo, hi)
  {
    forall p | p in b ensures lo <= p.timestamp <= hi {
      var i :| 0 <= i < |b| && b[i] == p;
      assert a[i] in a;
    }
  }

  lemma SpliceRight(disk: seq<RRDData>, cache: seq<RRDData>, d: seq<RRDData>, c: seq<RRDData>, step: int, lo: int, hi: int)
    requires step > 0 && AlignedGrid(disk, step) && AlignedGrid(cache, step) && lo % step == 0
    requires forall p :: p in disk || p in cache ==> lo <= p.timestamp <= hi
    requires disk == [] || cache == [] || disk[0].timestamp <= cache[0].timestamp
    requires SameTimes(d, disk) && SameTimes(c, cache)
    ensures MergesRight(d, c, step, lo)
  {
    InsideToo(disk, d, step, lo, hi);
    InsideToo(cache, c, step, lo, hi);
    RightInside(d, c, step, lo, hi);
  }

  lemma RightInside(d: seq<RRDData>, c: seq<RRDData>, step: int, lo: int, hi: int)
    requires step > 0 && AlignedGrid(d, step) && AlignedGrid(c, step) && lo % step == 0
    requires Inside(d, lo, hi) && Inside(c, lo, hi)
    requires d == [] || c == [] || d[0].timestamp <= c[0].timestamp
    ensures MergesRight(d, c, step, lo)
  {
    if d != [] && c != [] { AlignedOnGrid(c[0].timestamp, d[0].timestamp, step); }
    MergedOnGrid(d, c, step, lo, hi);
    forall t ensures ShownAt(Spliced(d, c, step), step, lo, t) == Prefer(PointAt(c, |c|, t), PointAt(d, |d|, t)) {
      SplicePoint(d, c, step, t);
    }
  }

  /** The same times with other values: v0 first, v after it. */
  function Revalue(pts: seq<RRDData>, v0: Val, v: Val): (r: seq<RRDData>)
    ensures |r| == |pts|
  {
    seq(|pts|, i requires 0 <= i < |pts| => RRDData(pts[i].timestamp, if i == 0 then v0 else v))
  }

  lemma RevaluedGrid(pts: seq<RRDData>, v0: Val, v: Val, step: int)
    requires step > 0 && AlignedGrid(pts, step)
    ensures var r := Revalue(pts, v0, v);
            && AlignedGrid(r, step) && SameTimes(r, pts)
            && (|r| > 0 ==> r[0] == RRDData(pts[0].timestamp, v0)) && (|r| > 1 ==> r[1] == RRDData(pts[1].timestamp, v))
  {
  }

  /**
   Values that go wrong when the disk starts late: a lone cached value overwrites the disk's first point, and a
   leading NaN leaves that point in the cache's first position, where it hides the cached points behind it.
   */
  lemma LateDisk(disk: seq<RRDData>, cache: seq<RRDData>, step: int, lo: int)
    returns (d: seq<RRDData>, c: seq<RRDData>)
    requires step > 0 && AlignedGrid(disk, step) && AlignedGrid(cache, step)
    requires disk != [] && cache != [] && cache[0].timestamp < disk[0].timestamp
    ensures SameTimes(d, disk) && SameTimes(c, cache) && !MergesRight(d, c, step, lo)
  {
    d := Revalue(disk, Num(1.0), Num(1.0));
    c := Revalue(cache, if |cache| == 1 then Num(2.0) else NaN, Num(2.0));
    RevaluedGrid(disk, Num(1.0), Num(1.0), step);
    RevaluedGrid(cache, if |cache| == 1 then Num(2.0) else NaN, Num(2.0), step);
    if |cache| == 1 { LateLone(d, c, step, lo); } else { LateMany(d, c, step, lo); }
  }

  lemma LateLone(d: seq<RRDData>, c: seq<RRDData>, step: int, lo: int)
    requires step > 0 && Contiguous(d, step) && d != [] && |c| == 1 && c[0].timestamp < d[0].timestamp
    requires c[0].value == Num(2.0) && d[0].value == Num(1.0)
    ensures !MergesRight(d, c, step, lo)
  {
    var m, t := Spliced(d, c, step), d[0].timestamp;
    LateSplice(d, c, step);
    forall i | 0 <= i < |m| ensures m[i].timestamp != t {
      if i > 0 { ContiguousIncreasing(d, step, 0, i); }
    }
    PointNone(m, Passed(PointTimes(m), 0, lo, step), t);
    PointNone(c, |c|, t);
    PointOfContiguous(d, step, 0);
    assert ShownAt(m, step, lo, t) != Prefer(PointAt(c, |c|, t), PointAt(d, |d|, t));
  }

  lemma LateMany(d: seq<RRDData>, c: seq<RRDData>, step: int, lo: int)
    requires step > 0 && AlignedGrid(d, step) && AlignedGrid(c, step)
    requires d != [] && |c| > 1 && c[0].timestamp < d[0].timestamp
    requires d[0].value == Num(1.0) && c[0].value == NaN && c[1].value == Num(2.0)
    ensures !MergesRight(d, c, step, lo)
  {
    var m, t := Spliced(d, c, step), c[1].timestamp;
    var k := Passed(PointTimes(m), 0, lo, step);
    LateSplice(d, c, step);
    assert m[0] == d[0];
    AlignedOnGrid(d[0].timestamp, c[0].timestamp, step);
    GridStep(d[0].timestamp, c[0].timestamp, step);
    PassedRun(PointTimes(m), 0, lo, step);
    PointOfContiguous(c, step, 1);
    if k > 0 && d[0].timestamp == t {
      PointIs(m, k, t, 0);
    } else {
      forall i | 0 <= i < k ensures m[i].timestamp != t {
        assert i > 0 ==> PointTimes(m)[0] < PointTimes(m)[i];
      }
      PointNone(m, k, t);
    }
    assert ShownAt(m, step, lo, t) != Prefer(PointAt(c, |c|, t), PointAt(d, |d|, t));
  }

  /** With a late disk the cache is laid over the disk from position 0, whatever the times. */
  lemma LateSplice(d: seq<RRDData>, c: seq<RRDData>, step: int)
    requires step > 0 && Contiguous(d, step) && d != [] && c != [] && c[0].timestamp < d[0].timestamp
    ensures Spliced(d, c, step) == Overlay(d, |d|, 0, c)
  {
    forall i | 0 <= i < |d| ensures d[i].timestamp >= c[0].timestamp {
      if i > 0 { ContiguousIncreasing(d, step, 0, i); }
    }
    assert d + [] == d;
  }

  /** Of strictly increasing items, the densify loops reach all just when all are in phase with the first. */
  lemma ReachedExact(items: seq<GraphItem>, step: int)
    requires step > 0 && items != []
    requires forall i, j :: 0 <= i < j < |items| ==> items[i].timestamp < items[j].timestamp
    ensures Reached(items, step) == |items|
       <==> forall i :: 0 <= i < |items| ==> OnGrid(items[i].timestamp, items[0].timestamp, step)
  {
    PassedRun(Times(items), 0, items[0].timestamp, step);
    assert forall i :: 0 <= i < |items| ==> Times(items)[i] == items[i].timestamp;
  }
}
