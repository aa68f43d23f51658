/**
 Graph.Query's merge of cached items and disk points (modules/graph/api/graph.go): the loops of the source as
 methods, each proved equal to a closed-form function, and the theorem that their composition is a plain
 timestamp-by-timestamp lookup.
 */
module QueryMerge {
  import opened Model
  import opened Arithmetic

  // ---------- lookups: the reference definition ----------

  ghost predicate FirstAt(times: seq<int>, k: nat, t: int, i: nat) {
    i < k <= |times| && times[i] == t && forall j :: 0 <= j < i ==> times[j] != t
  }

  /** The first index below k holding t. */
  ghost function Find(times: seq<int>, k: nat, t: int): (r: Option<nat>)
    requires k <= |times|
    ensures r.Some? ==> FirstAt(times, k, t, r.value)
    ensures r.None? ==> forall i :: 0 <= i < k ==> times[i] != t
  {
    if k == 0 then None
    else
      var r := Find(times, k - 1, t);
      if r.None? && times[k - 1] == t then Some(k - 1) else r
  }

  /** The per-second rate the source stores at `cur`; a falling counter gives NaN. */
  function RateOf(cur: GraphItem, next: GraphItem, step: int): Val
    requires step > 0
  {
    var v := next.value.Minus(cur.value).DividedBy(step as real);
    if v.Negative() then NaN else v
  }

  /** What the first k cached items alone say about time t. */
  ghost function CachedAt(kind: Kind, items: seq<GraphItem>, k: nat, step: int, t: int): Val
    requires step > 0 && k <= |items|
  {
    match kind
    case Gauge =>
      (match Find(Times(items), k, t)
       case Some(i) => items[i].value
       case None => NaN)
    case Rate =>
      (match (Find(Times(items), k, t), Find(Times(items), k, t + step))
       case (Some(i), Some(j)) => RateOf(items[i], items[j], step)
       case _ => NaN)
    case Unknown => NaN
  }

  /** What the first k points of a list say about time t. */
  ghost function PointAt(pts: seq<RRDData>, k: nat, t: int): Val
    requires k <= |pts|
  {
    match Find(PointTimes(pts), k, t)
    case Some(i) => pts[i].value
    case None => NaN
  }

  /** Cache wins unless it is NaN. */
  function Prefer(cached: Val, disk: Val): Val {
    if cached.NaN? then disk else cached
  }

  // ---------- what a two-pointer walk over a step grid consumes ----------

  /**
   Where a pointer at idx ends up if it advances whenever the clock ts, ts + step, ... shows the time under it.
   */
  function Passed(times: seq<int>, idx: nat, ts: int, step: int): (k: nat)
    requires step > 0 && idx <= |times|
    ensures idx <= k <= |times|
    decreases |times| - idx, if idx == |times| then 0 else times[idx] - ts
  {
    if idx == |times| || times[idx] < ts then idx
    else if times[idx] == ts then Passed(times, idx + 1, ts + step, step)
    else Passed(times, idx, ts + step, step)
  }

  ghost predicate OnGrid(t: int, base: int, step: int)
    requires step > 0
  {
    t >= base && (t - base) % step == 0
  }

  lemma GridStep(t: int, base: int, step: int)
    requires step > 0
    ensures OnGrid(base, base, step)
    ensures OnGrid(t, base, step) && t > base <==> OnGrid(t, base + step, step)
  {
    DivUnique(0, step, 0, 0);
    DivUnique(step, step, 1, 0);
    if OnGrid(t, base, step) && t > base {
      var q := (t - base) / step;
      assert t - base == q * step;
      assert q > 0 by { if q <= 0 { MulAtMost(q, step); } }
      MulAtLeast(q, step);
      ModAdd(t - base, step, step);
    }
    if OnGrid(t, base + step, step) { ModAdd(t - base - step, step, step); }
  }

  /** Beyond an on-grid t0, the grid of t0 + step is the rest of the grid of base. */
  lemma GridFrom(t: int, t0: int, base: int, step: int)
    requires step > 0 && OnGrid(t0, base, step)
    ensures OnGrid(t, t0 + step, step) <==> OnGrid(t, base, step) && t > t0
  {
    GridStep(t, t0, step);
    if OnGrid(t, t0, step) { ModAdd(t - t0, t0 - base, step); }
    if OnGrid(t, base, step) { ModAdd(t - base, t0 - base, step); }
  }

  /** The walk passes exactly the longest run that stays on the grid of ts and strictly increases. */
  lemma {:induction false} PassedRun(times: seq<int>, idx: nat, ts: int, step: int)
    requires step > 0 && idx <= |times|
    ensures var k := Passed(times, idx, ts, step);
            && (forall i :: idx <= i < k ==> OnGrid(times[i], ts, step))
            && (forall i, j :: idx <= i < j < k ==> times[i] < times[j])
            && (k < |times| ==> !OnGrid(times[k], ts, step) || (k > idx && times[k] <= times[k - 1]))
    decreases |times| - idx, if idx == |times| then 0 else times[idx] - ts
  {
    if idx == |times| || times[idx] < ts {
    } else {
      var idx' := if times[idx] == ts then idx + 1 else idx;
      PassedRun(times, idx', ts + step, step);
      forall i | idx <= i < |times|
        ensures OnGrid(times[i], ts, step) && times[i] > ts <==> OnGrid(times[i], ts + step, step)
      {
        GridStep(times[i], ts, step);
      }
      GridStep(ts, ts, step);
    }
  }

  /** Where the pointer stands when the clock shows ts, if it will end at k. */
  ghost predicate Walked(times: seq<int>, k: nat, step: int, idx: nat, ts: int)
    requires step > 0
  {
    && idx <= k <= |times|
    && Passed(times, idx, ts, step) == k
    && forall i :: 0 <= i < idx ==> times[i] < ts
  }

  /** One turn of the walk: the pointer's own test finds exactly what a lookup in the passed prefix finds. */
  lemma WalkStep(times: seq<int>, k: nat, step: int, idx: nat, ts: int)
    requires step > 0 && Walked(times, k, step, idx, ts)
    ensures var hit := idx < |times| && times[idx] == ts;
            && (hit ==> idx < k && Find(times, k, ts) == Some(idx) && Walked(times, k, step, idx + 1, ts + step))
            && (!hit ==> Find(times, k, ts) == None && Walked(times, k, step, idx, ts + step))
  {
    PassedRun(times, idx, ts, step);
    if idx < |times| && times[idx] == ts {
      var f := Find(times, k, ts);
      assert f.Some?;
    } else {
      assert forall i :: idx <= i < k ==> times[i] != ts;
    }
  }

  // ---------- cached items onto the grid ----------

  /** The points of the grid ts, ts + step, ... up to last that lie in [lo, hi], valued by lookup in the items. */
  ghost function Dense(kind: Kind, items: seq<GraphItem>, k: nat, step: int, ts: int, last: int, lo: int, hi: int)
    : seq<RRDData>
    requires step > 0 && k <= |items|
    decreases last - ts
  {
    if ts > last then []
    else (if lo <= ts <= hi then [RRDData(ts, CachedAt(kind, items, k, step, ts))] else [])
         + Dense(kind, items, k, step, ts + step, last, lo, hi)
  }

  /** A turn of a densifying loop emits exactly the head of what is left to emit. */
  lemma DenseStep(cache: seq<RRDData>, cache': seq<RRDData>, kind: Kind, items: seq<GraphItem>, k: nat, step: int,
                  ts: int, last: int, lo: int, hi: int)
    requires step > 0 && k <= |items| && ts <= last
    requires cache' == if lo <= ts <= hi then cache + [RRDData(ts, CachedAt(kind, items, k, step, ts))] else cache
    ensures cache + Dense(kind, items, k, step, ts, last, lo, hi)
         == cache' + Dense(kind, items, k, step, ts + step, last, lo, hi)
  {
    var head := if lo <= ts <= hi then [RRDData(ts, CachedAt(kind, items, k, step, ts))] else [];
    var rest := Dense(kind, items, k, step, ts + step, last, lo, hi);
    assert cache' == cache + head;
    assert cache + (head + rest) == cache + head + rest;
  }

  /** How many items the densifying loops reach. */
  function Reached(items: seq<GraphItem>, step: int): (k: nat)
    requires step > 0 && items != []
    ensures k <= |items|
  {
    Passed(Times(items), 0, items[0].timestamp, step)
  }

  /** The last timestamp of the densified cache: a rate needs a successor, and an unknown type caches nothing. */
  function LastDense(kind: Kind, items: seq<GraphItem>): int
    requires items != []
  {
    var end := items[|items| - 1].timestamp;
    if kind == Gauge then end else if kind == Rate then end - 1 else items[0].timestamp - 1
  }

  /** The densified cache inside the window. */
  ghost function CacheGrid(kind: Kind, items: seq<GraphItem>, step: int, lo: int, hi: int): seq<RRDData>
    requires step > 0 && items != []
  {
    Dense(kind, items, Reached(items, step), step, items[0].timestamp, LastDense(kind, items), lo, hi)
  }

  lemma RateFinds(times: seq<int>, k: nat, step: int, idx: nat, ts: int)
    requires step > 0 && Walked(times, k, step, idx, ts) && idx + 1 < |times| && times[idx] == ts
    ensures Find(times, k, ts) == Some(idx)
    ensures Find(times, k, ts + step) == if times[idx + 1] == ts + step then Some(idx + 1) else None
  {
    WalkStep(times, k, step, idx, ts);
    WalkStep(times, k, step, idx + 1, ts + step);
  }

  /** The body of the COUNTER and DERIVE loop, graph.go:215-235. */
  method RateTurn(items: seq<GraphItem>, ghost k: nat, step: int, startTs: int, endTs: int, ts: int, itemIdx: nat,
                  cache: seq<RRDData>)
    returns (idx: nat, cache': seq<RRDData>)
    requires step > 0 && items != [] && ts < items[|items| - 1].timestamp
    requires Walked(Times(items), k, step, itemIdx, ts)
    ensures Walked(Times(items), k, step, idx, ts + step)
    ensures cache + Dense(Rate, items, k, step, ts, LastDense(Rate, items), startTs, endTs)
         == cache' + Dense(Rate, items, k, step, ts + step, LastDense(Rate, items), startTs, endTs)
  {
    WalkStep(Times(items), k, step, itemIdx, ts);
    idx, cache' := itemIdx, cache;
    var val;
    if itemIdx < |items| - 1 && ts == items[itemIdx].timestamp {
      RateFinds(Times(items), k, step, itemIdx, ts);
      if ts == items[itemIdx + 1].timestamp - step {
        val := items[itemIdx + 1].value.Minus(items[itemIdx].value).DividedBy(step as real);
      } else {
        val := NaN;
      }
      if val.Negative() {
        val := NaN;
      }
      idx := itemIdx + 1;
    } else {
      val := NaN;
    }
    if startTs <= ts <= endTs {
      cache' := cache + [RRDData(ts, val)];
    }
    DenseStep(cache, cache', Rate, items, k, step, ts, LastDense(Rate, items), startTs, endTs);
  }

  /** The body of the GAUGE loop, graph.go:237-250. */
  method GaugeTurn(items: seq<GraphItem>, ghost k: nat, step: int, startTs: int, endTs: int, ts: int, itemIdx: nat,
                   cache: seq<RRDData>)
    returns (idx: nat, cache': seq<RRDData>)
    requires step > 0 && items != [] && ts <= items[|items| - 1].timestamp
    requires Walked(Times(items), k, step, itemIdx, ts)
    ensures Walked(Times(items), k, step, idx, ts + step)
    ensures cache + Dense(Gauge, items, k, step, ts, LastDense(Gauge, items), startTs, endTs)
         == cache' + Dense(Gauge, items, k, step, ts + step, LastDense(Gauge, items), startTs, endTs)
  {
    WalkStep(Times(items), k, step, itemIdx, ts);
    idx, cache' := itemIdx, cache;
    var val;
    if itemIdx < |items| && ts == items[itemIdx].timestamp {
      val := items[itemIdx].value;
      idx := itemIdx + 1;
    } else {
      val := NaN;
    }
    if startTs <= ts <= endTs {
      cache' := cache + [RRDData(ts, val)];
    }
    DenseStep(cache, cache', Gauge, items, k, step, ts, LastDense(Gauge, items), startTs, endTs);
  }

  /** The COUNTER and DERIVE loop, graph.go:214-235. */
  method FormatRates(items: seq<GraphItem>, step: int, startTs: int, endTs: int) returns (cache: seq<RRDData>)
    requires step > 0 && items != []
    ensures cache == CacheGrid(Rate, items, step, startTs, endTs)
  {
    cache := [];
    var ts, itemEndTs, itemIdx := items[0].timestamp, items[|items| - 1].timestamp, 0;
    ghost var k, all := Reached(items, step), CacheGrid(Rate, items, step, startTs, endTs);
    while ts < itemEndTs
      invariant Walked(Times(items), k, step, itemIdx, ts)
      invariant all == cache + Dense(Rate, items, k, step, ts, LastDense(Rate, items), startTs, endTs)
      decreases itemEndTs - ts
    {
      itemIdx, cache := RateTurn(items, k, step, startTs, endTs, ts, itemIdx, cache);
      ts := ts + step;
    }
    assert cache + [] == cache;
  }

  /** The GAUGE loop, graph.go:236-251. */
  method FormatGauges(items: seq<GraphItem>, step: int, startTs: int, endTs: int) returns (cache: seq<RRDData>)
    requires step > 0 && items != []
    ensures cache == CacheGrid(Gauge, items, step, startTs, endTs)
  {
    cache := [];
    var ts, itemEndTs, itemIdx := items[0].timestamp, items[|items| - 1].timestamp, 0;
    ghost var k, all := Reached(items, step), CacheGrid(Gauge, items, step, startTs, endTs);
    while ts <= itemEndTs
      invariant Walked(Times(items), k, step, itemIdx, ts)
      invariant all == cache + Dense(Gauge, items, k, step, ts, LastDense(Gauge, items), startTs, endTs)
      decreases itemEndTs - ts
    {
      itemIdx, cache := GaugeTurn(items, k, step, startTs, endTs, ts, itemIdx, cache);
      ts := ts + step;
    }
    assert cache + [] == cache;
  }

  /** The cached items on the query's grid, graph.go:207-251, for any list of items, sorted and aligned or not. */
  method FormatCache(kind: Kind, items: seq<GraphItem>, step: int, startTs: int, endTs: int)
    returns (cache: seq<RRDData>)
    requires step > 0 && items != []
    ensures cache == CacheGrid(kind, items, step, startTs, endTs)
  {
    cache := [];
    if kind == Rate {
      cache := FormatRates(items, step, startTs, endTs);
    } else if kind == Gauge {
      cache := FormatGauges(items, step, startTs, endTs);
    }
  }

  // ---------- disk points ----------

  /** The points of an rrd fetch that answered from start with stepS seconds a row. */
  function FetchedPoints(start: int, stepS: int, values: seq<Val>): seq<RRDData> {
    seq(|values|, i requires 0 <= i < |values| => RRDData(start + (i + 1) * stepS, values[i]))
  }

  /** The loop of rrdtool.go:217-231. */
  method Fetch(start: int, stepS: int, values: seq<Val>) returns (ret: seq<RRDData>)
    ensures ret == FetchedPoints(start, stepS, values)
  {
    ret := [];
    for i := 0 to |values|
      invariant ret == FetchedPoints(start, stepS, values[..i])
    {
      var ts := start + (i + 1) * stepS;
      ret := ret + [RRDData(ts, values[i])];
      assert values[..i + 1] == values[..i] + [values[i]];
    }
    assert values[..|values|] == values;
  }

  // ---------- splicing the cache onto the disk points, by position ----------

  /** Those of the first n points that lie in [lo, hi]. */
  function Kept(pts: seq<RRDData>, n: nat, lo: int, hi: int): (r: seq<RRDData>)
    requires n <= |pts|
    ensures forall p :: p in r ==> lo <= p.timestamp <= hi
  {
    if n == 0 then []
    else Kept(pts, n - 1, lo, hi) + if lo <= pts[n - 1].timestamp <= hi then [pts[n - 1]] else []
  }

  function InWindow(pts: seq<RRDData>, lo: int, hi: int): (r: seq<RRDData>)
    ensures forall p :: p in r ==> lo <= p.timestamp <= hi
  {
    Kept(pts, |pts|, lo, hi)
  }

  /** One past the last of the first n disk points earlier than t, or 0. */
  function Junction(disk: seq<RRDData>, n: nat, t: int): (j: nat)
    requires n <= |disk|
    ensures j <= n && (j > 0 ==> disk[j - 1].timestamp < t)
    ensures forall i :: j <= i < n ==> disk[i].timestamp >= t
  {
    if n == 0 || disk[n - 1].timestamp < t then n else Junction(disk, n - 1, t)
  }

  /** NaN points at ts, ts + step, ... before until. */
  function NanFill(ts: int, until: int, step: int): seq<RRDData>
    requires step > 0
    decreases until - ts
  {
    if ts >= until then [] else [RRDData(ts, NaN)] + NanFill(ts + step, until, step)
  }

  /** m with the cache laid over positions j.. below size, where it is not NaN, and what is left appended. */
  function Overlay(m: seq<RRDData>, size: nat, j: nat, cache: seq<RRDData>): seq<RRDData>
    requires j <= size <= |m|
  {
    var over := if |cache| <= size - j then |cache| else size - j;
    seq(|m|, i requires 0 <= i < |m| => if j <= i < j + over && !cache[i - j].value.NaN? then cache[i - j] else m[i])
    + cache[over..]
  }

  function Spliced(disk: seq<RRDData>, cache: seq<RRDData>, step: int): seq<RRDData>
    requires step > 0
  {
    if cache == [] then disk
    else
      var j := Junction(disk, |disk|, cache[0].timestamp);
      var lastTs := if j > 0 then disk[j - 1].timestamp else cache[0].timestamp;
      Overlay(disk + NanFill(lastTs + step, cache[0].timestamp, step), |disk|, j, cache)
  }

  /** The loop of graph.go:256-262. */
  method FilterDisk(datas: seq<RRDData>, startTs: int, endTs: int) returns (merged: seq<RRDData>)
    ensures merged == InWindow(datas, startTs, endTs)
  {
    merged := [];
    for i := 0 to |datas|
      invariant merged == Kept(datas, i, startTs, endTs)
    {
      var val := datas[i];
      if val.timestamp >= startTs && val.timestamp <= endTs {
        merged := merged + [val];
      }
    }
  }

  lemma OverlayStep(m: seq<RRDData>, size: nat, j: nat, cache: seq<RRDData>, i: nat)
    requires j <= size <= |m| && i < |cache|
    ensures var before, after := Overlay(m, size, j, cache[..i]), Overlay(m, size, j, cache[..i + 1]);
            after == if j + i >= size then before + [cache[i]]
                     else if cache[i].value.NaN? then before
                     else before[j + i := cache[i]]
  {
    if j + i >= size {
      assert cache[..i + 1][size - j..] == cache[..i][size - j..] + [cache[i]];
    }
  }

  /** The backward search for the junction, graph.go:266-275. */
  method FindJunction(disk: seq<RRDData>, first: int) returns (rrdDataIdx: int, lastTs: int)
    ensures rrdDataIdx + 1 == Junction(disk, |disk|, first)
    ensures lastTs == if rrdDataIdx >= 0 then disk[rrdDataIdx].timestamp else first
  {
    lastTs := first;
    rrdDataIdx := |disk| - 1;
    while rrdDataIdx >= 0
      invariant -1 <= rrdDataIdx < |disk|
      invariant Junction(disk, rrdDataIdx + 1, first) == Junction(disk, |disk|, first)
    {
      if disk[rrdDataIdx].timestamp < first {
        lastTs := disk[rrdDataIdx].timestamp;
        break;
      }
      rrdDataIdx := rrdDataIdx - 1;
    }
  }

  /** graph.go:277-280. */
  method FixMissing(disk: seq<RRDData>, lastTs: int, first: int, step: int) returns (merged: seq<RRDData>)
    requires step > 0
    ensures merged == disk + NanFill(lastTs + step, first, step)
  {
    merged := disk;
    var ts := lastTs + step;
    while ts < first
      invariant merged + NanFill(ts, first, step) == disk + NanFill(lastTs + step, first, step)
      decreases first - ts
    {
      merged := merged + [RRDData(ts, NaN)];
      ts := ts + step;
    }
    assert merged + [] == merged;
  }

  /** graph.go:282-293: overwrite in place while positions last, then append. */
  method OverlayCache(filled: seq<RRDData>, rrdDataSize: nat, start: nat, cache: seq<RRDData>)
    returns (merged: seq<RRDData>)
    requires start <= rrdDataSize <= |filled|
    ensures merged == Overlay(filled, rrdDataSize, start, cache)
  {
    merged := filled;
    var rrdDataIdx := start;
    assert Overlay(filled, rrdDataSize, start, cache[..0]) == filled;
    for cacheIdx := 0 to |cache|
      invariant rrdDataIdx == start + cacheIdx
      invariant merged == Overlay(filled, rrdDataSize, start, cache[..cacheIdx])
    {
      OverlayStep(filled, rrdDataSize, start, cache, cacheIdx);
      if rrdDataIdx < rrdDataSize {
        if !cache[cacheIdx].value.NaN? {
          merged := merged[rrdDataIdx := cache[cacheIdx]];
        }
      } else {
        merged := merged + [cache[cacheIdx]];
      }
      rrdDataIdx := rrdDataIdx + 1;
    }
    assert cache[..|cache|] == cache;
  }

  /** graph.go:264-294. */
  method SpliceCache(disk: seq<RRDData>, cache: seq<RRDData>, step: int) returns (merged: seq<RRDData>)
    requires step > 0
    ensures merged == Spliced(disk, cache, step)
  {
    merged := disk;
    if |cache| > 0 {
      var rrdDataIdx, lastTs := FindJunction(disk, cache[0].timestamp);
      merged := FixMissing(disk, lastTs, cache[0].timestamp, step);
      merged := OverlayCache(merged, |disk|, rrdDataIdx + 1, cache);
    }
  }

  // ---------- padding to the requested window ----------

  function ResultSize(kind: Kind, step: int, startTs: int, endTs: int): nat
    requires step > 0 && startTs <= endTs
  {
    (endTs - startTs) / step + if kind == Gauge then 1 else 0
  }

  /** The i-th returned point is at startTs + i * step and looks its value up in what the walk reaches. */
  ghost function Padded(merged: seq<RRDData>, size: nat, step: int, startTs: int): seq<RRDData>
    requires step > 0
  {
    var k := Passed(PointTimes(merged), 0, startTs, step);
    seq(size, i requires 0 <= i < size => RRDData(startTs + i * step, PointAt(merged, k, startTs + i * step)))
  }

  lemma PadStep(merged: seq<RRDData>, i: nat, step: int, startTs: int, ts: int)
    requires step > 0 && ts == startTs + i * step
    ensures ts + step == startTs + (i + 1) * step
    ensures Padded(merged, i + 1, step, startTs)
         == Padded(merged, i, step, startTs)
            + [RRDData(ts, PointAt(merged, Passed(PointTimes(merged), 0, startTs, step), ts))]
  {
  }

  /** The loop of graph.go:297-313. */
  method PadResult(merged: seq<RRDData>, kind: Kind, step: int, startTs: int, endTs: int) returns (ret: seq<RRDData>)
    requires step > 0 && startTs <= endTs
    ensures ret == Padded(merged, ResultSize(kind, step, startTs, endTs), step, startTs)
  {
    var retSize := (endTs - startTs) / step;
    if kind == Gauge {
      retSize := retSize + 1;
    }
    ret := [];
    var mergedIdx, ts := 0, startTs;
    ghost var k := Passed(PointTimes(merged), 0, startTs, step);
    for i := 0 to retSize
      invariant ts == startTs + i * step
      invariant Walked(PointTimes(merged), k, step, mergedIdx, ts)
      invariant ret == Padded(merged, i, step, startTs)
    {
      WalkStep(PointTimes(merged), k, step, mergedIdx, ts);
      PadStep(merged, i, step, startTs, ts);
      if mergedIdx < |merged| && ts == merged[mergedIdx].timestamp {
        ret := ret + [merged[mergedIdx]];
        mergedIdx := mergedIdx + 1;
      } else {
        ret := ret + [RRDData(ts, NaN)];
      }
      ts := ts + step;
    }
  }

  /** The merge block of Query, graph.go:205-315. */
  ghost function Merged(kind: Kind, items: seq<GraphItem>, datas: seq<RRDData>, step: int, lo: int, hi: int)
    : seq<RRDData>
    requires step > 0 && items != []
  {
    Spliced(InWindow(datas, lo, hi), CacheGrid(kind, items, step, lo, hi), step)
  }

  method Merge(kind: Kind, items: seq<GraphItem>, datas: seq<RRDData>, step: int, startTs: int, endTs: int)
    returns (ret: seq<RRDData>)
    requires step > 0 && items != [] && startTs <= endTs
    ensures ret == Padded(Merged(kind, items, datas, step, startTs, endTs),
                          ResultSize(kind, step, startTs, endTs), step, startTs)
  {
    var cache := FormatCache(kind, items, step, startTs, endTs);
    var disk := FilterDisk(datas, startTs, endTs);
    var merged := SpliceCache(disk, cache, step);
    ret := PadResult(merged, kind, step, startTs, endTs);
  }
}
