/** What queries return of what was ingested, on a node with the file and on one that still asks the old node. */
module Reads {
  import opened Model
  import opened FlatStore
  import opened Ingest
  import opened Api
  import QueryMerge
  import QueryMeaning

  // ---------- after any run of batches and pops ----------

  datatype Op = Took(batch: seq<Option<GraphItem>>) | Popped(key: string)

  ghost function After(env: Env, s: State, ops: seq<Op>, n: nat): State
    requires WellFormed(env) && n <= |ops|
  {
    if n == 0 then s
    else
      var before := After(env, s, ops, n - 1);
      match ops[n - 1]
      case Took(batch) => Batch(env, before, batch, |batch|)
      case Popped(key) => before.(items := Emptied(before.items, key))
  }

  /** The items under a key are on the step. */
  ghost predicate Aligned(m: FlatMap, key: string, step: int)
    requires step > 0
  {
    forall i :: key in m && 0 <= i < |m[key].items| ==> m[key].items[i].timestamp % step == 0
  }

  ghost predicate SlotAligned(env: Env, slot: Option<GraphItem>, key: string, step: int)
    requires step > 0
  {
    slot.Some? && KeyOf(env, slot.value) == key ==> slot.value.timestamp % step == 0
  }

  ghost predicate BatchAligned(env: Env, batch: seq<Option<GraphItem>>, key: string, step: int)
    requires step > 0
  {
    forall i :: 0 <= i < |batch| ==> SlotAligned(env, batch[i], key, step)
  }

  lemma SlotKeepsAligned(env: Env, s: State, slot: Option<GraphItem>, key: string, step: int)
    requires WellFormed(env) && step > 0 && Aligned(s.items, key, step) && SlotAligned(env, slot, key, step)
    ensures Aligned(Slot(env, s, slot).items, key, step)
  {
  }

  lemma {:induction false} BatchKeepsAligned(env: Env, s: State, batch: seq<Option<GraphItem>>, n: nat, key: string,
                                             step: int)
    requires WellFormed(env) && step > 0 && n <= |batch| && Aligned(s.items, key, step)
    requires BatchAligned(env, batch, key, step)
    ensures Aligned(Batch(env, s, batch, n).items, key, step)
  {
    if n > 0 {
      BatchKeepsAligned(env, s, batch, n - 1, key, step);
      SlotKeepsAligned(env, Batch(env, s, batch, n - 1), batch[n - 1], key, step);
    }
  }

  lemma {:induction false} RunKeepsReady(env: Env, s: State, ops: seq<Op>, n: nat, key: string, step: int)
    requires WellFormed(env) && step > 0 && n <= |ops| && Ordered(s.items) && Aligned(s.items, key, step)
    requires forall i :: 0 <= i < |ops| && ops[i].Took? ==> BatchAligned(env, ops[i].batch, key, step)
    ensures Ordered(After(env, s, ops, n).items) && Aligned(After(env, s, ops, n).items, key, step)
  {
    if n > 0 {
      RunKeepsReady(env, s, ops, n - 1, key, step);
      var before := After(env, s, ops, n - 1);
      match ops[n - 1]
      case Took(batch) =>
        BatchKeepsOrder(env, before, batch, |batch|);
        BatchKeepsAligned(env, before, batch, |batch|, key, step);
      case Popped(k) => PopKeepsOrder(before.items, k);
    }
  }

  lemma FetchedIsSorted(m: FlatMap, key: string, step: int)
    requires step > 0 && Ordered(m) && Aligned(m, key, step)
    ensures QueryMeaning.SortedAligned(FetchAll(m, key).0, step)
  {
  }

  /**
   After any run of batches whose items for a key are on its step, and of pops, a query of that key merges what is
   cached with the base-resolution points of its file point by point.
   */
  lemma RunIsReadPointwise(env: Env, s: State, ops: seq<Op>, key: string, kind: Kind, step: int, lo: int, hi: int,
                           oldest: int, values: seq<Val>, i: nat)
    requires WellFormed(env) && step > 0 && Ordered(s.items) && Aligned(s.items, key, step)
    requires forall i :: 0 <= i < |ops| && ops[i].Took? ==> BatchAligned(env, ops[i].batch, key, step)
    requires lo % step == 0 && hi - lo - step >= 1 && lo >= oldest
    requires FetchAll(After(env, s, ops, |ops|).items, key).0 != []
    ensures var items := FetchAll(After(env, s, ops, |ops|).items, key).0;
            var datas := QueryMerge.FetchedPoints(lo - step, step, values);
            var ret := Answer(kind, step, lo, hi, oldest, items, datas);
            && |ret| == (hi - lo) / step + (if kind == Gauge then 1 else 0)
            && (i < |ret| ==> ret[i] == RRDData(lo + i * step,
                                                QueryMeaning.Pointwise(kind, items, datas, step, lo + i * step)))
  {
    RunKeepsReady(env, s, ops, |ops|, key, step);
    var m := After(env, s, ops, |ops|).items;
    FetchedIsSorted(m, key, step);
    var items := FetchAll(m, key).0;
    QueryMeaning.FetchedMergeReady(kind, items, values, step, lo, hi);
    AnswerIsPointwise(kind, step, lo, hi, oldest, items, QueryMerge.FetchedPoints(lo - step, step, values), i);
  }

  // ---------- while MISS is set ----------

  ghost predicate TimesFrom(pts: seq<RRDData>, lo: int, step: int) {
    forall i :: 0 <= i < |pts| ==> pts[i].timestamp == lo + i * step
  }

  lemma TimesAreGrid(pts: seq<RRDData>, lo: int, step: int)
    requires TimesFrom(pts, lo, step)
    ensures QueryMeaning.Contiguous(pts, step) && (pts != [] ==> pts[0].timestamp == lo)
  {
    forall i | 0 < i < |pts| ensures pts[i].timestamp == pts[i - 1].timestamp + step {
      assert lo + i * step == lo + (i - 1) * step + step;
    }
  }

  lemma ShownIs(pts: seq<RRDData>, lo: int, step: int, i: nat, t: int, v: Val)
    requires step > 0 && TimesFrom(pts, lo, step) && i < |pts| && pts[i] == RRDData(t, v)
    ensures QueryMerge.PointAt(pts, |pts|, t) == v
  {
    TimesAreGrid(pts, lo, step);
    QueryMeaning.PointOfContiguous(pts, step, i);
  }

  /** An answer of a node with cached items has its points a step apart, from the start of the window. */
  lemma AnswerTimes(kind: Kind, step: int, lo: int, hi: int, oldest: int, items: seq<GraphItem>, datas: seq<RRDData>)
    requires step > 0 && lo % step == 0 && hi - lo - step >= 1 && lo >= oldest && items != []
    requires QueryMeaning.MergeReady(kind, items, datas, step, lo, hi)
    ensures TimesFrom(Answer(kind, step, lo, hi, oldest, items, datas), lo, step)
  {
    var ret := Answer(kind, step, lo, hi, oldest, items, datas);
    forall i | 0 <= i < |ret| ensures ret[i].timestamp == lo + i * step {
      AnswerIsPointwise(kind, step, lo, hi, oldest, items, datas, i);
    }
  }

  /** At its i-th time the answer shows its i-th value. */
  lemma AnswerShows(kind: Kind, step: int, lo: int, hi: int, oldest: int, items: seq<GraphItem>, datas: seq<RRDData>,
                    i: nat, t: int)
    requires step > 0 && lo % step == 0 && hi - lo - step >= 1 && lo >= oldest && items != [] && t == lo + i * step
    requires QueryMeaning.MergeReady(kind, items, datas, step, lo, hi)
    ensures var ret := Answer(kind, step, lo, hi, oldest, items, datas);
            i < |ret| ==> QueryMerge.PointAt(ret, |ret|, t) == QueryMeaning.Pointwise(kind, items, datas, step, t)
  {
    var ret := Answer(kind, step, lo, hi, oldest, items, datas);
    if i < |ret| {
      AnswerTimes(kind, step, lo, hi, oldest, items, datas);
      AnswerIth(kind, step, lo, hi, oldest, items, datas, i, t);
      ShownIs(ret, lo, step, i, t, QueryMeaning.Pointwise(kind, items, datas, step, t));
    }
  }

  lemma AnswerIth(kind: Kind, step: int, lo: int, hi: int, oldest: int, items: seq<GraphItem>, datas: seq<RRDData>,
                  i: nat, t: int)
    requires step > 0 && lo % step == 0 && hi - lo - step >= 1 && lo >= oldest && items != [] && t == lo + i * step
    requires QueryMeaning.MergeReady(kind, items, datas, step, lo, hi)
    requires i < |Answer(kind, step, lo, hi, oldest, items, datas)|
    ensures Answer(kind, step, lo, hi, oldest, items, datas)[i]
         == RRDData(t, QueryMeaning.Pointwise(kind, items, datas, step, t))
  {
    AnswerSize(kind, step, lo, hi, oldest, items, datas);
    SizeInWindow(kind, step, lo, hi, i, t);
    AnswerAt(kind, step, lo, hi, oldest, items, datas, i, t);
  }

  /** An answer can be merged like points of the file. */
  lemma AnswerMergeReady(kind: Kind, step: int, lo: int, hi: int, oldest: int, items: seq<GraphItem>,
                         oldItems: seq<GraphItem>, oldDatas: seq<RRDData>)
    requires step > 0 && lo % step == 0 && hi - lo - step >= 1 && lo >= oldest
    requires items != [] && QueryMeaning.SortedAligned(items, step)
    requires oldItems != [] && QueryMeaning.MergeReady(kind, oldItems, oldDatas, step, lo, hi)
    ensures QueryMeaning.MergeReady(kind, items, Answer(kind, step, lo, hi, oldest, oldItems, oldDatas), step, lo, hi)
  {
    AnswerTimes(kind, step, lo, hi, oldest, oldItems, oldDatas);
    TimesAreGrid(Answer(kind, step, lo, hi, oldest, oldItems, oldDatas), lo, step);
    QueryMeaning.GridMergeReady(kind, items, Answer(kind, step, lo, hi, oldest, oldItems, oldDatas), step, lo, hi);
  }

  /** A merge with points whose i-th shows v. */
  lemma MergedShows(kind: Kind, step: int, lo: int, hi: int, oldest: int, items: seq<GraphItem>, datas: seq<RRDData>,
                    i: nat, t: int, v: Val)
    requires step > 0 && lo % step == 0 && hi - lo - step >= 1 && lo >= oldest && items != [] && t == lo + i * step
    requires QueryMeaning.MergeReady(kind, items, datas, step, lo, hi)
    requires i < QueryMerge.ResultSize(kind, step, lo, hi)
    requires lo <= t <= hi && t % step == 0 && QueryMerge.PointAt(datas, |datas|, t) == v
    ensures var ret := Answer(kind, step, lo, hi, oldest, items, datas);
            && i < |ret|
            && ret[i] == RRDData(t, QueryMerge.Prefer(QueryMerge.CachedAt(kind, items, |items|, step, t), v))
  {
    AnswerAt(kind, step, lo, hi, oldest, items, datas, i, t);
  }

  lemma SizeInWindow(kind: Kind, step: int, lo: int, hi: int, i: nat, t: int)
    requires step > 0 && lo % step == 0 && lo <= hi && t == lo + i * step
    requires i < QueryMerge.ResultSize(kind, step, lo, hi)
    ensures lo <= t <= hi && t % step == 0
  {
    InWindow(lo, hi, step, i);
  }

  /** Of a merge of any points, all there is to say about its i-th. */
  lemma MergedOver(kind: Kind, step: int, lo: int, hi: int, oldest: int, items: seq<GraphItem>, datas: seq<RRDData>,
                   i: nat, t: int, v: Val)
    requires step > 0 && lo % step == 0 && hi - lo - step >= 1 && lo >= oldest && items != [] && t == lo + i * step
    requires QueryMeaning.MergeReady(kind, items, datas, step, lo, hi)
    requires i < QueryMerge.ResultSize(kind, step, lo, hi) ==> QueryMerge.PointAt(datas, |datas|, t) == v
    ensures var ret := Answer(kind, step, lo, hi, oldest, items, datas);
            && |ret| == QueryMerge.ResultSize(kind, step, lo, hi)
            && (i < |ret| ==>
                  ret[i] == RRDData(t, QueryMerge.Prefer(QueryMerge.CachedAt(kind, items, |items|, step, t), v)))
  {
    if i < QueryMerge.ResultSize(kind, step, lo, hi) {
      SizeInWindow(kind, step, lo, hi, i, t);
      MergedShows(kind, step, lo, hi, oldest, items, datas, i, t, v);
    }
  }

  /** The old node's part of it, when something is cached there. */
  lemma RemoteOfCached(kind: Kind, step: int, lo: int, hi: int, oldest: int, oldOldest: int,
                       items: seq<GraphItem>, oldItems: seq<GraphItem>, oldDatas: seq<RRDData>, i: nat, t: int)
    requires step > 0 && lo % step == 0 && hi - lo - step >= 1 && lo >= oldest && lo >= oldOldest && t == lo + i * step
    requires items != [] && QueryMeaning.SortedAligned(items, step)
    requires oldItems != [] && QueryMeaning.MergeReady(kind, oldItems, oldDatas, step, lo, hi)
    ensures var remote := Answer(kind, step, lo, hi, oldOldest, oldItems, oldDatas);
            && QueryMeaning.MergeReady(kind, items, remote, step, lo, hi)
            && (i < QueryMerge.ResultSize(kind, step, lo, hi) ==>
                  QueryMerge.PointAt(remote, |remote|, t) == QueryMeaning.Pointwise(kind, oldItems, oldDatas, step, t))
  {
    AnswerMergeReady(kind, step, lo, hi, oldOldest, items, oldItems, oldDatas);
    AnswerSize(kind, step, lo, hi, oldOldest, oldItems, oldDatas);
    AnswerShows(kind, step, lo, hi, oldOldest, oldItems, oldDatas, i, t);
  }

  /** With nothing cached there the answer is the file's points. */
  lemma RemoteOfFile(kind: Kind, step: int, lo: int, hi: int, oldOldest: int, oldDatas: seq<RRDData>, t: int)
    requires step > 0 && hi - lo - step >= 1
    ensures Answer(kind, step, lo, hi, oldOldest, [], oldDatas) == oldDatas
    ensures QueryMeaning.Pointwise(kind, [], oldDatas, step, t) == QueryMerge.PointAt(oldDatas, |oldDatas|, t)
  {
  }

  /**
   While MISS is set, what a query takes for disk points is the answer of the old node. Each returned point is then the
   new node's cached value unless NaN, else what the old node has cached unless NaN, else what its file says.
   */
  lemma RemoteAnswerIsPointwise(kind: Kind, step: int, lo: int, hi: int, oldest: int, oldOldest: int,
                                items: seq<GraphItem>, oldItems: seq<GraphItem>, oldDatas: seq<RRDData>,
                                i: nat, t: int)
    requires step > 0 && lo % step == 0 && hi - lo - step >= 1 && lo >= oldest && lo >= oldOldest && t == lo + i * step
    requires items != [] && QueryMeaning.SortedAligned(items, step)
    requires QueryMeaning.MergeReady(kind, if oldItems == [] then items else oldItems, oldDatas, step, lo, hi)
    ensures var remote := Answer(kind, step, lo, hi, oldOldest, oldItems, oldDatas);
            var ret := Answer(kind, step, lo, hi, oldest, items, remote);
            && |ret| == (hi - lo) / step + (if kind == Gauge then 1 else 0)
            && (i < |ret| ==> ret[i] == RRDData(t,
                  QueryMerge.Prefer(QueryMerge.CachedAt(kind, items, |items|, step, t),
                                    QueryMeaning.Pointwise(kind, oldItems, oldDatas, step, t))))
  {
    var remote := Answer(kind, step, lo, hi, oldOldest, oldItems, oldDatas);
    if oldItems == [] {
      RemoteOfFile(kind, step, lo, hi, oldOldest, oldDatas, t);
    } else {
      RemoteOfCached(kind, step, lo, hi, oldest, oldOldest, items, oldItems, oldDatas, i, t);
    }
    MergedOver(kind, step, lo, hi, oldest, items, remote, i, t,
               QueryMeaning.Pointwise(kind, oldItems, oldDatas, step, t));
  }

  /** The condition on the old node is met by points it fetched from its file at the base resolution. */
  lemma FetchedThere(kind: Kind, step: int, lo: int, hi: int, items: seq<GraphItem>, oldItems: seq<GraphItem>,
                     values: seq<Val>)
    requires step > 0 && lo % step == 0 && items != [] && QueryMeaning.SortedAligned(items, step)
    requires QueryMeaning.SortedAligned(oldItems, step)
    ensures QueryMeaning.MergeReady(kind, if oldItems == [] then items else oldItems,
                                    QueryMerge.FetchedPoints(lo - step, step, values), step, lo, hi)
  {
    QueryMeaning.FetchedMergeReady(kind, if oldItems == [] then items else oldItems, values, step, lo, hi);
  }
}
