/** The graph node's RPC entry points over its stores: modules/graph/api/graph.go. */
module Api {
  import opened Model
  import opened Arithmetic
  import opened SeriesKeys
  import Flat = FlatStore
  import opened Store
  import Index
  import History
  import opened Ingest
  import QueryMerge
  import QueryMeaning
  import Tags

  // ---------- the requested window ----------

  function WindowStart(start: int, step: int): int
    requires step > 0
  {
    start - GoMod(start, step)
  }

  function WindowEnd(end: int, step: int): int
    requires step > 0
  {
    end - GoMod(end, step) + step
  }

  lemma WindowAligned(t: int, step: int)
    requires step > 0
    ensures (t - GoMod(t, step)) % step == 0
  {
    if t >= 0 {
      DivUnique(t - t % step, step, t / step, 0);
    } else {
      var u := -t;
      assert t - GoMod(t, step) == -(u / step) * step;
      DivUnique(-(u / step) * step, step, -(u / step), 0);
    }
  }

  const RRA1_POINT_CNT := 720

  /** The start of the base-resolution archive. */
  function Rra1Start(now: int, step: int): int
    requires step > 0
  {
    now - GoMod(now, step) - RRA1_POINT_CNT * step
  }

  /**
   Everything Query answers for the aligned window [lo, hi], given the cached items, the disk or remote points, and
   the start of the base archive.
   */
  ghost function Answer(kind: Kind, step: int, lo: int, hi: int, oldest: int, items: seq<GraphItem>, datas: seq<RRDData>)
    : seq<RRDData>
    requires step > 0
  {
    if hi - lo - step < 1 then []
    else if lo < oldest || items == [] then datas
    else QueryMerge.Padded(QueryMerge.Merged(kind, items, datas, step, lo, hi), QueryMerge.ResultSize(kind, step, lo, hi),
                           step, lo)
  }

  lemma AnswerSize(kind: Kind, step: int, lo: int, hi: int, oldest: int, items: seq<GraphItem>, datas: seq<RRDData>)
    requires step > 0 && hi - lo - step >= 1 && lo >= oldest && items != []
    ensures |Answer(kind, step, lo, hi, oldest, items, datas)| == (hi - lo) / step + (if kind == Gauge then 1 else 0)
  {
  }

  /**
   What a query inside the base archive returns for a series with cached items: one point a step from the start
   of the window, each the cached value unless NaN, else the disk's, else NaN.
   */
  lemma AnswerIsPointwise(kind: Kind, step: int, lo: int, hi: int, oldest: int, items: seq<GraphItem>,
                          datas: seq<RRDData>, i: nat)
    requires step > 0 && lo % step == 0 && hi - lo - step >= 1 && lo >= oldest && items != []
    requires QueryMeaning.MergeReady(kind, items, datas, step, lo, hi)
    ensures var ret := Answer(kind, step, lo, hi, oldest, items, datas);
            && |ret| == (hi - lo) / step + (if kind == Gauge then 1 else 0)
            && (i < |ret| ==> ret[i] == RRDData(lo + i * step,
                                                QueryMeaning.Pointwise(kind, items, datas, step, lo + i * step)))
  {
    AnswerSize(kind, step, lo, hi, oldest, items, datas);
    if i < QueryMerge.ResultSize(kind, step, lo, hi) {
      InWindow(lo, hi, step, i);
      AnswerAt(kind, step, lo, hi, oldest, items, datas, i, lo + i * step);
    }
  }

  lemma AnswerAt(kind: Kind, step: int, lo: int, hi: int, oldest: int, items: seq<GraphItem>, datas: seq<RRDData>,
                 i: nat, t: int)
    requires step > 0 && lo % step == 0 && hi - lo - step >= 1 && lo >= oldest && items != []
    requires QueryMeaning.MergeReady(kind, items, datas, step, lo, hi)
    requires i < QueryMerge.ResultSize(kind, step, lo, hi) && t == lo + i * step && lo <= t <= hi && t % step == 0
    ensures i < |Answer(kind, step, lo, hi, oldest, items, datas)|
    ensures Answer(kind, step, lo, hi, oldest, items, datas)[i]
         == RRDData(t, QueryMeaning.Pointwise(kind, items, datas, step, t))
  {
    var m := QueryMerge.Merged(kind, items, datas, step, lo, hi);
    PaddedAt(m, QueryMerge.ResultSize(kind, step, lo, hi), step, lo, i, t);
    QueryMeaning.MergeIsPointwise(kind, items, datas, step, lo, hi, t);
  }

  lemma PaddedAt(m: seq<RRDData>, n: nat, step: int, lo: int, i: nat, t: int)
    requires step > 0 && i < n && t == lo + i * step
    ensures QueryMerge.Padded(m, n, step, lo)[i] == RRDData(t, QueryMeaning.ShownAt(m, step, lo, t))
  {
  }

  lemma InWindow(lo: int, hi: int, step: int, i: nat)
    requires step > 0 && lo % step == 0 && lo <= hi && i <= (hi - lo) / step
    ensures lo <= lo + i * step <= hi && (lo + i * step) % step == 0
  {
    var q := (hi - lo) / step;
    assert hi - lo == q * step + (hi - lo) % step;
    assert q * step == i * step + (q - i) * step;
    if q > i { MulAtLeast(q - i, step); }
    if i > 0 { MulAtLeast(i, step); }
    DivUnique(i * step, step, i, 0);
    ModAdd(lo, i * step, step);
  }

  // ---------- deletion ----------

  datatype DeleteParam = DeleteParam(endpoint: string, metric: string, tags: string, dsType: string, step: int)

  /** Without its index entries and its cached items. */
  ghost function Forgotten(s: State, sum: string, key: string): State {
    State(Flat.Emptied(s.items, key), Index.Caches(s.caches.indexed - {sum}, s.caches.unIndexed - {sum}), s.history)
  }

  ghost function Dropped(env: Env, s: State, endpoint: string, metric: string, tags: map<string, string>, dsType: string,
                         step: int): State
  {
    var sum := env.md5(PkOf(endpoint, metric, tags));
    Forgotten(s, sum, FormRrdCacheKey(sum, dsType, step))
  }

  ghost function DeletedOne(env: Env, s: State, param: DeleteParam): State {
    match Tags.SplitTags(param.tags)
    case None => s
    case Some(tags) => Dropped(env, s, param.endpoint, param.metric, tags, param.dsType, param.step)
  }

  /** The first n requests, in order. */
  ghost function Deleted(env: Env, s: State, params: seq<DeleteParam>, n: nat): State
    requires n <= |params|
  {
    if n == 0 then s else DeletedOne(env, Deleted(env, s, params, n - 1), params[n - 1])
  }

  /** The rrd files a request removes. */
  ghost function FilesOf(env: Env, param: DeleteParam): seq<string>
    requires WellFormed(env)
  {
    match Tags.SplitTags(param.tags)
    case None => []
    case Some(tags) =>
      [RrdFileName(env.storage, env.md5(PkOf(param.endpoint, param.metric, tags)), param.dsType, param.step)]
  }

  /** The files removed once the first n requests are done. */
  ghost function AlsoRemoved(env: Env, removed: seq<string>, params: seq<DeleteParam>, n: nat): seq<string>
    requires WellFormed(env) && n <= |params|
  {
    if n == 0 then removed else AlsoRemoved(env, removed, params, n - 1) + FilesOf(env, params[n - 1])
  }

  /** The first n requests have been done. */
  ghost predicate DeletedTo(env: Env, s: State, removed: seq<string>, params: seq<DeleteParam>, n: nat, s': State,
                            removed': seq<string>)
    requires WellFormed(env)
  {
    n <= |params| && s' == Deleted(env, s, params, n) && removed' == AlsoRemoved(env, removed, params, n)
  }

  lemma DeletedNext(env: Env, s: State, removed: seq<string>, params: seq<DeleteParam>, n: nat, s': State,
                    removed': seq<string>)
    requires WellFormed(env) && n < |params| && DeletedTo(env, s, removed, params, n, s', removed')
    ensures DeletedTo(env, s, removed, params, n + 1, DeletedOne(env, s', params[n]), removed' + FilesOf(env, params[n]))
  {
  }

  /** Every request keeps done. */
  ghost predicate Keeps(env: Env, params: seq<DeleteParam>, done: (nat, State, seq<string>) -> bool)
    requires WellFormed(env)
  {
    forall i: nat, s, removed {:trigger done(i, s, removed), DeletedOne(env, s, params[i])} ::
      i < |params| && done(i, s, removed) ==>
        done(i + 1, DeletedOne(env, s, params[i]), removed + FilesOf(env, params[i]))
  }

  /** A request that names an item by its own strings. */
  ghost function RequestFor(item: GraphItem): DeleteParam {
    DeleteParam(item.endpoint, item.metric, Tags.Printed(item.tags), item.dsType, item.step)
  }

  /**
   A request by an item's own printed tags drops just what receiving the item put there, if its tags are clean: the
   list under its key, its index entries and the file its key stands for; every other series keeps its own.
   */
  lemma DeleteFindsItem(env: Env, s: State, item: GraphItem)
    requires WellFormed(env) && Tags.Clean(item.tags)
    ensures var s', key, sum := DeletedOne(env, s, RequestFor(item)), KeyOf(env, item), Index.ChecksumOf(env.md5, item);
            && s'.items.Keys == s.items.Keys && (key in s'.items ==> s'.items[key].items == [])
            && (forall k :: k in s.items && k != key ==> s'.items[k] == s.items[k])
            && sum !in s'.caches.indexed && sum !in s'.caches.unIndexed
            && (forall m :: m in s.caches.indexed && m != sum ==>
                  m in s'.caches.indexed && s'.caches.indexed[m] == s.caches.indexed[m])
            && s'.history == s.history
            && FilesOf(env, RequestFor(item)) == [RrdFileName(env.storage, sum, item.dsType, item.step)]
  {
    Tags.PrintedParses(item.tags);
  }

  // ---------- the node ----------

  class Graph {
    const store: GraphItemMap
    const caches: Index.IndexCaches
    const history: History.HistoryCache
    const env: Env
    /** The rrd files that were removed, in order. */
    var RemovedFiles: seq<string>

    constructor (size: Positive, hashKey: string -> nat, env: Env)
      requires WellFormed(env)
      ensures Valid() && this.env == env && Stores() == State(map[], Index.Caches(map[], map[]), map[])
      ensures fresh(store) && fresh(store.Lists) && fresh(caches) && fresh(history) && RemovedFiles == []
    {
      store := new GraphItemMap(size, hashKey);
      caches := new Index.IndexCaches();
      history := new History.HistoryCache();
      this.env := env;
      RemovedFiles := [];
    }

    ghost predicate Valid()
      reads this, store, store.Lists, history
    {
      store.Valid() && history.Valid() && WellFormed(env)
    }

    /** All that the node remembers, as a value. */
    ghost function Stores(): State
      reads store, caches, history
    {
      State(store.Contents, caches.State(), history.Lists)
    }

    /** The body of handleItems' loop, graph.go:86-127. */
    method HandleItem(item: GraphItem)
      requires Valid()
      modifies store, store.Lists, caches, history
      ensures Valid() && fresh(store.Lists - old(store.Lists))
      ensures Stores() == One(env, old(Stores()), item)
    {
      if !IsValidString(item.endpoint, env.isPrint) {
        return;
      }
      var counter := Counter(item.metric, item.tags);
      if !IsValidString(counter, env.isPrint) {
        return;
      }
      var pk := PK(item.endpoint, item.metric, item.tags);
      var checksum := env.md5(pk);
      var key := FormRrdCacheKey(checksum, item.dsType, item.step);
      var first := store.GetFirst(key);
      if first.Some? && item.timestamp <= first.value.timestamp {
        return;
      }
      var hasFile := env.fileExists(RrdFileName(env.storage, checksum, item.dsType, item.step));
      Accept(item, checksum, key, hasFile);
    }

    /** To graph, to index, to history: graph.go:121-127. */
    method Accept(item: GraphItem, checksum: string, key: string, hasFile: bool)
      requires Valid()
      modifies store, store.Lists, caches, history
      ensures Valid() && fresh(store.Lists - old(store.Lists))
      ensures Stores() == Taken(old(Stores()), key, checksum, item, env.migrate && !hasFile, hasFile)
    {
      store.PushFront(key, item, env.migrate && !hasFile);
      Record(item, checksum, hasFile);
    }

    /** To index, to history: graph.go:124-127. */
    method Record(item: GraphItem, checksum: string, hasFile: bool)
      requires history.Valid()
      modifies caches, history
      ensures history.Valid() && history.Lists == History.AddTo(old(history.Lists), checksum, item)
      ensures caches.State() == Index.Receive(old(caches.State()), checksum, item, hasFile)
    {
      caches.ReceiveItem(item, checksum, hasFile);
      history.AddItem(checksum, item);
    }

    method HandleItems(items: seq<Option<GraphItem>>)
      requires Valid()
      modifies store, store.Lists, caches, history
      ensures Valid() && fresh(store.Lists - old(store.Lists))
      ensures Stores() == Batch(env, old(Stores()), items, |items|)
    {
      for i := 0 to |items|
        invariant Valid() && fresh(store.Lists - old(store.Lists))
        invariant Stores() == Batch(env, old(Stores()), items, i)
      {
        if items[i].Some? {
          HandleItem(items[i].value);
        }
      }
    }

    /** What remains of a removed series: its history, and a store entry with an empty list. */
    method RemoveItem(endpoint: string, metric: string, tags: map<string, string>, dsType: string, step: int)
      requires Valid()
      modifies this`RemovedFiles, store`Contents, store.Lists, caches
      ensures Valid()
      ensures Stores() == Dropped(env, old(Stores()), endpoint, metric, tags, dsType, step)
      ensures RemovedFiles
           == old(RemovedFiles) + [RrdFileName(env.storage, env.md5(PkOf(endpoint, metric, tags)), dsType, step)]
    {
      var pk := PK(endpoint, metric, tags);
      var checksum := env.md5(pk);
      Forget(checksum, FormRrdCacheKey(checksum, dsType, step));
      RemovedFiles := RemovedFiles + [RrdFileName(env.storage, checksum, dsType, step)];
    }

    /** index.go:66-73. */
    method Forget(checksum: string, key: string)
      requires Valid()
      modifies store`Contents, store.Lists, caches
      ensures Valid()
      ensures Stores() == Forgotten(old(Stores()), checksum, key)
    {
      caches.Discard(checksum);
      var _ := store.PopAll(key);
    }

    /** A request whose tags the strict parser refuses is skipped. */
    method DeleteOne(param: DeleteParam)
      requires Valid()
      modifies this`RemovedFiles, store`Contents, store.Lists, caches
      ensures Valid()
      ensures Stores() == DeletedOne(env, old(Stores()), param)
      ensures RemovedFiles == old(RemovedFiles) + FilesOf(env, param)
    {
      var tags := Tags.SplitTagsString(param.tags);
      if tags.Some? {
        RemoveItem(param.endpoint, param.metric, tags.value, param.dsType, param.step);
      }
    }

    method Delete(params: seq<DeleteParam>)
      requires Valid()
      modifies this`RemovedFiles, store`Contents, store.Lists, caches
      ensures Valid()
      ensures Stores() == Deleted(env, old(Stores()), params, |params|)
      ensures RemovedFiles == AlsoRemoved(env, old(RemovedFiles), params, |params|)
    {
      ghost var s, removed := Stores(), RemovedFiles;
      ghost var done := (i: nat, s': State, removed': seq<string>) =>
        DeletedTo(env, s, removed, params, i, s', removed');
      forall i: nat, s', removed' | i < |params| && done(i, s', removed')
        ensures done(i + 1, DeletedOne(env, s', params[i]), removed' + FilesOf(env, params[i]))
      {
        DeletedNext(env, s, removed, params, i, s', removed');
      }
      DeleteAll(params, done);
    }

    /** The loop of graph.go:326-342, for whatever holds at its start and stays with every request. */
    method DeleteAll(params: seq<DeleteParam>, ghost done: (nat, State, seq<string>) -> bool)
      requires Valid() && done(0, Stores(), RemovedFiles) && Keeps(env, params, done)
      modifies this`RemovedFiles, store`Contents, store.Lists, caches
      ensures Valid() && done(|params|, Stores(), RemovedFiles)
    {
      for i := 0 to |params|
        invariant Valid() && done(i, Stores(), RemovedFiles)
      {
        DeleteNext(params, i, done);
      }
    }

    method DeleteNext(params: seq<DeleteParam>, i: nat, ghost done: (nat, State, seq<string>) -> bool)
      requires Valid() && i < |params| && done(i, Stores(), RemovedFiles) && Keeps(env, params, done)
      modifies this`RemovedFiles, store`Contents, store.Lists, caches
      ensures Valid() && done(i + 1, Stores(), RemovedFiles)
    {
      DeleteOne(params[i]);
    }

    /**
     disk stands for the points an rrd fetch returns, remote for the answer of the node that still has the file;
     db for the database behind the index cache.
     */
    method Query(endpoint: string, counter: string, start: int, end: int, db: Option<(string, int)>,
                 disk: seq<RRDData>, remote: seq<RRDData>, now: int) returns (values: seq<RRDData>)
      requires Valid()
      requires var ts := Index.TypeAndStep(caches.Indexed, env.md5, endpoint, counter, db); ts.Some? ==> ts.value.1 > 0
      ensures match Index.TypeAndStep(caches.Indexed, env.md5, endpoint, counter, db)
              case None => values == []
              case Some((dsType, step)) =>
                var key := FormRrdCacheKey(env.md5(endpoint + "/" + counter), dsType, step);
                var (items, flag) := Flat.FetchAll(store.Contents, key);
                values == Answer(KindOf(dsType), step, WindowStart(start, step), WindowEnd(end, step),
                                 Rra1Start(now, step), items,
                                 if env.migrate && Flat.HasMiss(flag) then remote else disk)
    {
      values := [];
      var typeAndStep := caches.GetTypeAndStep(env.md5, endpoint, counter, db);
      if typeAndStep.None? {
        return;
      }
      var (dsType, step) := typeAndStep.value;
      var md5 := env.md5(endpoint + "/" + counter);
      var key := FormRrdCacheKey(md5, dsType, step);
      values := QueryWindow(key, KindOf(dsType), step, WindowStart(start, step), WindowEnd(end, step),
                            Rra1Start(now, step), disk, remote);
    }

    /** graph.go:155-187 and 193-314. */
    method QueryWindow(key: string, kind: Kind, step: int, startTs: int, endTs: int, rra1StartTs: int,
                       disk: seq<RRDData>, remote: seq<RRDData>) returns (values: seq<RRDData>)
      requires Valid() && step > 0
      ensures values == Answer(kind, step, startTs, endTs, rra1StartTs, Flat.FetchAll(store.Contents, key).0,
                               if env.migrate && Flat.HasMiss(Flat.FetchAll(store.Contents, key).1) then remote else disk)
    {
      if endTs - startTs - step < 1 {
        return [];
      }
      var items, flag := store.FetchAll(key);
      var datas := if env.migrate && flag & Flat.GRAPH_F_MISS != 0 then remote else disk;
      if startTs < rra1StartTs {
        return datas;
      }
      if |items| < 1 {
        return datas;
      }
      values := QueryMerge.Merge(kind, items, datas, step, startTs, endTs);
    }

    /** The newest rate of a counter or the newest value of a gauge; a zero timestamp means there is none. */
    method GetLast(endpoint: string, counter: string, db: Option<(string, int)>) returns (r: RRDData)
      requires Valid()
      requires var ts := Index.TypeAndStep(caches.Indexed, env.md5, endpoint, counter, db); ts.Some? ==> ts.value.1 > 0
      ensures var all := var md5 := env.md5(endpoint + "/" + counter);
                         if md5 in history.Lists then history.Lists[md5] else [];
              r == match Index.TypeAndStep(caches.Indexed, env.md5, endpoint, counter, db)
                   case None => History.NO_DATA
                   case Some((dsType, step)) =>
                     match KindOf(dsType)
                     case Gauge => if all == [] then History.NO_DATA else RRDData(all[0].timestamp, all[0].value)
                     case Rate => History.RateOfHistory(all, step)
                     case Unknown => History.NO_DATA
    {
      var typeAndStep := caches.GetTypeAndStep(env.md5, endpoint, counter, db);
      if typeAndStep.None? {
        return History.NO_DATA;
      }
      var (dsType, step) := typeAndStep.value;
      var md5 := env.md5(endpoint + "/" + counter);
      var items := history.GetAllItems(md5);
      if KindOf(dsType) == Gauge {
        r := if |items| == 0 then History.NO_DATA else RRDData(items[0].timestamp, items[0].value);
      } else if KindOf(dsType) == Rate {
        r := History.LastRate(items, step);
      } else {
        r := History.NO_DATA;
      }
    }
  }
}
