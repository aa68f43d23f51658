/** Flushing cached items to disk: modules/graph/rrdtool/rrdtool.go. */
module Rrdtool {
  import opened Model
  import opened SeriesKeys
  import Flat = FlatStore
  import opened Strings
  import opened Store

  const FLUSH_MIN_COUNT := 6
  const FLUSH_MAX_WAIT := 86400

  predicate ShouldFlush(e: Flat.Entry, now: int) {
    |e.items| >= FLUSH_MIN_COUNT || (e.items != [] && e.items[|e.items| - 1].timestamp <= now - FLUSH_MAX_WAIT)
  }

  /** A key whose data still sits on its old node is pulled, not written, unless the sweep is forced. */
  predicate Pulls(e: Flat.Entry, force: bool, migrate: bool) {
    !force && migrate && Flat.HasMiss(e.flag)
  }

  predicate Commits(key: string, e: Flat.Entry, force: bool, migrate: bool, now: int) {
    !Pulls(e, force, migrate) && (force || ShouldFlush(e, now)) && SplitRrdCacheKey(key).Some?
  }

  /** Per store key, all items handed to FlushFile for its file, in order. */
  type Log = map<string, seq<GraphItem>>

  function Handed(log: Log, key: string): seq<GraphItem> {
    if key in log then log[key] else []
  }

  /** One key before and after: either its list moved to the log, oldest first, or nothing changed. */
  ghost predicate Moved(key: string, e: Flat.Entry, e': Flat.Entry, log: Log, log': Log, commits: bool) {
    if commits then e' == e.(items := []) && Handed(log', key) == Handed(log, key) + Flat.Reverse(e.items)
    else e' == e && Handed(log', key) == Handed(log, key)
  }

  /** A sweep over the given keys, as a relation between the stores before and after. */
  ghost predicate Swept(m: Flat.FlatMap, log: Log, m': Flat.FlatMap, log': Log, keys: set<string>,
                        force: bool, migrate: bool, now: int)
  {
    && m'.Keys == m.Keys
    && (forall k :: k in m ==> Moved(k, m[k], m'[k], log, log', k in keys && Commits(k, m[k], force, migrate, now)))
    && (forall k :: k !in m ==> Handed(log', k) == Handed(log, k))
  }

  lemma SweptThen(m: Flat.FlatMap, log: Log, m1: Flat.FlatMap, log1: Log, m2: Flat.FlatMap, log2: Log,
                  k1: set<string>, k2: set<string>, force: bool, migrate: bool, now: int)
    requires Swept(m, log, m1, log1, k1, force, migrate, now) && Swept(m1, log1, m2, log2, k2, force, migrate, now)
    requires k1 !! k2
    ensures Swept(m, log, m2, log2, k1 + k2, force, migrate, now)
  {
    forall k | k in m
      ensures Moved(k, m[k], m2[k], log, log2, k in k1 + k2 && Commits(k, m[k], force, migrate, now))
    {
      assert Moved(k, m[k], m1[k], log, log1, k in k1 && Commits(k, m[k], force, migrate, now));
      assert Moved(k, m1[k], m2[k], log1, log2, k in k2 && Commits(k, m1[k], force, migrate, now));
    }
  }

  /** A pull of a key from the node that is to have it. */
  datatype Task = Task(node: string, key: string)

  /** What a forced sweep leaves behind is exactly the keys that cannot be taken apart. */
  ghost predicate AllHanded(m: Flat.FlatMap, log: Log, m': Flat.FlatMap, log': Log) {
    m'.Keys == m.Keys
    && forall k :: k in m ==>
         if SplitRrdCacheKey(k).Some?
         then m'[k].items == [] && Handed(log', k) == Handed(log, k) + Flat.Reverse(m[k].items)
         else m'[k] == m[k]
  }

  lemma ForcedEmpties(m: Flat.FlatMap, log: Log, m': Flat.FlatMap, log': Log, migrate: bool, now: int)
    requires Swept(m, log, m', log', m.Keys, true, migrate, now)
    ensures AllHanded(m, log, m', log')
  {
    forall k | k in m
      ensures if SplitRrdCacheKey(k).Some?
              then m'[k].items == [] && Handed(log', k) == Handed(log, k) + Flat.Reverse(m[k].items)
              else m'[k] == m[k]
    {
      assert Moved(k, m[k], m'[k], log, log', Commits(k, m[k], true, migrate, now));
    }
  }

  /** The consistent hash, which may fail: the node for a primary key. */
  type Ring = string -> Option<string>

  /** The task of a pull for a key: its newest item's primary key names the node. */
  ghost function TaskOf(ring: Ring, m: Flat.FlatMap, key: string): seq<Task> {
    match Flat.First(m, key)
    case None => []
    case Some(item) =>
      match ring(PkOf(item.endpoint, item.metric, item.tags))
      case None => []
      case Some(node) => [Task(node, key)]
  }

  /** The pull task a sweep queues for a key, if any. */
  ghost function Queues(ring: Ring, m: Flat.FlatMap, key: string, force: bool, migrate: bool): seq<Task>
    requires key in m
  {
    if Pulls(m[key], force, migrate) then TaskOf(ring, m, key) else []
  }

  ghost predicate Queued(ring: Ring, queued: seq<Task>, m: Flat.FlatMap, keys: set<string>, force: bool, migrate: bool) {
    && (forall t :: t in queued <==> t.key in m && t.key in keys && Queues(ring, m, t.key, force, migrate) == [t])
    && (forall i, j :: 0 <= i < j < |queued| ==> queued[i].key != queued[j].key)
  }

  lemma QueuedAdd(ring: Ring, queued: seq<Task>, m: Flat.FlatMap, keys: set<string>, key: string, force: bool,
                  migrate: bool)
    requires key in m && key !in keys && Queued(ring, queued, m, keys, force, migrate)
    ensures Queued(ring, queued + Queues(ring, m, key, force, migrate), m, keys + {key}, force, migrate)
  {
    var more := Queues(ring, m, key, force, migrate);
    forall i, j | 0 <= i < j < |queued + more| ensures (queued + more)[i].key != (queued + more)[j].key {
      assert queued[i] in queued;
    }
  }

  /** One of these keys is to be pulled and had its turn after the sweep had taken too long. */
  ghost predicate PullsLate(m: Flat.FlatMap, keys: set<string>, late: string -> bool, force: bool, migrate: bool) {
    exists k :: k in keys && k in m && Pulls(m[k], force, migrate) && late(k)
  }

  /** The stores a sweep changes. */
  datatype Disk = Disk(m: Flat.FlatMap, log: Log, tasks: seq<Task>, timeout: bool)

  /** What a sweep works under, and what it found. */
  datatype Sweep = Sweep(ring: Ring, late: string -> bool, force: bool, migrate: bool, now: int, was: Disk)

  /** These keys, and no others, have been treated, each once and by what the sweep found. */
  ghost predicate Done(s: Sweep, keys: set<string>, d: Disk) {
    && Swept(s.was.m, s.was.log, d.m, d.log, keys, s.force, s.migrate, s.now)
    && s.was.tasks <= d.tasks
    && Queued(s.ring, d.tasks[|s.was.tasks|..], s.was.m, keys, s.force, s.migrate)
    && d.timeout == PullsLate(s.was.m, keys, s.late, s.force, s.migrate)
  }

  /** The first i keys have been. */
  ghost predicate DoneTo(s: Sweep, keys: seq<string>, i: nat, d: Disk) {
    i <= |keys| && Done(s, Elements(keys[..i]), d)
  }

  lemma NoneDone(s: Sweep, keys: seq<string>)
    ensures DoneTo(s, keys, 0, s.was.(timeout := false))
  {
    assert Elements(keys[..0]) == {};
  }

  lemma AllDone(s: Sweep, keys: seq<string>, d: Disk)
    requires DoneTo(s, keys, |keys|, d)
    ensures Done(s, Elements(keys), d)
  {
    assert keys[..|keys|] == keys;
  }

  lemma NotYet(s: Sweep, keys: seq<string>, i: nat, d: Disk)
    requires DoneTo(s, keys, i, d) && i < |keys| && keys[i] in s.was.m
    requires forall j, k :: 0 <= j < k < |keys| ==> keys[j] != keys[k]
    ensures keys[i] in d.m && d.m[keys[i]] == s.was.m[keys[i]]
  {
    assert Moved(keys[i], s.was.m[keys[i]], d.m[keys[i]], s.was.log, d.log, false);
  }

  lemma DoneNext(s: Sweep, keys: seq<string>, i: nat, d: Disk, d': Disk)
    requires DoneTo(s, keys, i, d) && i < |keys| && keys[i] in s.was.m
    requires forall j, k :: 0 <= j < k < |keys| ==> keys[j] != keys[k]
    requires Swept(d.m, d.log, d'.m, d'.log, {keys[i]}, s.force, s.migrate, s.now)
    requires d'.tasks == d.tasks + Queues(s.ring, s.was.m, keys[i], s.force, s.migrate)
    requires d'.timeout == (d.timeout || (s.late(keys[i]) && Pulls(s.was.m[keys[i]], s.force, s.migrate)))
    ensures DoneTo(s, keys, i + 1, d')
  {
    DoneAdd(s, Elements(keys[..i]), d, keys[i], d');
    assert keys[..i + 1] == keys[..i] + [keys[i]];
    assert Elements(keys[..i + 1]) == Elements(keys[..i]) + {keys[i]};
  }

  lemma DoneAdd(s: Sweep, keys: set<string>, d: Disk, key: string, d': Disk)
    requires Done(s, keys, d) && key in s.was.m && key !in keys
    requires Swept(d.m, d.log, d'.m, d'.log, {key}, s.force, s.migrate, s.now)
    requires d'.tasks == d.tasks + Queues(s.ring, s.was.m, key, s.force, s.migrate)
    requires d'.timeout == (d.timeout || (s.late(key) && Pulls(s.was.m[key], s.force, s.migrate)))
    ensures Done(s, keys + {key}, d')
  {
    var n, more := |s.was.tasks|, Queues(s.ring, s.was.m, key, s.force, s.migrate);
    SweptThen(s.was.m, s.was.log, d.m, d.log, d'.m, d'.log, keys, {key}, s.force, s.migrate, s.now);
    QueuedAdd(s.ring, d.tasks[n..], s.was.m, keys, key, s.force, s.migrate);
    assert d'.tasks[n..] == d.tasks[n..] + more;
  }

  class RrdTool {
    const store: GraphItemMap
    const migrate: bool
    const ring: Ring
    var FlushLog: Log
    var PullTasks: seq<Task>
    /** flushrrd_timeout */
    var Timeout: bool

    constructor (store: GraphItemMap, migrate: bool, ring: Ring)
      ensures this.store == store && this.migrate == migrate && this.ring == ring
      ensures FlushLog == map[] && PullTasks == [] && !Timeout
    {
      this.store, this.migrate, this.ring := store, migrate, ring;
      FlushLog, PullTasks, Timeout := map[], [], false;
    }

    ghost predicate Valid()
      reads this, store, store.Lists
    {
      store.Valid()
    }

    /** Commits whatever the key holds, if the key can be taken apart. */
    method CommitByKey(key: string)
      requires Valid()
      modifies this`FlushLog, store`Contents, store.Lists
      ensures Valid() && store.Contents.Keys == old(store.Contents).Keys
      ensures forall k :: k in old(store.Contents) ==>
                Moved(k, old(store.Contents)[k], store.Contents[k], old(FlushLog), FlushLog,
                      k == key && SplitRrdCacheKey(key).Some?)
      ensures forall k :: k !in old(store.Contents) ==> Handed(FlushLog, k) == Handed(old(FlushLog), k)
    {
      if SplitRrdCacheKey(key).None? {
        return;
      }
      var items := store.PopAll(key);
      if |items| == 0 {
        return;
      }
      FlushLog := FlushLog[key := Handed(FlushLog, key) + items];
    }

    /** Queues a pull with the worker of the node; a key without items, or without a node, is left alone. */
    method PullByKey(key: string)
      requires Valid()
      modifies this`PullTasks
      ensures PullTasks == old(PullTasks) + TaskOf(ring, store.Contents, key)
    {
      var item := store.GetFirst(key);
      if item.None? {
        return;
      }
      var pk := PK(item.value.endpoint, item.value.metric, item.value.tags);
      var node := ring(pk);
      if node.None? {
        return;
      }
      PullTasks := PullTasks + [Task(node.value, key)];
    }

    method CheckFlush(key: string, now: int) returns (r: bool)
      requires Valid() && key in store.Contents
      ensures r == ShouldFlush(store.Contents[key], now)
    {
      var cnt := store.GetItemCnt(key);
      if cnt >= FLUSH_MIN_COUNT {
        return true;
      }
      var deadline := now - FLUSH_MAX_WAIT;
      var back := store.GetBack(key);
      if back.Some? && back.value.timestamp <= deadline {
        return true;
      }
      return false;
    }

    /** The body of FlushRRD's loop, rrdtool.go:301-313; late says that the sweep has taken too long by now. */
    method SweepKey(key: string, late: bool, force: bool, now: int)
      requires Valid() && key in store.Contents
      modifies this, store`Contents, store.Lists
      ensures Valid()
      ensures Timeout == (old(Timeout) || (late && Pulls(old(store.Contents)[key], force, migrate)))
      ensures Swept(old(store.Contents), old(FlushLog), store.Contents, FlushLog, {key}, force, migrate, now)
      ensures PullTasks == old(PullTasks) + Queues(ring, old(store.Contents), key, force, migrate)
    {
      var flag, _ := store.GetFlag(key);
      if force == false && migrate && flag & Flat.GRAPH_F_MISS != 0 {
        if late {
          Timeout := true;
        }
        PullByKey(key);
      } else {
        var due := CheckFlush(key, now);
        if force || due {
          CommitByKey(key);
        }
      }
    }

    ghost function State(): Disk
      reads this, store
    {
      Disk(store.Contents, FlushLog, PullTasks, Timeout)
    }

    /** One shard: every key in it is swept once, and no other key is touched; late says whose turn comes too late. */
    method FlushRRD(idx: nat, late: string -> bool, force: bool, now: int)
      requires Valid() && idx < store.Size
      modifies this, store`Contents, store.Lists
      ensures Valid()
      ensures Done(Sweep(ring, late, force, migrate, now, old(State())), Shard(old(store.Contents).Keys, idx), State())
    {
      ghost var sweep := Sweep(ring, late, force, migrate, now, State());
      Timeout := false;
      var keys := store.KeysByIndex(idx);
      NoneDone(sweep, keys);
      FlushKeys(keys, sweep, late, force, now);
      AllDone(sweep, keys, State());
      assert Elements(keys) == Shard(sweep.was.m.Keys, idx);
    }

    /** The loop of rrdtool.go:301-314. */
    method FlushKeys(keys: seq<string>, ghost sweep: Sweep, late: string -> bool, force: bool, now: int)
      requires Valid() && sweep == Sweep(ring, late, force, migrate, now, sweep.was) && DoneTo(sweep, keys, 0, State())
      requires forall i :: 0 <= i < |keys| ==> keys[i] in sweep.was.m
      requires forall i, j :: 0 <= i < j < |keys| ==> keys[i] != keys[j]
      modifies this, store`Contents, store.Lists
      ensures Valid() && DoneTo(sweep, keys, |keys|, State())
    {
      for i := 0 to |keys|
        invariant Valid() && DoneTo(sweep, keys, i, State())
      {
        SweepNext(keys, i, sweep, late, force, now);
      }
    }

    /** SweepKey as one step of a sweep that has done some keys already. */
    method SweepNext(keys: seq<string>, i: nat, ghost sweep: Sweep, late: string -> bool, force: bool, now: int)
      requires i < |keys| && keys[i] in sweep.was.m && forall j, k :: 0 <= j < k < |keys| ==> keys[j] != keys[k]
      requires Valid() && sweep == Sweep(ring, late, force, migrate, now, sweep.was) && DoneTo(sweep, keys, i, State())
      modifies this, store`Contents, store.Lists
      ensures Valid() && DoneTo(sweep, keys, i + 1, State())
    {
      ghost var d := State();
      NotYet(sweep, keys, i, d);
      SweepKey(keys[i], late(keys[i]), force, now);
      DoneNext(sweep, keys, i, d, State());
    }

    function Shard(keys: set<string>, idx: nat): set<string>
    {
      set k | k in keys && store.Idx(k) == idx
    }

    /** All shards. */
    method FlushAll(late: string -> bool, force: bool, now: int)
      requires Valid()
      modifies this, store`Contents, store.Lists
      ensures Valid()
      ensures Swept(old(store.Contents), old(FlushLog), store.Contents, FlushLog, old(store.Contents).Keys,
                    force, migrate, now)
      ensures force ==> AllHanded(old(store.Contents), old(FlushLog), store.Contents, FlushLog)
    {
      ghost var m, log := store.Contents, FlushLog;
      for i := 0 to store.Size
        invariant Valid()
        invariant Swept(m, log, store.Contents, FlushLog, Below(m.Keys, i), force, migrate, now)
      {
        ghost var m1, log1 := store.Contents, FlushLog;
        FlushRRD(i, late, force, now);
        SweptThen(m, log, m1, log1, store.Contents, FlushLog, Below(m.Keys, i), Shard(m.Keys, i), force, migrate, now);
        assert Below(m.Keys, i) + Shard(m.Keys, i) == Below(m.Keys, i + 1);
      }
      assert Below(m.Keys, store.Size) == m.Keys;
      if force { ForcedEmpties(m, log, store.Contents, FlushLog, migrate, now); }
    }

    function Below(keys: set<string>, n: nat): set<string>
    {
      set k | k in keys && store.Idx(k) < n
    }
  }
}
