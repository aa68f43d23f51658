/**
 The net worker of modules/graph/rrdtool/migrate.go as code: send_data, fetch_rrd and the tasks that call them, each
 run with nothing else touching the store meanwhile.
 */
module NetWorker {
  import opened Model
  import Flat = FlatStore
  import opened Store
  import opened Rrdtool
  import opened SeriesKeys

  type Items = seq<GraphItem>

  /**
   What one RPC comes to: whether it reached the old node, whether the answer came back without an error, and
   whether the old node's disk worked.
   */
  datatype Outcome = Outcome(delivered: bool, ok: bool, diskOk: bool)

  const TRIES := 3

  predicate Succeeds(o: Outcome) {
    o.delivered && o.ok
  }

  /** The first try from i on that succeeds, or TRIES. */
  function FirstOk(calls: seq<Outcome>, i: nat): (n: nat)
    requires |calls| == TRIES && i <= TRIES
    ensures i <= n <= TRIES && (n < TRIES ==> Succeeds(calls[n])) && forall j :: i <= j < n ==> !Succeeds(calls[j])
    decreases TRIES - i
  {
    if i == TRIES || Succeeds(calls[i]) then i else FirstOk(calls, i + 1)
  }

  /** The number of tries made, counting from the start of the list, when the first i failed. */
  function Made(calls: seq<Outcome>, i: nat): (n: nat)
    requires |calls| == TRIES && i <= TRIES
    ensures n <= TRIES
  {
    if FirstOk(calls, i) < TRIES then FirstOk(calls, i) + 1 else TRIES
  }

  lemma MadeNext(calls: seq<Outcome>, i: nat)
    requires |calls| == TRIES && i < TRIES
    ensures Made(calls, i) == if Succeeds(calls[i]) || i + 1 == TRIES then i + 1 else Made(calls, i + 1)
    ensures FirstOk(calls, i) == if Succeeds(calls[i]) then i else FirstOk(calls, i + 1)
    ensures FirstOk(calls, TRIES) == TRIES
  {
  }

  predicate Sent(calls: seq<Outcome>)
    requires |calls| == TRIES
  {
    FirstOk(calls, 0) < TRIES
  }

  /** The copies of a batch that the first n tries bring to the old node. */
  function Copies(calls: seq<Outcome>, n: nat, items: Items): seq<Items>
    requires n <= |calls|
  {
    if n == 0 then []
    else Copies(calls, n - 1, items) + if calls[n - 1].delivered then [items] else []
  }

  /** All that arrives: copies up to the first success, none for an empty batch. */
  function Arrived(calls: seq<Outcome>, items: Items): seq<Items>
    requires |calls| == TRIES
  {
    if items == [] then [] else Copies(calls, Made(calls, 0), items)
  }

  /** The first answer with a file. */
  function FirstFile(answers: seq<Option<Items>>): Option<Items> {
    if answers == [] then None else if answers[0].Some? then answers[0] else FirstFile(answers[1..])
  }

  /** Nothing is left to send: the list was empty, or a call brought it across. */
  predicate SendsAll(m: Flat.FlatMap, key: string, calls: seq<Outcome>)
    requires |calls| == TRIES
  {
    Flat.FetchAll(m, key).0 == [] || Sent(calls)
  }

  /** A file came, and could be written. */
  predicate Writes(got: Option<Items>, exists_: bool, diskOk: bool) {
    got.Some? && !exists_ && diskOk
  }

  /** What a send leaves of a series. */
  function AfterSend(e: Flat.Entry, sent: bool): Flat.Entry {
    Flat.Entry(if sent then [] else e.items, Flat.ClearSending(e.flag))
  }

  /** What a fetch leaves of a series; without a file anywhere its list is committed. */
  function AfterFetch(e: Flat.Entry, ok: bool, notExist: bool): Flat.Entry {
    if ok then e.(flag := Flat.ClearFetching(Flat.ClearMiss(e.flag)))
    else if notExist then Flat.Entry([], 0)
    else e.(flag := Flat.ClearFetching(e.flag))
  }

  /** One series with a new flag word, its list kept or emptied. */
  function Left(m: Flat.FlatMap, key: string, kept: bool, flag: bv32): Flat.FlatMap {
    if key in m then m[key := Flat.Entry(if kept then m[key].items else [], flag)] else m
  }

  lemma LeftAfter(m: Flat.FlatMap, key: string, kept: bool, mark: bv32, flag: bv32)
    ensures var marked := Flat.SetFlag(m, key, mark);
            Flat.SetFlag(if kept then marked else Flat.Emptied(marked, key), key, flag) == Left(m, key, kept, flag)
  {
  }

  /** A popped list that is put back is the list it was. */
  lemma PutBack(m: Flat.FlatMap, key: string)
    requires key in m
    ensures Flat.PushAll(Flat.Emptied(m, key), key, Flat.Reverse(m[key].items)) == m
    ensures m[key].items == [] ==> Flat.Emptied(m, key) == m
  {
    var items := m[key].items;
    assert [] + Flat.Reverse(Flat.Reverse(items)) == items;
    assert m[key].(items := items) == m[key];
  }

  class Worker {
    const rrd: RrdTool
    const store: GraphItemMap
    /** The batches that reached the old node, and the files fetched from it. */
    var Peer: seq<Items>
    var Fetched: map<string, Items>

    constructor (rrd: RrdTool)
      ensures this.rrd == rrd && store == rrd.store && Peer == [] && Fetched == map[]
    {
      this.rrd, store := rrd, rrd.store;
      Peer, Fetched := [], map[];
    }

    ghost predicate Valid()
      reads store, store.Lists
    {
      store.Valid() && store == rrd.store
    }

    /** send_data: a batch that three calls do not bring across goes back where it was. */
    method SendData(key: string, calls: seq<Outcome>) returns (ok: bool)
      requires Valid() && |calls| == TRIES
      modifies this`Peer, store`Contents, store.Lists
      ensures Valid() && ok == (key in old(store.Contents) && SendsAll(old(store.Contents), key, calls))
      ensures store.Contents == Left(old(store.Contents), key, !ok,
                                     Flat.ClearSending(Flat.FetchAll(old(store.Contents), key).1))
      ensures key in old(store.Contents) ==>
                store.Contents[key] == AfterSend(old(store.Contents)[key], Sent(calls))
      ensures Peer == old(Peer) + Arrived(calls, Flat.FetchAll(old(store.Contents), key).0)
    {
      var flag, found := store.GetFlag(key);
      if !found {
        return false;
      }
      ok := SendMarked(key, flag | Flat.GRAPH_F_SENDING, Flat.ClearSending(flag), calls);
    }

    /** migrate.go:272-298, with the flag word to show meanwhile and the one to leave. */
    method SendMarked(key: string, mark: bv32, after: bv32, calls: seq<Outcome>) returns (ok: bool)
      requires Valid() && |calls| == TRIES && key in store.Contents
      modifies this`Peer, store`Contents, store.Lists
      ensures Valid() && ok == SendsAll(old(store.Contents), key, calls)
      ensures store.Contents == Left(old(store.Contents), key, !ok, after)
      ensures Peer == old(Peer) + Arrived(calls, Flat.FetchAll(old(store.Contents), key).0)
    {
      LeftAfter(store.Contents, key, true, mark, after);
      LeftAfter(store.Contents, key, false, mark, after);
      var _ := store.SetFlag(key, mark);
      ok := SendPopped(key, calls);
      var _ := store.SetFlag(key, after);
    }

    /** migrate.go:274-293: pop, send, and restore what did not get across. */
    method SendPopped(key: string, calls: seq<Outcome>) returns (ok: bool)
      requires Valid() && |calls| == TRIES && key in store.Contents
      modifies this`Peer, store`Contents, store.Lists
      ensures Valid() && ok == SendsAll(old(store.Contents), key, calls)
      ensures store.Contents == if ok then Flat.Emptied(old(store.Contents), key) else old(store.Contents)
      ensures Peer == old(Peer) + Arrived(calls, Flat.FetchAll(old(store.Contents), key).0)
    {
      PutBack(store.Contents, key);
      var items := store.PopAll(key);
      if |items| == 0 {
        return true;
      }
      ok := CallSend(items, calls);
      if !ok {
        var _ := store.PushAll(key, items);
      }
    }

    /** The loop of migrate.go:281-291. */
    method CallSend(items: Items, calls: seq<Outcome>) returns (ok: bool)
      requires |calls| == TRIES && items != []
      modifies this`Peer
      ensures ok == Sent(calls) && Peer == old(Peer) + Arrived(calls, items)
    {
      for i := 0 to TRIES
        invariant FirstOk(calls, i) == FirstOk(calls, 0)
        invariant Peer == old(Peer) + Copies(calls, i, items)
      {
        if calls[i].delivered {
          Peer := Peer + [items];
        }
        assert Peer == old(Peer) + Copies(calls, i + 1, items);
        if calls[i].delivered && calls[i].ok {
          return true;
        }
      }
      return false;
    }

    /** fetch_rrd: exists_ says that the file is already there, which makes writing it an error. */
    method FetchRrd(key: string, answers: seq<Option<Items>>, exists_: bool, diskOk: bool) returns (ok: bool)
      requires Valid() && |answers| == TRIES
      modifies this`Fetched, store`Contents, store.Lists
      ensures Valid() && ok == (key in old(store.Contents) && Writes(FirstFile(answers), exists_, diskOk))
      ensures Fetched == if ok then old(Fetched)[key := FirstFile(answers).value] else old(Fetched)
      ensures var flag := Flat.FetchAll(old(store.Contents), key).1;
              store.Contents == Left(old(store.Contents), key, true,
                                     Flat.ClearFetching(if ok then Flat.ClearMiss(flag) else flag))
    {
      var flag, found := store.GetFlag(key);
      if !found {
        return false;
      }
      ok := FetchMarked(key, flag | Flat.GRAPH_F_FETCHING, Flat.ClearFetching(Flat.ClearMiss(flag)),
                        Flat.ClearFetching(flag), answers, exists_, diskOk);
    }

    /** migrate.go:315-353, with the flag words to leave after a fetch and after a failure. */
    method FetchMarked(key: string, mark: bv32, fetched: bv32, failed: bv32, answers: seq<Option<Items>>,
                       exists_: bool, diskOk: bool) returns (ok: bool)
      requires Valid() && |answers| == TRIES && key in store.Contents
      modifies this`Fetched, store`Contents, store.Lists
      ensures Valid() && ok == Writes(FirstFile(answers), exists_, diskOk)
      ensures Fetched == if ok then old(Fetched)[key := FirstFile(answers).value] else old(Fetched)
      ensures store.Contents == Left(old(store.Contents), key, true, if ok then fetched else failed)
    {
      LeftAfter(store.Contents, key, true, mark, fetched);
      LeftAfter(store.Contents, key, true, mark, failed);
      var _ := store.SetFlag(key, mark);
      ok := FetchFile(key, answers, exists_, diskOk);
      var _ := store.SetFlag(key, if ok then fetched else failed);
    }

    /** The loop of migrate.go:321-352. */
    method FetchFile(key: string, answers: seq<Option<Items>>, exists_: bool, diskOk: bool) returns (ok: bool)
      requires |answers| == TRIES
      modifies this`Fetched
      ensures ok == Writes(FirstFile(answers), exists_, diskOk)
      ensures Fetched == if ok then old(Fetched)[key := FirstFile(answers).value] else old(Fetched)
    {
      for i := 0 to TRIES
        invariant FirstFile(answers) == FirstFile(answers[i..]) && Fetched == old(Fetched)
      {
        assert answers[i..][1..] == answers[i + 1..];
        if answers[i].Some? {
          if exists_ || !diskOk {
            return false;
          }
          Fetched := Fetched[key := answers[i].value];
          return true;
        }
      }
      return false;
    }

    /**
     A PULL task of net_task_worker, migrate.go:177-204: busy says that the sweep takes too long; notExist, that the
     error of a failed fetch is one of a missing file.
     */
    method PullTask(key: string, busy: bool, calls: seq<Outcome>, answers: seq<Option<Items>>, exists_: bool,
                    diskOk: bool, notExist: bool)
      requires Valid() && |calls| == TRIES && |answers| == TRIES
      modifies this, rrd`FlushLog, store`Contents, store.Lists
      ensures Valid() && store.Contents.Keys == old(store.Contents).Keys
      ensures forall k :: k in old(store.Contents) && k != key ==> store.Contents[k] == old(store.Contents)[k]
      ensures key in old(store.Contents) ==>
                var e, e' := old(store.Contents)[key], store.Contents[key];
                var ok := Writes(FirstFile(answers), exists_, diskOk);
                if busy then
                  e' == AfterSend(e, Sent(calls))
                else if !ok && notExist then
                  Moved(key, e.(flag := 0), e', old(rrd.FlushLog), rrd.FlushLog, SplitRrdCacheKey(key).Some?)
                else e' == AfterFetch(e, ok, notExist)
    {
      if busy {
        var _ := SendData(key, calls);
        return;
      }
      var ok := FetchRrd(key, answers, exists_, diskOk);
      if !ok && notExist {
        var _ := store.SetFlag(key, 0);
        rrd.CommitByKey(key);
      }
    }
  }
}
