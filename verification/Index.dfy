/** The index caches: modules/graph/index/index.go, cache.go and the loop of index_update_incr_task.go. */
module Index {
  import opened Model
  import opened SeriesKeys

  datatype IndexCacheItem = IndexCacheItem(uuid: string, item: GraphItem)

  type Cache = map<string, IndexCacheItem>

  datatype Caches = Caches(indexed: Cache, unIndexed: Cache)

  ghost function ChecksumOf(md5: string -> string, item: GraphItem): string {
    md5(PkOf(item.endpoint, item.metric, item.tags))
  }

  ghost function ItemUuid(item: GraphItem): string {
    UuidOf(item.endpoint, item.metric, item.tags, item.dsType, item.step)
  }

  ghost function Entry(item: GraphItem): IndexCacheItem {
    IndexCacheItem(ItemUuid(item), item)
  }

  /** What ReceiveItem does to the two caches; fileExists says whether the series has an rrd file. */
  ghost function Receive(c: Caches, md5: string, item: GraphItem, fileExists: bool): Caches {
    if (if md5 in c.indexed then c.indexed[md5].uuid == ItemUuid(item) else fileExists)
    then c.(indexed := c.indexed[md5 := Entry(item)])
    else c.(unIndexed := c.unIndexed[md5 := Entry(item)])
  }

  /** Every entry sits under its item's checksum and carries its item's UUID. */
  ghost predicate Matching(md5: string -> string, c: Cache) {
    forall k :: k in c ==> k == ChecksumOf(md5, c[k].item) && c[k] == Entry(c[k].item)
  }

  /** The entries of u under the given keys whose database update succeeds. */
  function Promoted(u: Cache, keys: set<string>, dbOk: GraphItem -> bool): Cache {
    map k | k in u && k in keys && dbOk(u[k].item) :: u[k]
  }

  lemma PromotedAdd(c: Cache, u: Cache, keys: set<string>, k: string, dbOk: GraphItem -> bool)
    requires k in u && k !in keys
    ensures c + Promoted(u, keys + {k}, dbOk)
         == if dbOk(u[k].item) then (c + Promoted(u, keys, dbOk))[k := u[k]] else c + Promoted(u, keys, dbOk)
  {
  }

  class IndexCaches {
    var Indexed: Cache
    var UnIndexed: Cache

    constructor ()
      ensures Indexed == map[] && UnIndexed == map[]
    {
      Indexed, UnIndexed := map[], map[];
    }

    ghost function State(): Caches
      reads this
    {
      Caches(Indexed, UnIndexed)
    }

    method ReceiveItem(item: GraphItem, md5: string, fileExists: bool)
      modifies this
      ensures State() == Receive(old(State()), md5, item, fileExists)
    {
      var uuid := UUID(item.endpoint, item.metric, item.tags, item.dsType, item.step);
      if md5 in Indexed {
        var old_ := Indexed[md5];
        if uuid == old_.uuid {
          Indexed := Indexed[md5 := IndexCacheItem(uuid, item)];
        } else {
          UnIndexed := UnIndexed[md5 := IndexCacheItem(uuid, item)];
        }
        return;
      }
      if fileExists {
        Indexed := Indexed[md5 := IndexCacheItem(uuid, item)];
        return;
      }
      UnIndexed := UnIndexed[md5 := IndexCacheItem(uuid, item)];
    }

    /** One incremental update; dbOk says for which items the MySQL statements succeed. */
    method UpdateIndexIncr(dbOk: GraphItem -> bool)
      modifies this
      ensures UnIndexed == map[]
      ensures Indexed == old(Indexed) + Promoted(old(UnIndexed), old(UnIndexed).Keys, dbOk)
    {
      var keys := UnIndexed.Keys;
      ghost var todo := UnIndexed;
      while keys != {}
        invariant keys <= todo.Keys && UnIndexed.Keys == keys && forall k :: k in keys ==> UnIndexed[k] == todo[k]
        invariant Indexed == old(Indexed) + Promoted(todo, todo.Keys - keys, dbOk)
        decreases keys
      {
        var key :| key in keys;
        var icitem := UnIndexed[key];
        PromotedAdd(old(Indexed), todo, todo.Keys - keys, key, dbOk);
        assert todo.Keys - keys + {key} == todo.Keys - (keys - {key});
        UnIndexed := UnIndexed - {key};
        if dbOk(icitem.item) {
          Indexed := Indexed[key := icitem];
        }
        keys := keys - {key};
      }
      assert todo.Keys - {} == todo.Keys;
    }

    method Discard(md5: string)
      modifies this
      ensures Indexed == old(Indexed) - {md5} && UnIndexed == old(UnIndexed) - {md5}
    {
      Indexed := Indexed - {md5};
      UnIndexed := UnIndexed - {md5};
    }

    /** db stands for the two MySQL lookups behind the timed caches. */
    method GetTypeAndStep(md5: string -> string, endpoint: string, counter: string, db: Option<(string, int)>)
      returns (r: Option<(string, int)>)
      ensures r == TypeAndStep(Indexed, md5, endpoint, counter, db)
    {
      var pk := md5(endpoint + "/" + counter);
      if pk in Indexed {
        return Some((Indexed[pk].item.dsType, Indexed[pk].item.step));
      }
      return db;
    }
  }

  function TypeAndStep(indexed: Cache, md5: string -> string, endpoint: string, counter: string,
                       db: Option<(string, int)>): Option<(string, int)> {
    var pk := md5(endpoint + "/" + counter);
    if pk in indexed then Some((indexed[pk].item.dsType, indexed[pk].item.step)) else db
  }

  // ---------- the caches stay consistent, and reads find what was written ----------

  lemma ReceiveMatching(md5: string -> string, c: Caches, item: GraphItem, fileExists: bool)
    requires Matching(md5, c.indexed) && Matching(md5, c.unIndexed)
    ensures var c' := Receive(c, ChecksumOf(md5, item), item, fileExists);
            Matching(md5, c'.indexed) && Matching(md5, c'.unIndexed)
  {
  }

  lemma UpdateMatching(md5: string -> string, indexed: Cache, unIndexed: Cache, dbOk: GraphItem -> bool)
    requires Matching(md5, indexed) && Matching(md5, unIndexed)
    ensures Matching(md5, indexed + Promoted(unIndexed, unIndexed.Keys, dbOk))
  {
  }

  /** The store key handleItems writes an item under. */
  ghost function WriteKey(md5: string -> string, item: GraphItem): string {
    FormRrdCacheKey(ChecksumOf(md5, item), item.dsType, item.step)
  }

  /** The store key Query reads for an endpoint and a counter. */
  ghost function ReadKey(indexed: Cache, md5: string -> string, endpoint: string, counter: string,
                         db: Option<(string, int)>): Option<string> {
    match TypeAndStep(indexed, md5, endpoint, counter, db)
    case None => None
    case Some((dsType, step)) => Some(FormRrdCacheKey(md5(endpoint + "/" + counter), dsType, step))
  }

  /** md5 is taken to be injective. */
  ghost predicate Injective(md5: string -> string) {
    forall a, b :: md5(a) == md5(b) ==> a == b
  }

  /**
   A query for an item just received reads the key it was written under exactly when the type and step it will
   be given are the item's own: those of the entry already indexed, or the item's if its file is already there,
   or what the database says.
   */
  lemma ReadsWhatWasWritten(md5: string -> string, c: Caches, item: GraphItem, fileExists: bool, db: Option<(string, int)>)
    requires Injective(md5) && Matching(md5, c.indexed)
    ensures var sum := ChecksumOf(md5, item);
            var after := Receive(c, sum, item, fileExists).indexed;
            (ReadKey(after, md5, item.endpoint, CounterOf(item.metric, item.tags), db) == Some(WriteKey(md5, item)))
            == (if sum in c.indexed
                then c.indexed[sum].item.dsType == item.dsType && c.indexed[sum].item.step == item.step
                else fileExists || db == Some((item.dsType, item.step)))
  {
    var sum, counter := ChecksumOf(md5, item), CounterOf(item.metric, item.tags);
    PkIsPath(item.endpoint, item.metric, item.tags);
    assert md5(item.endpoint + "/" + counter) == sum;
    if sum in c.indexed {
      var cur := c.indexed[sum].item;
      assert PkOf(cur.endpoint, cur.metric, cur.tags) == PkOf(item.endpoint, item.metric, item.tags);
      TypeStepInjective(PkOf(item.endpoint, item.metric, item.tags), '/', cur.dsType, cur.step, item.dsType, item.step);
      TypeStepInjective(sum, '_', cur.dsType, cur.step, item.dsType, item.step);
    } else if db.Some? {
      TypeStepInjective(sum, '_', db.value.0, db.value.1, item.dsType, item.step);
    }
  }
}
