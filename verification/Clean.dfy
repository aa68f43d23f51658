/** The daily clean-up of series no longer indexed: modules/graph/cron/clean.go. */
module Clean {
  import opened Strings
  import Flat = FlatStore
  import opened Store
  import opened History

  /** A three-part key whose checksum is not indexed. */
  predicate Invalid(key: string, indexed: set<string>) {
    var tmp := Split(key, '_');
    |tmp| == 3 && tmp[0] !in indexed
  }

  function Retained(m: Flat.FlatMap, indexed: set<string>, swept: set<string>): Flat.FlatMap {
    map k | k in m && !(k in swept && Invalid(k, indexed)) :: m[k]
  }

  lemma RetainedAdd(m: Flat.FlatMap, indexed: set<string>, swept: set<string>, k: string)
    ensures Retained(m, indexed, swept + {k})
         == if Invalid(k, indexed) then Retained(m, indexed, swept) - {k} else Retained(m, indexed, swept)
  {
  }

  lemma RetainedThen(m: Flat.FlatMap, indexed: set<string>, s1: set<string>, s2: set<string>)
    ensures Retained(Retained(m, indexed, s1), indexed, s2) == Retained(m, indexed, s1 + s2)
  {
  }

  lemma RetainedAll(m: Flat.FlatMap, indexed: set<string>, swept: set<string>)
    requires Retained(m, indexed, swept).Keys <= swept
    ensures Retained(m, indexed, swept) == Retained(m, indexed, m.Keys)
  {
  }

  /** Removes exactly the invalid keys and counts them. */
  method DeleteInvalidItems(graphItems: GraphItemMap, indexed: set<string>) returns (deleteCnt: nat)
    requires graphItems.Valid()
    modifies graphItems`A, graphItems`Contents, graphItems`ListOf
    ensures graphItems.Valid()
    ensures graphItems.Contents == Retained(old(graphItems.Contents), indexed, old(graphItems.Contents).Keys)
    ensures deleteCnt == |old(graphItems.Contents)| - |graphItems.Contents|
  {
    deleteCnt := 0;
    ghost var m := graphItems.Contents;
    ghost var done: set<string> := {};
    for idx := 0 to graphItems.Size
      invariant graphItems.Valid() && deleteCnt + |graphItems.Contents| == |m|
      invariant graphItems.Contents == Retained(m, indexed, done)
      invariant forall k :: k in graphItems.Contents && graphItems.Idx(k) < idx ==> k in done
    {
      ghost var swept;
      deleteCnt, swept := CleanShard(graphItems, indexed, idx, deleteCnt);
      RetainedThen(m, indexed, done, swept);
      done := done + swept;
    }
    RetainedAll(m, indexed, done);
  }

  /** Its body, clean.go:77-81. */
  method CleanKey(graphItems: GraphItemMap, indexed: set<string>, key: string, deleted: nat) returns (deleteCnt: nat)
    requires graphItems.Valid() && key in graphItems.Contents
    modifies graphItems`A, graphItems`Contents, graphItems`ListOf
    ensures graphItems.Valid()
    ensures graphItems.Contents == if Invalid(key, indexed) then old(graphItems.Contents) - {key} else old(graphItems.Contents)
    ensures deleteCnt + |graphItems.Contents| == deleted + |old(graphItems.Contents)|
  {
    deleteCnt := deleted;
    var tmp := Split(key, '_');
    if |tmp| == 3 && tmp[0] !in indexed {
      var _ := graphItems.Remove(key);
      deleteCnt := deleteCnt + 1;
    }
  }

  /** The inner loop, clean.go:74-82. */
  method CleanShard(graphItems: GraphItemMap, indexed: set<string>, idx: nat, deleted: nat)
    returns (deleteCnt: nat, ghost swept: set<string>)
    requires graphItems.Valid() && idx < graphItems.Size
    modifies graphItems`A, graphItems`Contents, graphItems`ListOf
    ensures graphItems.Valid()
    ensures forall k :: k in swept <==> k in old(graphItems.Contents) && graphItems.Idx(k) == idx
    ensures graphItems.Contents == Retained(old(graphItems.Contents), indexed, swept)
    ensures deleteCnt + |graphItems.Contents| == deleted + |old(graphItems.Contents)|
  {
    var keys := graphItems.KeysByIndex(idx);
    ghost var m := graphItems.Contents;
    NoneCleaned(m, indexed, keys);
    deleteCnt := deleted;
    for i := 0 to |keys|
      invariant graphItems.Valid() && deleteCnt + |graphItems.Contents| == deleted + |m|
      invariant CleanedTo(m, indexed, keys, i, graphItems.Contents)
    {
      NextIsThere(m, indexed, keys, i, graphItems.Contents);
      ghost var before := graphItems.Contents;
      deleteCnt := CleanKey(graphItems, indexed, keys[i], deleteCnt);
      CleanedNext(m, indexed, keys, i, before, graphItems.Contents);
    }
    swept := Elements(keys);
    AllCleaned(m, indexed, keys, graphItems.Contents);
  }

  ghost predicate CleanedTo(m: Flat.FlatMap, indexed: set<string>, keys: seq<string>, i: nat, now: Flat.FlatMap) {
    i <= |keys| && now == Retained(m, indexed, Elements(keys[..i]))
  }

  lemma NoneCleaned(m: Flat.FlatMap, indexed: set<string>, keys: seq<string>)
    ensures CleanedTo(m, indexed, keys, 0, m)
  {
    assert Elements(keys[..0]) == {};
  }

  lemma AllCleaned(m: Flat.FlatMap, indexed: set<string>, keys: seq<string>, now: Flat.FlatMap)
    requires CleanedTo(m, indexed, keys, |keys|, now)
    ensures now == Retained(m, indexed, Elements(keys))
  {
    assert keys[..|keys|] == keys;
  }

  lemma NextIsThere(m: Flat.FlatMap, indexed: set<string>, keys: seq<string>, i: nat, now: Flat.FlatMap)
    requires CleanedTo(m, indexed, keys, i, now) && i < |keys| && keys[i] in m
    requires forall j, k :: 0 <= j < k < |keys| ==> keys[j] != keys[k]
    ensures keys[i] in now
  {
  }

  lemma CleanedNext(m: Flat.FlatMap, indexed: set<string>, keys: seq<string>, i: nat, now: Flat.FlatMap, next: Flat.FlatMap)
    requires CleanedTo(m, indexed, keys, i, now) && i < |keys|
    requires next == if Invalid(keys[i], indexed) then now - {keys[i]} else now
    ensures CleanedTo(m, indexed, keys, i + 1, next)
  {
    RetainedAdd(m, indexed, Elements(keys[..i]), keys[i]);
    assert keys[..i + 1] == keys[..i] + [keys[i]];
    assert Elements(keys[..i + 1]) == Elements(keys[..i]) + {keys[i]};
  }

  /** The same for the history, keyed by checksum. */
  method DeleteInvalidHistory(historyCache: HistoryCache, indexed: set<string>) returns (deleteCnt: nat)
    modifies historyCache
    ensures historyCache.Lists == map k | k in old(historyCache.Lists) && k in indexed :: old(historyCache.Lists)[k]
    ensures deleteCnt == |old(historyCache.Lists)| - |historyCache.Lists|
  {
    deleteCnt := 0;
    ghost var m := historyCache.Lists;
    var keys := historyCache.Lists.Keys;
    while keys != {}
      invariant keys <= m.Keys && deleteCnt + |historyCache.Lists| == |m|
      invariant historyCache.Lists == map k | k in m && (k in keys || k in indexed) :: m[k]
      decreases keys
    {
      var key :| key in keys;
      if key !in indexed {
        historyCache.Lists := historyCache.Lists - {key};
        deleteCnt := deleteCnt + 1;
      }
      keys := keys - {key};
    }
  }
}
