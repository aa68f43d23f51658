/** What it means for an array of maps to be one map, sharded; stated for any keys and values. */
module Sharding {

  ghost predicate Sharded<K(!new), V>(shards: seq<map<K, V>>, flat: map<K, V>, idx: K -> nat) {
    forall i, k :: 0 <= i < |shards| ==>
      (k in shards[i] <==> k in flat && idx(k) == i) && (k in shards[i] ==> shards[i][k] == flat[k])
  }

  lemma SetSharded<K(!new), V>(shards: seq<map<K, V>>, flat: map<K, V>, idx: K -> nat, key: K, val: V)
    requires Sharded(shards, flat, idx) && idx(key) < |shards|
    ensures Sharded(shards[idx(key) := shards[idx(key)][key := val]], flat[key := val], idx)
  {
  }

  lemma RemoveSharded<K(!new), V>(shards: seq<map<K, V>>, flat: map<K, V>, idx: K -> nat, key: K)
    requires Sharded(shards, flat, idx) && idx(key) < |shards|
    ensures Sharded(shards[idx(key) := shards[idx(key)] - {key}], flat - {key}, idx)
  {
  }
}

/** The in-memory store of the graph module: modules/graph/store/linkedlist.go and store.go. */
module Store {
  import opened Model
  import Flat = FlatStore
  import Sharding

  /** A list, newest first as container/list holds it, with its flag word. */
  class SafeLinkedList {
    var Flag: bv32
    var L: seq<GraphItem>

    constructor ()
      ensures L == [] && Flag == 0
    {
      L := [];
      Flag := 0;
    }

    method PushFront(v: GraphItem)
      modifies this`L
      ensures L == [v] + old(L)
    {
      L := [v] + L;
    }

    method PopAll() returns (ret: seq<GraphItem>)
      modifies this`L
      ensures ret == Flat.Reverse(old(L)) && L == []
    {
      ret := [];
      var size := |L|;
      for i := 0 to size
        invariant |L| == size - i && L == old(L)[..size - i]
        invariant ret == Flat.Reverse(old(L)[size - i..])
      {
        var item := L[|L| - 1];
        ret := ret + [item];
        L := L[..|L| - 1];
      }
      assert old(L)[0..] == old(L);
    }

    method PushAll(items: seq<GraphItem>)
      modifies this`L
      ensures L == old(L) + Flat.Reverse(items)
    {
      var size := |items|;
      if size > 0 {
        var i := size - 1;
        while i >= 0
          invariant -1 <= i < size
          invariant L == old(L) + Flat.Reverse(items)[..size - 1 - i]
        {
          assert Flat.Reverse(items)[size - 1 - i] == items[i];
          L := L + [items[i]];
          i := i - 1;
        }
        assert Flat.Reverse(items)[..size] == Flat.Reverse(items);
      }
    }

    method FetchAll() returns (ret: seq<GraphItem>, flag: bv32)
      ensures ret == Flat.Reverse(L) && flag == Flag
    {
      ret := [];
      var p := |L| - 1;
      while p >= 0
        invariant -1 <= p < |L| && ret == Flat.Reverse(L[p + 1..])
      {
        ret := ret + [L[p]];
        p := p - 1;
      }
      assert L[0..] == L;
      flag := Flag;
    }
  }

  type Positive = n: nat | n > 0 witness 1

  class GraphItemMap {
    var A: seq<map<string, SafeLinkedList>>
    const Size: Positive
    const hashKey: string -> nat

    /** The shard of a key. */
    const Idx: string -> nat := (key: string) => hashKey(key) % Size

    /** The flat map that A stands for, the list of each key, and the key of each list. */
    ghost var Contents: Flat.FlatMap
    ghost var ListOf: map<string, SafeLinkedList>
    ghost var Owner: map<SafeLinkedList, string>
    ghost var Lists: set<SafeLinkedList>

    /** The lists hold what Contents says, and no two keys share one. */
    ghost predicate Mirrors()
      reads this, Lists
    {
      MirrorsOf(Contents, ListOf, Owner, Lists)
    }

    static ghost predicate MirrorsOf(contents: Flat.FlatMap, listOf: map<string, SafeLinkedList>,
                                     owner: map<SafeLinkedList, string>, lists: set<SafeLinkedList>)
      reads lists
    {
      && contents.Keys == listOf.Keys && owner.Keys == lists
      && (forall key :: key in listOf ==> listOf[key] in lists && owner[listOf[key]] == key)
      && (forall key :: key in listOf ==> contents[key] == Flat.Entry(listOf[key].L, listOf[key].Flag))
    }

    ghost predicate Valid()
      reads this, Lists
    {
      |A| == Size && Sharding.Sharded(A, ListOf, Idx) && Mirrors()
    }

    constructor (size: Positive, hashKey: string -> nat)
      ensures Valid() && Contents == map[] && Size == size && this.hashKey == hashKey && fresh(Lists)
    {
      Size := size;
      this.hashKey := hashKey;
      A := seq(size, _ => map[]);
      Contents := map[];
      ListOf, Owner, Lists := map[], map[], {};
    }

    method GetFirst(key: string) returns (r: Option<GraphItem>)
      requires Valid()
      ensures r == Flat.First(Contents, key)
    {
      var idx := Idx(key);
      if key !in A[idx] {
        return None;
      }
      var sl := A[idx][key];
      if |sl.L| == 0 {
        return None;
      }
      r := Some(sl.L[0]);
    }

    method GetBack(key: string) returns (r: Option<GraphItem>)
      requires Valid()
      ensures r == Flat.Back(Contents, key)
    {
      var idx := Idx(key);
      if key !in A[idx] {
        return None;
      }
      var sl := A[idx][key];
      if |sl.L| == 0 {
        return None;
      }
      r := Some(sl.L[|sl.L| - 1]);
    }

    method GetItemCnt(key: string) returns (n: nat)
      requires Valid()
      ensures n == Flat.ItemCnt(Contents, key)
    {
      var idx := Idx(key);
      if key !in A[idx] {
        return 0;
      }
      n := |A[idx][key].L|;
    }

    lemma MirrorsMore(contents: Flat.FlatMap, listOf: map<string, SafeLinkedList>, owner: map<SafeLinkedList, string>,
                      lists: set<SafeLinkedList>, key: string, val: SafeLinkedList)
      requires MirrorsOf(contents, listOf, owner, lists) && val !in lists
      ensures MirrorsOf(contents[key := Flat.Entry(val.L, val.Flag)], listOf[key := val], owner[val := key], lists + {val})
    {
    }

    method Set(key: string, val: SafeLinkedList)
      requires Valid() && val !in Lists
      modifies this`A, this`Contents, this`Lists, this`Owner, this`ListOf
      ensures Valid() && Contents == old(Contents)[key := Flat.Entry(val.L, val.Flag)]
      ensures Lists == old(Lists) + {val}
    {
      var idx := Idx(key);
      Sharding.SetSharded(A, ListOf, Idx, key, val);
      MirrorsMore(Contents, ListOf, Owner, Lists, key, val);
      Lists, Owner, ListOf := Lists + {val}, Owner[val := key], ListOf[key := val];
      A := A[idx := A[idx][key := val]];
      Contents := Contents[key := Flat.Entry(val.L, val.Flag)];
    }

    method NewSeries(item: GraphItem, missIfNew: bool) returns (safeList: SafeLinkedList)
      ensures fresh(safeList) && safeList.L == [item]
      ensures safeList.Flag == if missIfNew then Flat.GRAPH_F_MISS else 0
    {
      safeList := new SafeLinkedList();
      safeList.PushFront(item);
      if missIfNew {
        safeList.Flag := Flat.GRAPH_F_MISS;
      }
    }

    /** store.go:176, on the list that is there. */
    method PushOn(key: string, item: GraphItem)
      requires Valid() && key in Contents
      modifies this`Contents, Lists
      ensures Valid() && Contents == old(Contents)[key := old(Contents)[key].(items := [item] + old(Contents)[key].items)]
    {
      var sl := A[Idx(key)][key];
      sl.PushFront(item);
      Contents := Contents[key := Contents[key].(items := [item] + Contents[key].items)];
    }

    /** Get and Set of the source are two locked steps; one call here is one step. */
    method PushFront(key: string, item: GraphItem, missIfNew: bool)
      requires Valid()
      modifies this`A, this`Contents, this`Lists, this`Owner, this`ListOf, Lists
      ensures Valid() && Contents == Flat.PushFront(old(Contents), key, item, missIfNew)
      ensures fresh(Lists - old(Lists))
    {
      var idx := Idx(key);
      if key in A[idx] {
        PushOn(key, item);
      } else {
        var safeList := NewSeries(item, missIfNew);
        Set(key, safeList);
      }
    }

    method PushAll(key: string, items: seq<GraphItem>) returns (ok: bool)
      requires Valid()
      modifies this`Contents, Lists
      ensures Valid() && Contents == Flat.PushAll(old(Contents), key, items)
      ensures ok == (key in old(Contents))
    {
      var idx := Idx(key);
      if key !in A[idx] {
        return false;
      }
      var sl := A[idx][key];
      sl.PushAll(items);
      Contents := Flat.PushAll(Contents, key, items);
      return true;
    }

    method GetFlag(key: string) returns (flag: bv32, ok: bool)
      requires Valid()
      ensures ok == (key in Contents) && flag == if ok then Contents[key].flag else 0
    {
      var idx := Idx(key);
      if key !in A[idx] {
        return 0, false;
      }
      return A[idx][key].Flag, true;
    }

    method SetFlag(key: string, flag: bv32) returns (ok: bool)
      requires Valid()
      modifies this`Contents, Lists
      ensures Valid() && Contents == Flat.SetFlag(old(Contents), key, flag)
      ensures ok == (key in old(Contents))
    {
      var idx := Idx(key);
      if key !in A[idx] {
        return false;
      }
      var sl := A[idx][key];
      sl.Flag := flag;
      Contents := Flat.SetFlag(Contents, key, flag);
      return true;
    }

    method PopAll(key: string) returns (items: seq<GraphItem>)
      requires Valid()
      modifies this`Contents, Lists
      ensures Valid() && Contents == Flat.Emptied(old(Contents), key)
      ensures items == Flat.FetchAll(old(Contents), key).0
    {
      var idx := Idx(key);
      if key !in A[idx] {
        return [];
      }
      var sl := A[idx][key];
      items := sl.PopAll();
      Contents := Flat.Emptied(Contents, key);
    }

    method FetchAll(key: string) returns (items: seq<GraphItem>, flag: bv32)
      requires Valid()
      ensures (items, flag) == Flat.FetchAll(Contents, key)
    {
      var idx := Idx(key);
      if key !in A[idx] {
        return [], 0;
      }
      items, flag := A[idx][key].FetchAll();
    }

    method Remove(key: string) returns (exists_: bool)
      requires Valid()
      modifies this`A, this`Contents, this`ListOf
      ensures Valid() && Contents == old(Contents) - {key}
      ensures exists_ == (key in old(Contents))
    {
      var idx := Idx(key);
      if key !in A[idx] {
        return false;
      }
      Sharding.RemoveSharded(A, ListOf, Idx, key);
      A := A[idx := A[idx] - {key}];
      Contents, ListOf := Contents - {key}, ListOf - {key};
      return true;
    }

    /** The keys of one shard, in any order. */
    method KeysByIndex(idx: nat) returns (keys: seq<string>)
      requires Valid() && idx < Size
      ensures forall key :: key in keys <==> key in Contents && Idx(key) == idx
      ensures forall i, j :: 0 <= i < j < |keys| ==> keys[i] != keys[j]
    {
      keys := [];
      var rest := A[idx].Keys;
      while rest != {}
        invariant rest <= A[idx].Keys && forall key :: key in keys <==> key in A[idx] && key !in rest
        invariant forall i, j :: 0 <= i < j < |keys| ==> keys[i] != keys[j]
        decreases rest
      {
        var key :| key in rest;
        keys := keys + [key];
        rest := rest - {key};
      }
    }

    ghost function KeysBelow(n: nat): set<string>
      reads this
    {
      set key | key in Contents && Idx(key) < n
    }

    lemma KeysAdd(i: nat)
      requires Valid() && i < Size
      ensures |KeysBelow(i + 1)| == |KeysBelow(i)| + |A[i]|
    {
      var below, here, next := KeysBelow(i), A[i].Keys, KeysBelow(i + 1);
      assert next == below + here && below !! here;
    }

    /** The sum of the shard sizes is the number of series. */
    method Len() returns (l: nat)
      requires Valid()
      ensures l == |Contents|
    {
      l := 0;
      for i := 0 to Size
        invariant l == |KeysBelow(i)|
      {
        KeysAdd(i);
        l := l + |A[i]|;
      }
      assert KeysBelow(Size) == Contents.Keys;
    }
  }
}
