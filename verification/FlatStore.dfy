/** The flat map of series that the sharded store stands for, and its operations as functions. */
module FlatStore {
  import opened Model

  const GRAPH_F_MISS: bv32 := 1
  const GRAPH_F_SENDING: bv32 := 4
  const GRAPH_F_FETCHING: bv32 := 8

  // flag &^ bit, by mask
  function ClearMiss(flag: bv32): bv32 { flag & 0xFFFF_FFFE }
  function ClearSending(flag: bv32): bv32 { flag & 0xFFFF_FFFB }
  function ClearFetching(flag: bv32): bv32 { flag & 0xFFFF_FFF7 }

  /** The masks are the complements of the bits. */
  lemma Masks()
    ensures !GRAPH_F_MISS == 0xFFFF_FFFE && !GRAPH_F_SENDING == 0xFFFF_FFFB && !GRAPH_F_FETCHING == 0xFFFF_FFF7
  {
  }

  predicate HasMiss(flag: bv32) {
    flag & GRAPH_F_MISS != 0
  }

  function Reverse<T>(s: seq<T>): (r: seq<T>)
    ensures |r| == |s| && forall i :: 0 <= i < |s| ==> r[i] == s[|s| - 1 - i]
  {
    seq(|s|, i requires 0 <= i < |s| => s[|s| - 1 - i])
  }

  datatype Entry = Entry(items: seq<GraphItem>, flag: bv32)

  type FlatMap = map<string, Entry>

  function First(m: FlatMap, key: string): Option<GraphItem> {
    if key in m && m[key].items != [] then Some(m[key].items[0]) else None
  }

  function Back(m: FlatMap, key: string): Option<GraphItem> {
    if key in m && m[key].items != [] then Some(m[key].items[|m[key].items| - 1]) else None
  }

  function ItemCnt(m: FlatMap, key: string): nat {
    if key in m then |m[key].items| else 0
  }

  /** missIfNew: migration is on and the series has no rrd file yet. */
  function PushFront(m: FlatMap, key: string, item: GraphItem, missIfNew: bool): FlatMap {
    m[key := if key in m then m[key].(items := [item] + m[key].items)
             else Entry([item], if missIfNew then GRAPH_F_MISS else 0)]
  }

  function PushAll(m: FlatMap, key: string, items: seq<GraphItem>): FlatMap {
    if key in m then m[key := m[key].(items := m[key].items + Reverse(items))] else m
  }

  function FetchAll(m: FlatMap, key: string): (seq<GraphItem>, bv32) {
    if key in m then (Reverse(m[key].items), m[key].flag) else ([], 0)
  }

  function Emptied(m: FlatMap, key: string): FlatMap {
    if key in m then m[key := m[key].(items := [])] else m
  }

  function SetFlag(m: FlatMap, key: string, flag: bv32): FlatMap {
    if key in m then m[key := m[key].(flag := flag)] else m
  }

  // ---------- pop and restore ----------

  /** One PushFront on any key. */
  datatype Push = Push(key: string, item: GraphItem, missIfNew: bool)

  /** The first n of a sequence of PushFronts. */
  function PushMany(m: FlatMap, ps: seq<Push>, n: nat): FlatMap
    requires n <= |ps|
  {
    if n == 0 then m
    else var p := ps[n - 1]; PushFront(PushMany(m, ps, n - 1), p.key, p.item, p.missIfNew)
  }

  /**
   Popping a list, receiving anything on any keys, and putting the popped items back is the same as receiving
   alone; with nothing received in between it is the identity.
   */
  lemma {:induction false} PopRestoreCommutes(m: FlatMap, key: string, ps: seq<Push>, n: nat)
    requires n <= |ps|
    ensures PushAll(PushMany(Emptied(m, key), ps, n), key, FetchAll(m, key).0) == PushMany(m, ps, n)
    ensures key in m ==> key in PushMany(Emptied(m, key), ps, n)
  {
    var popped := FetchAll(m, key).0;
    if n == 0 {
      if key in m { assert [] + Reverse(popped) == m[key].items; }
    } else {
      PopRestoreCommutes(m, key, ps, n - 1);
      PushCommutes(PushMany(Emptied(m, key), ps, n - 1), ps[n - 1], key, popped);
    }
  }

  lemma PushCommutes(m: FlatMap, p: Push, key: string, popped: seq<GraphItem>)
    requires key in m || popped == []
    ensures PushAll(PushFront(m, p.key, p.item, p.missIfNew), key, popped)
         == PushFront(PushAll(m, key, popped), p.key, p.item, p.missIfNew)
  {
    if key in m {
      assert [p.item] + (m[key].items + Reverse(popped)) == [p.item] + m[key].items + Reverse(popped);
    } else {
      assert [p.item] + Reverse(popped) == [p.item];
    }
  }
}
