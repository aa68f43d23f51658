/**
 PushFront of modules/graph/store/store.go:173-188 on one key by several receivers at once. It looks the key up under
 one lock, and then pushes on the list it found, or makes a list of its own and sets it under another lock.
 */
module Creation {
  import opened Model
  import Flat = FlatStore

  type Items = seq<GraphItem>

  datatype Push = Ready | Found(list: nat) | Missing | Done

  /**
   All lists ever made; the one under the key; the state of each push; the items put so far, in order; whether a list
   under the key was ever replaced.
   */
  datatype Race = Race(lists: seq<Items>, entry: Option<nat>, pushes: seq<Push>, put: Items, replaced: bool)

  datatype Turn = Get(p: nat) | Put(p: nat)

  function Start(was: Option<Items>, n: nat): Race {
    Race(if was.Some? then [was.value] else [], if was.Some? then Some(0) else None, seq(n, _ => Ready), [], false)
  }

  predicate Enabled(r: Race, turn: Turn) {
    turn.p < |r.pushes|
    && match r.pushes[turn.p]
       case Ready => turn.Get?
       case Found(l) => turn.Put? && l < |r.lists|
       case Missing => turn.Put?
       case Done => false
  }

  function Do(items: Items, r: Race, turn: Turn): (r': Race)
    requires Enabled(r, turn) && |items| == |r.pushes|
    ensures |r'.pushes| == |r.pushes|
  {
    var item := items[turn.p];
    if turn.Get? then r.(pushes := r.pushes[turn.p := if r.entry.Some? then Found(r.entry.value) else Missing])
    else if r.pushes[turn.p].Found? then
      var l := r.pushes[turn.p].list;
      r.(lists := r.lists[l := [item] + r.lists[l]], pushes := r.pushes[turn.p := Done], put := r.put + [item])
    else
      Race(r.lists + [[item]], Some(|r.lists|), r.pushes[turn.p := Done], r.put + [item], r.replaced || r.entry.Some?)
  }

  function Run(was: Option<Items>, items: Items, turns: seq<Turn>, n: nat): (r: Option<Race>)
    requires n <= |turns|
    ensures r.Some? ==> |r.value.pushes| == |items|
  {
    if n == 0 then Some(Start(was, |items|))
    else match Run(was, items, turns, n - 1)
         case None => None
         case Some(r) => if Enabled(r, turns[n - 1]) then Some(Do(items, r, turns[n - 1])) else None
  }

  /** What a reader of the key finds. */
  function Shown(r: Race): Items {
    if r.entry.Some? && r.entry.value < |r.lists| then r.lists[r.entry.value] else []
  }

  /** One PushFront after the other. */
  function Stacked(was: Items, put: Items, n: nat): (r: Items)
    requires n <= |put|
    ensures |r| == |was| + n
  {
    if n == 0 then was else [put[n - 1]] + Stacked(was, put, n - 1)
  }

  function Was(was: Option<Items>): Items {
    if was.Some? then was.value else []
  }

  lemma {:induction false} StackedSame(was: Items, a: Items, b: Items, n: nat)
    requires n <= |a| && a <= b
    ensures Stacked(was, a, n) == Stacked(was, b, n)
  {
    if n > 0 { StackedSame(was, a, b, n - 1); }
  }

  /** The flat map after these PushFronts. */
  ghost function FlatPushes(m: Flat.FlatMap, key: string, put: Items, miss: GraphItem -> bool, n: nat): Flat.FlatMap
    requires n <= |put|
  {
    if n == 0 then m
    else Flat.PushFront(FlatPushes(m, key, put, miss, n - 1), key, put[n - 1], miss(put[n - 1]))
  }

  lemma {:induction false} StackedIsFlat(m: Flat.FlatMap, key: string, put: Items, miss: GraphItem -> bool, n: nat)
    requires n <= |put|
    ensures key in FlatPushes(m, key, put, miss, n) <==> key in m || n > 0
    ensures key in FlatPushes(m, key, put, miss, n) ==>
              FlatPushes(m, key, put, miss, n)[key].items == Stacked(if key in m then m[key].items else [], put, n)
  {
    if n > 0 { StackedIsFlat(m, key, put, miss, n - 1); }
  }

  // ---------- every run ----------

  /** While no list was replaced there is at most one, and everything put is on it in order. */
  ghost predicate Whole(was: Option<Items>, r: Race) {
    && |r.lists| <= 1 && (r.entry == if r.lists == [] then None else Some(0))
    && Shown(r) == Stacked(Was(was), r.put, |r.put|)
  }

  /** What holds in every run; a list that was there at the start is never missed. */
  ghost predicate Known(was: Option<Items>, r: Race) {
    && (was.Some? ==> !r.replaced && r.entry.Some? && forall p :: 0 <= p < |r.pushes| ==> r.pushes[p] != Missing)
    && (r.entry.Some? ==> r.entry.value < |r.lists|)
    && (r.entry.None? ==> r.put == []) && (was.None? && r.entry.Some? ==> r.put != [])
    && if r.replaced then |Shown(r)| < |r.put| else Whole(was, r)
  }

  lemma GetKnown(was: Option<Items>, items: Items, r: Race, turn: Turn)
    requires |items| == |r.pushes| && Enabled(r, turn) && Known(was, r) && turn.Get?
    ensures Known(was, Do(items, r, turn))
  {
  }

  lemma FoundKnown(was: Option<Items>, items: Items, r: Race, turn: Turn)
    requires |items| == |r.pushes| && Enabled(r, turn) && Known(was, r) && r.pushes[turn.p].Found?
    ensures Known(was, Do(items, r, turn))
  {
    StackedSame(Was(was), r.put, Do(items, r, turn).put, |r.put|);
  }

  lemma MissingKnown(was: Option<Items>, items: Items, r: Race, turn: Turn)
    requires |items| == |r.pushes| && Enabled(r, turn) && Known(was, r) && r.pushes[turn.p].Missing?
    ensures Known(was, Do(items, r, turn))
  {
  }

  lemma {:induction false} RunKnown(was: Option<Items>, items: Items, turns: seq<Turn>, n: nat)
    requires n <= |turns| && Run(was, items, turns, n).Some?
    ensures Known(was, Run(was, items, turns, n).value)
  {
    if n > 0 {
      RunKnown(was, items, turns, n - 1);
      var r, turn := Run(was, items, turns, n - 1).value, turns[n - 1];
      if turn.Get? {
        GetKnown(was, items, r, turn);
      } else if r.pushes[turn.p].Found? {
        FoundKnown(was, items, r, turn);
      } else {
        MissingKnown(was, items, r, turn);
      }
    }
  }

  /**
   However many pushes there are and however they interleave: what is under the key is everything put, in the order it
   was, on what was there before, exactly when no push set its own list over another's. Else fewer items are left than
   were put. A key that was there from the start cannot lose any.
   */
  lemma PushesKeptExactly(was: Option<Items>, items: Items, turns: seq<Turn>)
    requires Run(was, items, turns, |turns|).Some?
    ensures var r := Run(was, items, turns, |turns|).value;
            && (Shown(r) == Stacked(Was(was), r.put, |r.put|) <==> !r.replaced)
            && (r.replaced ==> was.None? && |Shown(r)| < |r.put|)
  {
    RunKnown(was, items, turns, |turns|);
  }

  /** Two first pushes that both find no key: the one set first is lost. */
  lemma FirstPushLost(a: GraphItem, b: GraphItem)
    ensures var r := Run(None, [a, b], [Get(0), Get(1), Put(0), Put(1)], 4);
            r.Some? && r.value.replaced && r.value.put == [a, b] && Shown(r.value) == [b]
  {
    var items, turns := [a, b], [Get(0), Get(1), Put(0), Put(1)];
    var r := Start(None, 2);
    assert Run(None, items, turns, 0) == Some(r);
    r := Do(items, r, turns[0]);
    assert Run(None, items, turns, 1) == Some(r);
    r := Do(items, r, turns[1]);
    assert Run(None, items, turns, 2) == Some(r);
    r := Do(items, r, turns[2]);
    assert Run(None, items, turns, 3) == Some(r);
    r := Do(items, r, turns[3]);
    assert Run(None, items, turns, 4) == Some(r);
  }
}
