/**
 The old node of a migrated series, and what its rrd file holds of all it accepted. There is no migration on that
 node: a list, batches popped from it by sweeps and by GetRrd calls, and a file that batches are written to in the
 order they reach it.
 */
module OldSide {
  import opened Model
  import opened FlatStore

  type Items = seq<GraphItem>

  /** handleItems' test: an empty list takes anything, else only what is newer than its front. */
  predicate Takes(list: Items, item: GraphItem) {
    list == [] || item.timestamp > list[0].timestamp
  }

  datatype Status = InHand | Written | Failed

  datatype OldBatch = OldBatch(items: Items, status: Status)

  /**
   The items let in but not yet pushed; the list, newest first; every batch popped so far; those written, in the order
   they were; everything accepted.
   */
  datatype OldNode = OldNode(looked: Items, list: Items, batches: seq<OldBatch>, written: seq<nat>, accepted: Items)

  const NEW_NODE := OldNode([], [], [], [], [])

  /** handleItems has compared the item with the newest cached one; if it may go in, its PushFront is still to come. */
  function OldLooks(o: OldNode, item: GraphItem): OldNode {
    if Takes(o.list, item) then o.(looked := o.looked + [item]) else o
  }

  function OldTakes(o: OldNode, i: nat): OldNode
    requires i < |o.looked|
  {
    var item := o.looked[i];
    o.(looked := RemoveAt(o.looked, i), list := [item] + o.list, accepted := o.accepted + [item])
  }

  /** PopAll, by a sweep or by GetRrd. */
  function OldPops(o: OldNode): OldNode {
    if o.list == [] then o else o.(list := [], batches := o.batches + [OldBatch(Reverse(o.list), InHand)])
  }

  /** FlushFile on a popped batch, whose error the callers drop. */
  function OldHands(o: OldNode, i: nat, ok: bool): OldNode
    requires i < |o.batches|
  {
    var done := o.batches[i := o.batches[i].(status := if ok then Written else Failed)];
    o.(batches := done, written := if ok then o.written + [i] else o.written)
  }

  /** The items of the first n batches. */
  function Joined(bs: seq<OldBatch>, n: nat): Items
    requires n <= |bs|
  {
    if n == 0 then [] else Joined(bs, n - 1) + bs[n - 1].items
  }

  function At(bs: seq<OldBatch>, i: nat): Items {
    if i < |bs| then bs[i].items else []
  }

  /** The items of the first n batches of an order. */
  function Chosen(bs: seq<OldBatch>, order: seq<nat>, n: nat): Items
    requires n <= |order|
  {
    if n == 0 then [] else Chosen(bs, order, n - 1) + At(bs, order[n - 1])
  }

  /** The rrd file, as the log of the items written to it; None while there is no file. */
  function FileOf(o: OldNode): Option<Items> {
    if o.written == [] then None else Some(Chosen(o.batches, o.written, |o.written|))
  }

  /** None of the first n batches is still in hand, and none failed. */
  predicate AllWritten(o: OldNode, n: nat)
    requires n <= |o.batches|
  {
    forall i :: 0 <= i < n ==> o.batches[i].status == Written
  }

  /** The first n batches were written before any other, in the order they were popped. */
  predicate InOrder(o: OldNode, n: nat) {
    n <= |o.written| && forall i :: 0 <= i < n ==> o.written[i] == i
  }

  /** No item was accepted twice. */
  ghost predicate Distinct(items: Items) {
    forall i, j :: 0 <= i < j < |items| ==> items[i] != items[j]
  }

  // ---------- what every old node keeps ----------

  ghost predicate Keeps(o: OldNode) {
    && o.accepted == Joined(o.batches, |o.batches|) + Reverse(o.list)
    && (forall i :: 0 <= i < |o.batches| ==> o.batches[i].items != [])
    && (forall i :: 0 <= i < |o.batches| ==> (o.batches[i].status == Written <==> i in o.written))
    && (forall i :: 0 <= i < |o.written| ==> o.written[i] < |o.batches|)
    && (forall i, j :: 0 <= i < j < |o.written| ==> o.written[i] != o.written[j])
  }

  /** Batches keep their items, so that the text of a prefix never changes. */
  ghost predicate SameItems(a: seq<OldBatch>, b: seq<OldBatch>) {
    |a| <= |b| && forall i :: 0 <= i < |a| ==> a[i].items == b[i].items
  }

  lemma {:induction false} JoinedSame(a: seq<OldBatch>, b: seq<OldBatch>, n: nat)
    requires SameItems(a, b) && n <= |a|
    ensures Joined(a, n) == Joined(b, n)
  {
    if n > 0 { JoinedSame(a, b, n - 1); }
  }

  lemma TakesKeeps(o: OldNode, i: nat)
    requires Keeps(o) && i < |o.looked|
    ensures Keeps(OldTakes(o, i)) && o.accepted <= OldTakes(o, i).accepted
  {
    var item := o.looked[i];
    assert Reverse([item] + o.list) == Reverse(o.list) + [item];
    var joined := Joined(o.batches, |o.batches|);
    assert joined + Reverse(o.list) + [item] == joined + (Reverse(o.list) + [item]);
  }

  lemma PopsKeeps(o: OldNode)
    requires Keeps(o)
    ensures Keeps(OldPops(o)) && OldPops(o).list == []
    ensures OldPops(o).accepted == o.accepted == Joined(OldPops(o).batches, |OldPops(o).batches|)
    ensures SameItems(o.batches, OldPops(o).batches)
  {
    var o' := OldPops(o);
    assert Reverse<GraphItem>([]) == [];
    JoinedSame(o.batches, o'.batches, |o.batches|);
    assert o.accepted + [] == o.accepted;
  }

  lemma HandsKeeps(o: OldNode, i: nat, ok: bool)
    requires Keeps(o) && i < |o.batches| && o.batches[i].status == InHand
    ensures Keeps(OldHands(o, i, ok)) && SameItems(o.batches, OldHands(o, i, ok).batches)
    ensures OldHands(o, i, ok).accepted == o.accepted
  {
    var o' := OldHands(o, i, ok);
    JoinedSame(o.batches, o'.batches, |o.batches|);
    assert forall k :: k in o'.written <==> k in o.written || (ok && k == i);
  }

  // ---------- what the file holds ----------

  lemma {:induction false} JoinedPrefix(bs: seq<OldBatch>, m: nat, n: nat)
    requires m <= n <= |bs|
    ensures Joined(bs, m) <= Joined(bs, n)
    decreases n
  {
    if m < n { JoinedPrefix(bs, m, n - 1); }
  }

  lemma {:induction false} ChosenPrefix(bs: seq<OldBatch>, order: seq<nat>, m: nat, n: nat)
    requires m <= n <= |order|
    ensures Chosen(bs, order, m) <= Chosen(bs, order, n)
    decreases n
  {
    if m < n { ChosenPrefix(bs, order, m, n - 1); }
  }

  /** Batch i stands in the history right after the batches before it. */
  lemma JoinedPlace(bs: seq<OldBatch>, i: nat, n: nat)
    requires i < n <= |bs|
    ensures |Joined(bs, i)| + |bs[i].items| <= |Joined(bs, n)|
    ensures forall k :: 0 <= k < |bs[i].items| ==> Joined(bs, n)[|Joined(bs, i)| + k] == bs[i].items[k]
  {
    JoinedPrefix(bs, i + 1, n);
  }

  lemma ChosenPlace(bs: seq<OldBatch>, order: seq<nat>, i: nat, n: nat)
    requires i < n <= |order|
    ensures |Chosen(bs, order, i)| + |At(bs, order[i])| <= |Chosen(bs, order, n)|
    ensures forall k :: 0 <= k < |At(bs, order[i])| ==>
              Chosen(bs, order, n)[|Chosen(bs, order, i)| + k] == At(bs, order[i])[k]
  {
    ChosenPrefix(bs, order, i + 1, n);
  }

  lemma {:induction false} JoinedGrows(bs: seq<OldBatch>, m: nat, n: nat)
    requires m < n <= |bs| && forall i :: 0 <= i < |bs| ==> bs[i].items != []
    ensures |Joined(bs, m)| < |Joined(bs, n)|
  {
    if m < n - 1 { JoinedGrows(bs, m, n - 1); }
  }

  /** Written in order, the first n batches are the start of the file. */
  lemma {:induction false} InOrderIsPrefix(o: OldNode, n: nat)
    requires n <= |o.batches| && InOrder(o, n)
    ensures Chosen(o.batches, o.written, n) == Joined(o.batches, n)
    ensures FileOf(o).Some? ==> Joined(o.batches, n) <= FileOf(o).value
  {
    if n > 0 { InOrderIsPrefix(o, n - 1); }
    ChosenPrefix(o.batches, o.written, n, |o.written|);
  }

  lemma {:induction false} JoinedHas(bs: seq<OldBatch>, n: nat, x: GraphItem) returns (i: nat)
    requires n <= |bs| && x in Joined(bs, n)
    ensures i < n && x in bs[i].items
  {
    if x in bs[n - 1].items { i := n - 1; } else { i := JoinedHas(bs, n - 1, x); }
  }

  lemma {:induction false} ChosenHas(bs: seq<OldBatch>, order: seq<nat>, n: nat, x: GraphItem) returns (i: nat)
    requires n <= |order| && x in Chosen(bs, order, n)
    ensures i < n && x in At(bs, order[i])
  {
    if x in At(bs, order[n - 1]) { i := n - 1; } else { i := ChosenHas(bs, order, n - 1, x); }
  }

  /** In a history without repetition an item is in one batch only. */
  lemma BatchesApart(o: OldNode, i: nat, j: nat, k: nat, l: nat)
    requires Keeps(o) && Distinct(o.accepted) && i < |o.batches| && j < |o.batches|
    requires k < |o.batches[i].items| && l < |o.batches[j].items| && o.batches[i].items[k] == o.batches[j].items[l]
    ensures i == j
  {
    var n := |o.batches|;
    JoinedPlace(o.batches, i, n);
    JoinedPlace(o.batches, j, n);
    var p, q := |Joined(o.batches, i)| + k, |Joined(o.batches, j)| + l;
    assert o.accepted[p] == o.accepted[q];
    if i < j { JoinedPrefix(o.batches, i + 1, j); }
    if j < i { JoinedPrefix(o.batches, j + 1, i); }
  }

  /** After the first n in order, the batch whose first item follows in the file is the next. */
  lemma NextInOrder(o: OldNode, n: nat)
    requires Keeps(o) && Distinct(o.accepted) && n < |o.batches| && InOrder(o, n)
    requires Joined(o.batches, n + 1) <= Chosen(o.batches, o.written, |o.written|)
    ensures InOrder(o, n + 1)
  {
    var bs, all := o.batches, |o.written|;
    InOrderIsPrefix(o, n);
    JoinedGrows(bs, n, n + 1);
    assert n < all;
    var next := o.written[n];
    ChosenPlace(bs, o.written, n, all);
    SameFirst(bs, n, next, Chosen(bs, o.written, all));
    BatchesApart(o, next, n, 0, 0);
  }

  lemma SameFirst(bs: seq<OldBatch>, n: nat, next: nat, file: Items)
    requires n < |bs| && next < |bs| && bs[n].items != [] && bs[next].items != []
    requires Joined(bs, n + 1) <= file && |Joined(bs, n)| + |bs[next].items| <= |file|
    requires file[|Joined(bs, n)| + 0] == bs[next].items[0]
    ensures bs[next].items[0] == bs[n].items[0]
  {
    assert Joined(bs, n + 1)[|Joined(bs, n)|] == bs[n].items[0];
  }

  lemma {:induction false} PrefixIsInOrder(o: OldNode, n: nat)
    requires Keeps(o) && Distinct(o.accepted) && n <= |o.batches|
    requires Joined(o.batches, n) <= Chosen(o.batches, o.written, |o.written|)
    ensures InOrder(o, n)
  {
    if n > 0 {
      JoinedPrefix(o.batches, n - 1, n);
      PrefixIsInOrder(o, n - 1);
      NextInOrder(o, n - 1);
    }
  }

  /**
   The file starts with what had been accepted when n batches had been popped, the list being empty, exactly when
   these were written before any other, in the order they were popped.
   */
  lemma FileStartsWithHistory(o: OldNode, n: nat)
    requires Keeps(o) && Distinct(o.accepted) && n <= |o.batches| && FileOf(o).Some?
    ensures Joined(o.batches, n) <= FileOf(o).value <==> InOrder(o, n)
  {
    if InOrder(o, n) { InOrderIsPrefix(o, n); }
    if Joined(o.batches, n) <= FileOf(o).value { PrefixIsInOrder(o, n); }
  }

  /** It misses none of these items exactly when none of these batches is still in hand and none failed. */
  lemma FileMissesNothing(o: OldNode, n: nat)
    requires Keeps(o) && Distinct(o.accepted) && n <= |o.batches| && FileOf(o).Some?
    ensures (forall x :: x in Joined(o.batches, n) ==> x in FileOf(o).value) <==> AllWritten(o, n)
  {
    var file := FileOf(o).value;
    if AllWritten(o, n) {
      forall x | x in Joined(o.batches, n) ensures x in file { WrittenIsThere(o, n, x); }
    } else {
      var i :| 0 <= i < n && o.batches[i].status != Written;
      var x := o.batches[i].items[0];
      JoinedPlace(o.batches, i, n);
      assert Joined(o.batches, n)[|Joined(o.batches, i)| + 0] == x;
      if x in file {
        var w := ChosenHas(o.batches, o.written, |o.written|, x);
        var j := o.written[w];
        var l :| 0 <= l < |o.batches[j].items| && o.batches[j].items[l] == x;
        BatchesApart(o, i, j, 0, l);
        assert false;
      }
    }
  }

  lemma {:induction false} ChosenHolds(bs: seq<OldBatch>, order: seq<nat>, w: nat, n: nat, x: GraphItem)
    requires w < n <= |order| && x in At(bs, order[w])
    ensures x in Chosen(bs, order, n)
  {
    if w < n - 1 { ChosenHolds(bs, order, w, n - 1, x); }
  }

  lemma WrittenIsThere(o: OldNode, n: nat, x: GraphItem)
    requires Keeps(o) && n <= |o.batches| && FileOf(o).Some? && AllWritten(o, n) && x in Joined(o.batches, n)
    ensures x in FileOf(o).value
  {
    var i := JoinedHas(o.batches, n, x);
    var w := WrittenAt(o, i);
    ChosenHolds(o.batches, o.written, w, |o.written|, x);
  }

  lemma WrittenAt(o: OldNode, i: nat) returns (w: nat)
    requires Keeps(o) && i < |o.batches| && o.batches[i].status == Written
    ensures w < |o.written| && o.written[w] == i
  {
    assert i in o.written;
    w :| 0 <= w < |o.written| && o.written[w] == i;
  }

  // ---------- how much of the history the file holds, repetitions or not ----------

  /** The items of those among the first n batches that were written. */
  function Weight(bs: seq<OldBatch>, n: nat): nat
    requires n <= |bs|
  {
    if n == 0 then 0 else Weight(bs, n - 1) + if bs[n - 1].status == Written then |bs[n - 1].items| else 0
  }

  lemma {:induction false} WeightUpdate(bs: seq<OldBatch>, i: nat, b: OldBatch, n: nat)
    requires i < |bs| && n <= |bs| && bs[i].status != Written
    ensures Weight(bs[i := b], n) == Weight(bs, n) + if i < n && b.status == Written then |b.items| else 0
  {
    if n > 0 { WeightUpdate(bs, i, b, n - 1); }
  }

  lemma {:induction false} WeightSame(a: seq<OldBatch>, b: seq<OldBatch>, n: nat)
    requires n <= |a| <= |b| && a == b[..|a|]
    ensures Weight(a, n) == Weight(b, n)
  {
    if n > 0 {
      WeightSame(a, b, n - 1);
      assert b[..|a|][n - 1] == b[n - 1];
    }
  }

  lemma {:induction false} ChosenSame(a: seq<OldBatch>, b: seq<OldBatch>, order: seq<nat>, more: seq<nat>, n: nat)
    requires SameItems(a, b) && n <= |order| && order <= more && forall i :: 0 <= i < |order| ==> order[i] < |a|
    ensures Chosen(a, order, n) == Chosen(b, more, n)
  {
    if n > 0 { ChosenSame(a, b, order, more, n - 1); }
  }

  ghost predicate Weighed(o: OldNode) {
    |Chosen(o.batches, o.written, |o.written|)| == Weight(o.batches, |o.batches|)
  }

  lemma PopsWeighed(o: OldNode)
    requires Keeps(o) && Weighed(o)
    ensures Weighed(OldPops(o))
  {
    var o' := OldPops(o);
    assert o.list != [] ==> o.batches == o'.batches[..|o.batches|];
    if o.list != [] { WeightSame(o.batches, o'.batches, |o.batches|); }
    ChosenSame(o.batches, o'.batches, o.written, o.written, |o.written|);
  }

  lemma HandsWeighed(o: OldNode, i: nat, ok: bool)
    requires Keeps(o) && Weighed(o) && i < |o.batches| && o.batches[i].status == InHand
    ensures Weighed(OldHands(o, i, ok))
  {
    var o' := OldHands(o, i, ok);
    WeightUpdate(o.batches, i, o'.batches[i], |o.batches|);
    ChosenSame(o.batches, o'.batches, o.written, o'.written, |o.written|);
  }

  lemma {:induction false} WeightExact(bs: seq<OldBatch>, n: nat)
    requires n <= |bs| && forall i :: 0 <= i < |bs| ==> bs[i].items != []
    ensures Weight(bs, n) <= |Joined(bs, n)|
    ensures Weight(bs, n) == |Joined(bs, n)| <==> forall i :: 0 <= i < n ==> bs[i].status == Written
  {
    if n > 0 { WeightExact(bs, n - 1); }
  }

  /** The file is as long as the history exactly when nothing is cached, nothing is in hand and nothing failed. */
  lemma FileIsWholeHistory(o: OldNode)
    requires Keeps(o) && Weighed(o)
    ensures |Chosen(o.batches, o.written, |o.written|)| == |o.accepted|
       <==> o.list == [] && AllWritten(o, |o.batches|)
  {
    WeightExact(o.batches, |o.batches|);
  }
}
