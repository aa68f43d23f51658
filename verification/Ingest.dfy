/** What handleItems does to the stores (modules/graph/api/graph.go:73-129), and why retries are harmless. */
module Ingest {
  import opened Model
  import opened Arithmetic
  import opened FlatStore
  import opened SeriesKeys
  import Index
  import History

  /** Everything handleItems writes: the cached lists, the index caches and the history. */
  datatype State = State(items: FlatMap, caches: Index.Caches, history: History.Histories)

  /** The world around one call: the checksum, the printable characters, the files and the migration switch. */
  datatype Env = Env(md5: string -> string, isPrint: char -> bool, storage: string, fileExists: string -> bool,
                     migrate: bool)

  /** md5 yields hexadecimal strings; two characters are what file names need. */
  ghost predicate WellFormed(env: Env) {
    forall s :: |env.md5(s)| >= 2
  }

  ghost predicate Acceptable(env: Env, item: GraphItem) {
    && IsValidString(item.endpoint, env.isPrint)
    && IsValidString(CounterOf(item.metric, item.tags), env.isPrint)
  }

  ghost function KeyOf(env: Env, item: GraphItem): string {
    Index.WriteKey(env.md5, item)
  }

  ghost predicate HasFile(env: Env, item: GraphItem)
    requires WellFormed(env)
  {
    env.fileExists(RrdFileName(env.storage, Index.ChecksumOf(env.md5, item), item.dsType, item.step))
  }

  /** The list's newest item is no older than t. */
  predicate UpTo(m: FlatMap, key: string, t: int) {
    First(m, key).Some? && t <= First(m, key).value.timestamp
  }

  /** To graph, to index, to history. */
  ghost function Taken(s: State, key: string, sum: string, item: GraphItem, missIfNew: bool, hasFile: bool): State {
    State(PushFront(s.items, key, item, missIfNew), Index.Receive(s.caches, sum, item, hasFile),
          History.AddTo(s.history, sum, item))
  }

  ghost function One(env: Env, s: State, item: GraphItem): State
    requires WellFormed(env)
  {
    var key, sum := KeyOf(env, item), Index.ChecksumOf(env.md5, item);
    if !Acceptable(env, item) || UpTo(s.items, key, item.timestamp) then s
    else Taken(s, key, sum, item, env.migrate && !HasFile(env, item), HasFile(env, item))
  }

  /** One slot of a batch; the source skips nil pointers. */
  ghost function Slot(env: Env, s: State, slot: Option<GraphItem>): State
    requires WellFormed(env)
  {
    if slot.None? then s else One(env, s, slot.value)
  }

  /** The first n slots of a batch, in order. */
  ghost function Batch(env: Env, s: State, batch: seq<Option<GraphItem>>, n: nat): State
    requires WellFormed(env) && n <= |batch|
  {
    if n == 0 then s else Slot(env, Batch(env, s, batch, n - 1), batch[n - 1])
  }

  // ---------- retries ----------

  /** Processing the slot again would change nothing. */
  ghost predicate Covered(env: Env, s: State, slot: Option<GraphItem>) {
    slot.Some? && Acceptable(env, slot.value) ==> UpTo(s.items, KeyOf(env, slot.value), slot.value.timestamp)
  }

  lemma CoversItself(env: Env, s: State, slot: Option<GraphItem>)
    requires WellFormed(env)
    ensures Covered(env, Slot(env, s, slot), slot)
    ensures Covered(env, s, slot) ==> Slot(env, s, slot) == s
  {
  }

  lemma KeepsCovered(env: Env, s: State, slot: Option<GraphItem>, other: Option<GraphItem>)
    requires WellFormed(env) && Covered(env, s, other)
    ensures Covered(env, Slot(env, s, slot), other)
  {
  }

  lemma {:induction false} BatchCovered(env: Env, s: State, batch: seq<Option<GraphItem>>, n: nat, i: nat)
    requires WellFormed(env) && i < n <= |batch|
    ensures Covered(env, Batch(env, s, batch, n), batch[i])
  {
    var before := Batch(env, s, batch, n - 1);
    if i < n - 1 {
      BatchCovered(env, s, batch, n - 1, i);
      KeepsCovered(env, before, batch[n - 1], batch[i]);
    } else {
      CoversItself(env, before, batch[n - 1]);
    }
  }

  lemma Again(env: Env, s: State, batch: seq<Option<GraphItem>>, n: nat, i: nat)
    requires WellFormed(env) && i < n <= |batch|
    ensures Slot(env, Batch(env, s, batch, n), batch[i]) == Batch(env, s, batch, n)
  {
    BatchCovered(env, s, batch, n, i);
    CoversItself(env, Batch(env, s, batch, n), batch[i]);
  }

  /** Slots processed in any order of indices. */
  ghost function InOrder(env: Env, s: State, batch: seq<Option<GraphItem>>, order: seq<nat>, n: nat): State
    requires WellFormed(env) && n <= |order| && forall j :: 0 <= j < |order| ==> order[j] < |batch|
  {
    if n == 0 then s else Slot(env, InOrder(env, s, batch, order, n - 1), batch[order[n - 1]])
  }

  /** How far the furthest of several runs over a batch has come. */
  function Progress(order: seq<nat>, n: nat): nat
    requires n <= |order|
  {
    if n == 0 then 0
    else if order[n - 1] + 1 > Progress(order, n - 1) then order[n - 1] + 1 else Progress(order, n - 1)
  }

  /** An interleaving of any number of runs, each going through the batch from its start, some perhaps cut short. */
  ghost predicate Interleaving(order: seq<nat>) {
    forall j :: 0 <= j < |order| ==> order[j] <= Progress(order, j)
  }

  /** The stores are as after one run over the part of the batch that was reached. */
  ghost predicate Caught(env: Env, s: State, batch: seq<Option<GraphItem>>, order: seq<nat>, n: nat)
    requires WellFormed(env) && n <= |order| && forall j :: 0 <= j < |order| ==> order[j] < |batch|
  {
    Progress(order, n) <= |batch| && InOrder(env, s, batch, order, n) == Batch(env, s, batch, Progress(order, n))
  }

  lemma NextCaught(env: Env, s: State, batch: seq<Option<GraphItem>>, order: seq<nat>, n: nat)
    requires WellFormed(env) && 0 < n <= |order| && forall j :: 0 <= j < |order| ==> order[j] < |batch|
    requires Interleaving(order) && Caught(env, s, batch, order, n - 1)
    ensures Caught(env, s, batch, order, n)
  {
    OneMore(env, s, batch, Progress(order, n - 1), order[n - 1]);
  }

  lemma FirstCaught(env: Env, s: State, batch: seq<Option<GraphItem>>, order: seq<nat>)
    requires WellFormed(env) && forall j :: 0 <= j < |order| ==> order[j] < |batch|
    ensures Caught(env, s, batch, order, 0)
  {
  }

  /**
   However many copies of a batch are delivered and however their items interleave, each taken whole, the stores end up
   as after one run over the part of the batch that some copy reached. Copies has the interleaving within an item.
   */
  lemma RetriesAreHarmless(env: Env, s: State, batch: seq<Option<GraphItem>>, order: seq<nat>)
    requires WellFormed(env) && Interleaving(order) && forall j :: 0 <= j < |order| ==> order[j] < |batch|
    ensures Caught(env, s, batch, order, |order|)
  {
    var caught := CaughtStays(env, s, batch, order);
    Induct(caught, |order|);
  }

  lemma CaughtStays(env: Env, s: State, batch: seq<Option<GraphItem>>, order: seq<nat>) returns (caught: nat -> bool)
    requires WellFormed(env) && Interleaving(order) && forall j :: 0 <= j < |order| ==> order[j] < |batch|
    ensures caught(0) && forall i: nat {:trigger caught(i)} :: 0 < i <= |order| && caught(i - 1) ==> caught(i)
    ensures caught(|order|) ==> Caught(env, s, batch, order, |order|)
  {
    caught := (n: nat) => n <= |order| && Caught(env, s, batch, order, n);
    FirstCaught(env, s, batch, order);
    forall i: nat | 0 < i <= |order| && caught(i - 1) ensures caught(i) {
      NextCaught(env, s, batch, order, i);
    }
  }

  lemma OneMore(env: Env, s: State, batch: seq<Option<GraphItem>>, p: nat, i: nat)
    requires WellFormed(env) && i <= p <= |batch| && i < |batch|
    ensures Slot(env, Batch(env, s, batch, p), batch[i]) == Batch(env, s, batch, if i == p then p + 1 else p)
  {
    if i < p { Again(env, s, batch, p, i); }
  }

  /** Processing a batch twice is processing it once. */
  lemma {:induction false} BatchIdempotent(env: Env, s: State, batch: seq<Option<GraphItem>>, n: nat)
    requires WellFormed(env) && n <= |batch|
    ensures var once := Batch(env, s, batch, |batch|); Batch(env, once, batch, n) == once
  {
    if n > 0 {
      var once := Batch(env, s, batch, |batch|);
      BatchIdempotent(env, s, batch, n - 1);
      Again(env, s, batch, |batch|, n - 1);
    }
  }

  // ---------- order ----------

  /** Strictly newest first. */
  ghost predicate NewestFirst(l: seq<GraphItem>) {
    forall i, j :: 0 <= i < j < |l| ==> l[i].timestamp > l[j].timestamp
  }

  ghost predicate Ordered(m: FlatMap) {
    forall key :: key in m ==> NewestFirst(m[key].items)
  }

  lemma {:induction false} BatchKeepsOrder(env: Env, s: State, batch: seq<Option<GraphItem>>, n: nat)
    requires WellFormed(env) && n <= |batch| && Ordered(s.items)
    ensures Ordered(Batch(env, s, batch, n).items)
  {
    if n > 0 { BatchKeepsOrder(env, s, batch, n - 1); }
  }

  lemma PopKeepsOrder(m: FlatMap, key: string)
    requires Ordered(m)
    ensures Ordered(Emptied(m, key))
    ensures var popped := FetchAll(m, key).0;
            forall i, j :: 0 <= i < j < |popped| ==> popped[i].timestamp < popped[j].timestamp
  {
  }

  /** Putting a popped batch back keeps the order exactly when nothing accepted meanwhile is as old as its newest. */
  lemma RestoreKeepsOrder(m: FlatMap, key: string, popped: seq<GraphItem>)
    requires key in m && Ordered(m) && NewestFirst(Reverse(popped))
    ensures Ordered(PushAll(m, key, popped))
       <==> popped == [] || m[key].items == []
            || popped[|popped| - 1].timestamp < m[key].items[|m[key].items| - 1].timestamp
  {
    var l, r := m[key].items, Reverse(popped);
    var m' := PushAll(m, key, popped);
    assert m'[key].items == l + r;
    if popped != [] && l != [] {
      assert r[0] == popped[|popped| - 1];
      assert (l + r)[|l| - 1] == l[|l| - 1] && (l + r)[|l|] == r[0];
    }
  }

  /** An empty list accepts an item of any age, so a late item between pop and restore breaks the order. */
  lemma RestoreCanBreakOrder(env: Env, s: State, late: GraphItem, cached: GraphItem)
    requires WellFormed(env) && Acceptable(env, late) && late.timestamp < cached.timestamp
    requires var key := KeyOf(env, late); key in s.items && s.items[key].items == [cached]
    ensures var key := KeyOf(env, late);
            var popped := FetchAll(s.items, key).0;
            var s' := One(env, s.(items := Emptied(s.items, key)), late);
            !Ordered(PushAll(s'.items, key, popped))
  {
    var key := KeyOf(env, late);
    var s' := One(env, s.(items := Emptied(s.items, key)), late);
    var restored := PushAll(s'.items, key, FetchAll(s.items, key).0);
    assert restored[key].items[0] == late && restored[key].items[1] == cached;
  }
}
