/**
 Several copies of one batch at once: each Send that arrives starts a goroutine, and handleItems compares an item with
 the newest cached one, looks its list up, and pushes on that or sets a new one, each under a lock of its own
 (modules/graph/api/graph.go:62-64 and 116-121, modules/graph/store/store.go:173-188). This is about the cached lists,
 which nothing else in handleItems reads or writes.
 */
module Copies {
  import opened Model
  import opened Arithmetic
  import opened FlatStore
  import opened Ingest

  type Slots = seq<Option<GraphItem>>

  // ---------- one run over the batch, as far as the lists go ----------

  ghost function Pushed(env: Env, m: FlatMap, item: GraphItem): FlatMap
    requires WellFormed(env)
  {
    PushFront(m, KeyOf(env, item), item, env.migrate && !HasFile(env, item))
  }

  /** handleItems goes on to PushFront with what is in the slot. */
  ghost predicate LetIn(env: Env, m: FlatMap, slot: Option<GraphItem>) {
    slot.Some? && Acceptable(env, slot.value) && !UpTo(m, KeyOf(env, slot.value), slot.value.timestamp)
  }

  /** handleItems on one slot, as far as the lists go. */
  ghost function Slotted(env: Env, m: FlatMap, slot: Option<GraphItem>): FlatMap
    requires WellFormed(env)
  {
    if LetIn(env, m, slot) then Pushed(env, m, slot.value) else m
  }

  /** The lists after one run over the first n slots. */
  ghost function Lists(env: Env, m: FlatMap, batch: Slots, n: nat): FlatMap
    requires WellFormed(env) && n <= |batch|
  {
    if n == 0 then m else Slotted(env, Lists(env, m, batch, n - 1), batch[n - 1])
  }

  lemma {:induction false} ListsOfBatch(env: Env, s: State, batch: Slots, n: nat)
    requires WellFormed(env) && n <= |batch|
    ensures Batch(env, s, batch, n).items == Lists(env, s.items, batch, n)
  {
    if n > 0 { ListsOfBatch(env, s, batch, n - 1); }
  }

  // ---------- copies ----------

  /** Let in, a copy has still to look the list up; Found is the gen-th list that was ever set under its key. */
  datatype Stage = Testing | Admitted | Found(gen: nat) | Missing

  /** A copy is at a slot; stale says that another item came onto the list of the key since the copy was let in. */
  datatype Copy = Copy(pos: nat, at: Stage, stale: bool)

  /**
   sets: how often a list was set under a key. disturbed: some copy has pushed although it was stale. replaced: some copy
   has set a list where there was one.
   */
  datatype Race = Race(lists: FlatMap, copies: seq<Copy>, sets: map<string, nat>, disturbed: bool, replaced: bool)

  datatype Turn = Test(c: nat) | Get(c: nat) | Put(c: nat)

  function Start(m: FlatMap, copies: nat): Race {
    Race(m, seq(copies, _ => Copy(0, Testing, false)), map[], false, false)
  }

  function Gen(r: Race, key: string): nat {
    if key in r.sets then r.sets[key] else 0
  }

  predicate Enabled(batch: Slots, r: Race, turn: Turn) {
    turn.c < |r.copies| && r.copies[turn.c].pos < |batch|
    && match turn
       case Test(c) => r.copies[c].at == Testing
       case Get(c) => r.copies[c].at == Admitted && batch[r.copies[c].pos].Some?
       case Put(c) => (r.copies[c].at.Found? || r.copies[c].at == Missing) && batch[r.copies[c].pos].Some?
  }

  ghost predicate OnKey(env: Env, batch: Slots, copy: Copy, key: string) {
    copy.at != Testing && copy.pos < |batch| && batch[copy.pos].Some? && KeyOf(env, batch[copy.pos].value) == key
  }

  /** The push of a copy is on the list under the key: it sets it, or found that list. */
  predicate Lands(r: Race, at: Stage, key: string) {
    at == Missing || (at.Found? && at.gen == Gen(r, key))
  }

  /** A new list with the item. */
  ghost function Fresh(env: Env, m: FlatMap, item: GraphItem): FlatMap
    requires WellFormed(env)
  {
    m[KeyOf(env, item) := Entry([item], if env.migrate && !HasFile(env, item) then GRAPH_F_MISS else 0)]
  }

  ghost function Tested(env: Env, batch: Slots, r: Race, c: nat): (r': Race)
    requires Enabled(batch, r, Test(c))
  {
    var copy := r.copies[c];
    r.(copies := r.copies[c := if LetIn(env, r.lists, batch[copy.pos]) then copy.(at := Admitted, stale := false)
                               else copy.(pos := copy.pos + 1)])
  }

  ghost function Looked(env: Env, batch: Slots, r: Race, c: nat): (r': Race)
    requires Enabled(batch, r, Get(c))
  {
    var copy := r.copies[c];
    var key := KeyOf(env, batch[copy.pos].value);
    r.(copies := r.copies[c := copy.(at := if key in r.lists then Found(Gen(r, key)) else Missing)])
  }

  /** The other copies on the key have seen a list that is no longer as it was. */
  ghost function Marked(env: Env, batch: Slots, r: Race, c: nat, key: string): (copies: seq<Copy>)
    requires c < |r.copies|
    ensures |copies| == |r.copies|
  {
    seq(|r.copies|, d requires 0 <= d < |r.copies| =>
      if d == c then Copy(r.copies[c].pos + 1, Testing, false)
      else if OnKey(env, batch, r.copies[d], key) && Lands(r, r.copies[c].at, key) then r.copies[d].(stale := true)
      else r.copies[d])
  }

  ghost function Placed(env: Env, batch: Slots, r: Race, c: nat): (r': Race)
    requires WellFormed(env) && Enabled(batch, r, Put(c))
    ensures |r'.copies| == |r.copies|
  {
    var copy := r.copies[c];
    var item := batch[copy.pos].value;
    var key := KeyOf(env, item);
    var moved := r.(copies := Marked(env, batch, r, c, key), disturbed := r.disturbed || (Lands(r, copy.at, key) && copy.stale));
    if copy.at == Missing then
      moved.(lists := Fresh(env, r.lists, item), sets := r.sets[key := Gen(r, key) + 1],
             replaced := r.replaced || key in r.lists)
    else if Lands(r, copy.at, key) && key in r.lists then moved.(lists := Pushed(env, r.lists, item))
    else moved
  }

  ghost function Do(env: Env, batch: Slots, r: Race, turn: Turn): (r': Race)
    requires WellFormed(env) && Enabled(batch, r, turn)
    ensures |r'.copies| == |r.copies|
  {
    match turn
    case Test(c) => Tested(env, batch, r, c)
    case Get(c) => Looked(env, batch, r, c)
    case Put(c) => Placed(env, batch, r, c)
  }

  ghost function Then(env: Env, batch: Slots, r: Option<Race>, turn: Turn): Option<Race>
    requires WellFormed(env)
  {
    if r.Some? && Enabled(batch, r.value, turn) then Some(Do(env, batch, r.value, turn)) else None
  }

  ghost function Run(env: Env, m: FlatMap, batch: Slots, copies: nat, turns: seq<Turn>, n: nat): Option<Race>
    requires WellFormed(env) && n <= |turns|
  {
    if n == 0 then Some(Start(m, copies)) else Then(env, batch, Run(env, m, batch, copies, turns, n - 1), turns[n - 1])
  }

  lemma RunThen(env: Env, m: FlatMap, batch: Slots, copies: nat, turns: seq<Turn>, n: nat)
    requires WellFormed(env) && 0 < n <= |turns|
    ensures Run(env, m, batch, copies, turns, n)
         == Then(env, batch, Run(env, m, batch, copies, turns, n - 1), turns[n - 1])
  {
  }

  /** A property that holds at the start and stays with every turn. */
  ghost predicate Inductive(env: Env, m: FlatMap, batch: Slots, copies: nat, p: Option<Race> -> bool)
    requires WellFormed(env)
  {
    p(Some(Start(m, copies)))
    && forall r, turn {:trigger p(r), Then(env, batch, r, turn)} :: p(r) ==> p(Then(env, batch, r, turn))
  }

  lemma RunHas(env: Env, m: FlatMap, batch: Slots, copies: nat, turns: seq<Turn>, p: Option<Race> -> bool)
    requires WellFormed(env) && Inductive(env, m, batch, copies, p)
    ensures p(Run(env, m, batch, copies, turns, |turns|))
  {
    var has := RunStays(env, m, batch, copies, turns, p);
    Induct(has, |turns|);
  }

  lemma RunStays(env: Env, m: FlatMap, batch: Slots, copies: nat, turns: seq<Turn>, p: Option<Race> -> bool)
    returns (has: nat -> bool)
    requires WellFormed(env) && Inductive(env, m, batch, copies, p)
    ensures has(0) && forall i: nat {:trigger has(i)} :: 0 < i <= |turns| && has(i - 1) ==> has(i)
    ensures has(|turns|) ==> p(Run(env, m, batch, copies, turns, |turns|))
  {
    has := (n: nat) => n <= |turns| && p(Run(env, m, batch, copies, turns, n));
    assert Run(env, m, batch, copies, turns, 0) == Some(Start(m, copies));
    forall i: nat | 0 < i <= |turns| && has(i - 1) ensures has(i) {
      RunThen(env, m, batch, copies, turns, i);
    }
  }

  /** How far the furthest copy has come. */
  function Furthest(copies: seq<Copy>, n: nat): (p: nat)
    requires n <= |copies|
    ensures forall c :: 0 <= c < n ==> copies[c].pos <= p
    ensures p == 0 || exists c :: 0 <= c < n && copies[c].pos == p
  {
    if n == 0 then 0
    else
      var before := Furthest(copies, n - 1);
      if copies[n - 1].pos > before then copies[n - 1].pos else before
  }

  /** The greatest position is known by what it does. */
  lemma FurthestIs(copies: seq<Copy>, p: nat)
    requires forall c :: 0 <= c < |copies| ==> copies[c].pos <= p
    requires p == 0 || exists c :: 0 <= c < |copies| && copies[c].pos == p
    ensures Furthest(copies, |copies|) == p
  {
  }

  // ---------- undisturbed ----------

  /** What a slot has covered stays covered. */
  lemma SlottedCovers(env: Env, m: FlatMap, slot: Option<GraphItem>, other: Option<GraphItem>)
    requires WellFormed(env)
    ensures !LetIn(env, Slotted(env, m, slot), slot)
    ensures !LetIn(env, m, other) ==> !LetIn(env, Slotted(env, m, slot), other)
  {
  }

  lemma {:induction false} ListsCover(env: Env, m: FlatMap, batch: Slots, i: nat, n: nat)
    requires WellFormed(env) && i < n <= |batch|
    ensures !LetIn(env, Lists(env, m, batch, n), batch[i])
  {
    SlottedCovers(env, Lists(env, m, batch, n - 1), batch[n - 1], batch[i]);
    if i < n - 1 { ListsCover(env, m, batch, i, n - 1); }
  }

  /** The items pushed on a list since it was m's. */
  function New(m: FlatMap, m': FlatMap, key: string): int {
    ItemCnt(m', key) - ItemCnt(m, key)
  }

  /** Each list is strictly newest first down to the one it was, which is still behind. */
  ghost predicate Gained(m: FlatMap, m': FlatMap) {
    && (forall key :: key in m ==>
          (key in m' && New(m, m', key) >= 0 && m'[key].items[New(m, m', key)..] == m[key].items))
    && (forall key, i, j :: key in m' && 0 <= i < j < |m'[key].items| && j <= New(m, m', key) ==>
          m'[key].items[i].timestamp > m'[key].items[j].timestamp)
  }

  lemma {:induction false} ListsGain(env: Env, m: FlatMap, batch: Slots, n: nat)
    requires WellFormed(env) && n <= |batch|
    ensures Gained(m, Lists(env, m, batch, n))
  {
    if n > 0 {
      ListsGain(env, m, batch, n - 1);
      SlottedGains(env, m, Lists(env, m, batch, n - 1), batch[n - 1]);
    }
  }

  lemma SlottedGains(env: Env, m: FlatMap, m': FlatMap, slot: Option<GraphItem>)
    requires WellFormed(env) && Gained(m, m')
    ensures Gained(m, Slotted(env, m', slot))
  {
    if LetIn(env, m', slot) { PushGains(env, m, m', slot.value); }
  }

  lemma PushGains(env: Env, m: FlatMap, m': FlatMap, item: GraphItem)
    requires WellFormed(env) && Gained(m, m') && LetIn(env, m', Some(item))
    ensures Gained(m, Pushed(env, m', item))
  {
    var key, after := KeyOf(env, item), Pushed(env, m', item);
    assert key in m' ==> after[key].items == [item] + m'[key].items;
    forall k | k in m ensures New(m, after, k) >= 0 && after[k].items[New(m, after, k)..] == m[k].items {
    }
    forall k, i, j | k in after && 0 <= i < j < |after[k].items| && j <= New(m, after, k)
      ensures after[k].items[i].timestamp > after[k].items[j].timestamp
    {
      if k == key && k in m' { assert m'[k].items[0].timestamp < item.timestamp; }
    }
  }

  /** A list with an item that is no newer than one pushed before it. */
  ghost predicate Broken(m: FlatMap, m': FlatMap) {
    exists key, i, j :: key in m' && 0 <= i < j < New(m, m', key)
                        && m'[key].items[i].timestamp <= m'[key].items[j].timestamp
  }

  lemma StaysBroken(env: Env, m: FlatMap, m': FlatMap, item: GraphItem)
    requires WellFormed(env) && Broken(m, m')
    ensures Broken(m, Pushed(env, m', item))
  {
    var key, i, j :| key in m' && 0 <= i < j < New(m, m', key)
                     && m'[key].items[i].timestamp <= m'[key].items[j].timestamp;
    var after := Pushed(env, m', item);
    if key == KeyOf(env, item) {
      assert after[key].items == [item] + m'[key].items;
      assert after[key].items[i + 1].timestamp <= after[key].items[j + 1].timestamp;
    } else {
      assert after[key] == m'[key];
    }
  }

  lemma SameFront(m: FlatMap, m': FlatMap, key: string, t: int)
    requires Gained(m, m')
    ensures New(m, m', key) == 0 ==> (UpTo(m, key, t) <==> UpTo(m', key, t))
  {
    if New(m, m', key) == 0 && key in m { assert m'[key].items[0..] == m'[key].items; }
  }

  /** Pushing an item that is no newer than the front of what a list has gained breaks it. */
  lemma Breaks(env: Env, m: FlatMap, m': FlatMap, item: GraphItem)
    requires WellFormed(env) && Gained(m, m') && Acceptable(env, item)
    requires LetIn(env, m, Some(item)) && !LetIn(env, m', Some(item))
    ensures Broken(m, Pushed(env, m', item))
  {
    var key, after := KeyOf(env, item), Pushed(env, m', item);
    SameFront(m, m', key, item.timestamp);
    assert after[key].items == [item] + m'[key].items;
    assert after[key].items[0].timestamp <= after[key].items[1].timestamp;
  }

  // ---------- every run ----------

  /** A copy in an undisturbed run: one that was let in is at the frontier until another copy pushes there first. */
  ghost predicate InPlace(env: Env, m: FlatMap, batch: Slots, r: Race, p: nat, copy: Copy) {
    && copy.pos <= p
    && (copy.at != Testing ==> copy.pos < |batch| && LetIn(env, m, batch[copy.pos]))
    && (copy.at != Testing && !copy.stale ==> LetIn(env, r.lists, batch[copy.pos]))
    && (copy.at != Testing && copy.stale ==> copy.pos < p)
  }

  ghost predicate Sound(env: Env, m: FlatMap, batch: Slots, r: Race, p: nat)
    requires WellFormed(env)
  {
    && p <= |batch| && r.lists == Lists(env, m, batch, p)
    && (p == 0 || exists c :: 0 <= c < |r.copies| && r.copies[c].pos == p)
    && (forall c :: 0 <= c < |r.copies| ==> InPlace(env, m, batch, r, p, r.copies[c]))
  }

  /** What the lists let in now, they would have let in at the start. */
  lemma LetInBefore(env: Env, m: FlatMap, batch: Slots, n: nat, slot: Option<GraphItem>)
    requires WellFormed(env) && n <= |batch| && LetIn(env, Lists(env, m, batch, n), slot)
    ensures LetIn(env, m, slot)
  {
    ListsGain(env, m, batch, n);
    var key, t := KeyOf(env, slot.value), slot.value.timestamp;
    if UpTo(m, key, t) { GainedUpTo(m, Lists(env, m, batch, n), key, t); }
  }

  lemma GainedUpTo(m: FlatMap, m': FlatMap, key: string, t: int)
    requires Gained(m, m') && UpTo(m, key, t)
    ensures UpTo(m', key, t)
  {
    var n := New(m, m', key);
    assert m'[key].items[n..][0] == m[key].items[0];
    assert n > 0 ==> m'[key].items[0].timestamp > m'[key].items[n].timestamp;
  }

  lemma StartSound(env: Env, m: FlatMap, batch: Slots, copies: nat)
    requires WellFormed(env)
    ensures AllKnown(env, m, batch, Some(Start(m, copies)))
  {
    assert Sound(env, m, batch, Start(m, copies), 0);
  }

  /** A test: the copy is let in at the frontier, or passes a slot that would change nothing. */
  lemma FirstSound(env: Env, m: FlatMap, batch: Slots, r: Race, p: nat, c: nat) returns (p': nat)
    requires WellFormed(env) && Enabled(batch, r, Test(c)) && Sound(env, m, batch, r, p)
    ensures Sound(env, m, batch, Do(env, batch, r, Test(c)), p')
  {
    var copy, r' := r.copies[c], Do(env, batch, r, Test(c));
    p' := if LetIn(env, r.lists, batch[copy.pos]) || copy.pos != p then p else p + 1;
    WitnessMoves(r, r', p, p', c);
    TestedInPlace(env, m, batch, r, p, c);
    forall d | 0 <= d < |r'.copies| ensures InPlace(env, m, batch, r', p', r'.copies[d]) {
      if d != c { assert r'.copies[d] == r.copies[d] && InPlace(env, m, batch, r, p, r.copies[d]); }
    }
  }

  lemma TestedInPlace(env: Env, m: FlatMap, batch: Slots, r: Race, p: nat, c: nat)
    requires WellFormed(env) && Enabled(batch, r, Test(c)) && Sound(env, m, batch, r, p)
    ensures var r', go := Tested(env, batch, r, c), !LetIn(env, r.lists, batch[r.copies[c].pos]) && r.copies[c].pos == p;
            InPlace(env, m, batch, r', if go then p + 1 else p, r'.copies[c])
  {
    var slot := batch[r.copies[c].pos];
    assert InPlace(env, m, batch, r, p, r.copies[c]);
    if LetIn(env, r.lists, slot) { LetInBefore(env, m, batch, p, slot); }
  }

  /** Some copy is at the frontier after one of them has moved there or not moved back. */
  lemma WitnessMoves(r: Race, r': Race, p: nat, p': nat, c: nat)
    requires |r'.copies| == |r.copies| && c < |r.copies|
    requires p == 0 || exists d :: 0 <= d < |r.copies| && r.copies[d].pos == p
    requires forall d :: 0 <= d < |r.copies| && d != c ==> r'.copies[d].pos == r.copies[d].pos
    requires r'.copies[c].pos == p' || (p' == p && r.copies[c].pos != p) || p' == 0
    ensures p' == 0 || exists d :: 0 <= d < |r'.copies| && r'.copies[d].pos == p'
  {
    if r'.copies[c].pos != p' && p' != 0 {
      var d :| 0 <= d < |r.copies| && r.copies[d].pos == p;
      assert r'.copies[d].pos == p;
    }
  }

  /** A look-up moves nothing. */
  lemma GetSound(env: Env, m: FlatMap, batch: Slots, r: Race, p: nat, c: nat)
    requires WellFormed(env) && Enabled(batch, r, Get(c)) && Sound(env, m, batch, r, p)
    ensures Sound(env, m, batch, Do(env, batch, r, Get(c)), p)
  {
    var r' := Do(env, batch, r, Get(c));
    assert r'.copies[c].pos == r.copies[c].pos && r'.copies[c].stale == r.copies[c].stale;
    WitnessMoves(r, r', p, p, c);
    forall d | 0 <= d < |r'.copies| ensures InPlace(env, m, batch, r', p, r'.copies[d]) {
      assert InPlace(env, m, batch, r, p, r.copies[d]);
    }
  }

  /** A list that was found is the one under the key. */
  ghost predicate Fits(env: Env, batch: Slots, r: Race, copy: Copy) {
    copy.at.Found? && copy.pos < |batch| && batch[copy.pos].Some? ==>
      var key := KeyOf(env, batch[copy.pos].value);
      key in r.lists && copy.at.gen == Gen(r, key)
  }

  ghost predicate Current(env: Env, batch: Slots, r: Race) {
    forall c :: 0 <= c < |r.copies| ==> Fits(env, batch, r, r.copies[c])
  }

  /** While no list is replaced every put is a push on the list under the key. */
  lemma PutIsPush(env: Env, batch: Slots, r: Race, c: nat)
    requires WellFormed(env) && Enabled(batch, r, Put(c)) && Current(env, batch, r)
    requires !Do(env, batch, r, Put(c)).replaced
    ensures var item := batch[r.copies[c].pos].value;
            && Lands(r, r.copies[c].at, KeyOf(env, item))
            && Do(env, batch, r, Put(c)).lists == Pushed(env, r.lists, item)
  {
    assert Fits(env, batch, r, r.copies[c]);
  }

  /** Another copy is where it was. */
  lemma OthersStay(env: Env, batch: Slots, r: Race, turn: Turn, d: nat)
    requires WellFormed(env) && Enabled(batch, r, turn) && d < |r.copies| && d != turn.c
    ensures var copy, copy' := r.copies[d], Do(env, batch, r, turn).copies[d];
            copy'.pos == copy.pos && copy'.at == copy.at && (!turn.Put? ==> copy' == copy)
  {
  }

  lemma PutCurrent(env: Env, batch: Slots, r: Race, c: nat, d: nat)
    requires WellFormed(env) && Enabled(batch, r, Put(c)) && Current(env, batch, r)
    requires !Do(env, batch, r, Put(c)).replaced && d < |r.copies|
    ensures Fits(env, batch, Do(env, batch, r, Put(c)), Do(env, batch, r, Put(c)).copies[d])
  {
    assert Fits(env, batch, r, r.copies[d]);
    if d != c { OthersStay(env, batch, r, Put(c), d); }
  }

  lemma StepCurrent(env: Env, batch: Slots, r: Race, turn: Turn)
    requires WellFormed(env) && Enabled(batch, r, turn) && Current(env, batch, r) && !Do(env, batch, r, turn).replaced
    ensures Current(env, batch, Do(env, batch, r, turn))
  {
    var r' := Do(env, batch, r, turn);
    forall d | 0 <= d < |r'.copies| ensures Fits(env, batch, r', r'.copies[d]) {
      if turn.Put? {
        PutCurrent(env, batch, r, turn.c, d);
      } else {
        assert Fits(env, batch, r, r.copies[d]);
        if d != turn.c { OthersStay(env, batch, r, turn, d); }
      }
    }
  }

  /** A push that nothing came between is the frontier's. */
  lemma PushSound(env: Env, m: FlatMap, batch: Slots, r: Race, p: nat, c: nat)
    requires WellFormed(env) && Enabled(batch, r, Put(c)) && Sound(env, m, batch, r, p) && !r.copies[c].stale
    requires Current(env, batch, r) && !Do(env, batch, r, Put(c)).replaced
    ensures r.copies[c].pos == p < |batch| && Sound(env, m, batch, Do(env, batch, r, Put(c)), p + 1)
  {
    var copy, r' := r.copies[c], Do(env, batch, r, Put(c));
    PutIsPush(env, batch, r, c);
    if copy.pos < p { ListsCover(env, m, batch, copy.pos, p); }
    var item := batch[copy.pos].value;
    forall d | 0 <= d < |r'.copies| ensures InPlace(env, m, batch, r', p + 1, r'.copies[d]) {
      assert InPlace(env, m, batch, r, p, r.copies[d]);
      if d != c { OthersInPlace(env, m, batch, r, p, r.copies[d], item); }
    }
    assert r'.copies[c].pos == p + 1;
  }

  lemma OthersInPlace(env: Env, m: FlatMap, batch: Slots, r: Race, p: nat, copy: Copy, item: GraphItem)
    requires WellFormed(env) && InPlace(env, m, batch, r, p, copy)
    ensures var lists, key := Pushed(env, r.lists, item), KeyOf(env, item);
            InPlace(env, m, batch, r.(lists := lists), p + 1,
                    if OnKey(env, batch, copy, key) then copy.(stale := true) else copy)
  {
  }

  /** The first push that another one came before breaks its list. */
  lemma StalePushBreaks(env: Env, m: FlatMap, batch: Slots, r: Race, p: nat, c: nat)
    requires WellFormed(env) && Enabled(batch, r, Put(c)) && Sound(env, m, batch, r, p) && r.copies[c].stale
    requires Current(env, batch, r) && !Do(env, batch, r, Put(c)).replaced
    ensures Broken(m, Do(env, batch, r, Put(c)).lists)
  {
    var copy := r.copies[c];
    PutIsPush(env, batch, r, c);
    ListsCover(env, m, batch, copy.pos, p);
    ListsGain(env, m, batch, p);
    Breaks(env, m, r.lists, batch[copy.pos].value);
  }

  ghost predicate BrokenOrSound(env: Env, m: FlatMap, batch: Slots, r: Race)
    requires WellFormed(env)
  {
    if r.disturbed then Broken(m, r.lists) else exists p :: Sound(env, m, batch, r, p)
  }

  /** What holds in every run until a list is replaced, undisturbed or not. */
  ghost predicate Known(env: Env, m: FlatMap, batch: Slots, r: Race)
    requires WellFormed(env)
  {
    !r.replaced ==> Current(env, batch, r) && BrokenOrSound(env, m, batch, r)
  }

  lemma PutKnown(env: Env, m: FlatMap, batch: Slots, r: Race, c: nat)
    requires WellFormed(env) && Enabled(batch, r, Put(c)) && !Do(env, batch, r, Put(c)).replaced
    requires Current(env, batch, r) && BrokenOrSound(env, m, batch, r)
    ensures BrokenOrSound(env, m, batch, Do(env, batch, r, Put(c)))
  {
    PutIsPush(env, batch, r, c);
    if r.disturbed {
      StaysBroken(env, m, r.lists, batch[r.copies[c].pos].value);
    } else {
      var p :| Sound(env, m, batch, r, p);
      if r.copies[c].stale {
        StalePushBreaks(env, m, batch, r, p, c);
      } else {
        PushSound(env, m, batch, r, p, c);
      }
    }
  }

  lemma ReadKnown(env: Env, m: FlatMap, batch: Slots, r: Race, turn: Turn)
    requires WellFormed(env) && Enabled(batch, r, turn) && !turn.Put? && BrokenOrSound(env, m, batch, r)
    ensures BrokenOrSound(env, m, batch, Do(env, batch, r, turn))
  {
    if !r.disturbed {
      var p :| Sound(env, m, batch, r, p);
      if turn.Test? {
        var p' := FirstSound(env, m, batch, r, p, turn.c);
      } else {
        GetSound(env, m, batch, r, p, turn.c);
      }
    }
  }

  lemma TurnKnown(env: Env, m: FlatMap, batch: Slots, r: Race, turn: Turn)
    requires WellFormed(env) && Enabled(batch, r, turn) && Known(env, m, batch, r)
    ensures Known(env, m, batch, Do(env, batch, r, turn))
  {
    if !Do(env, batch, r, turn).replaced {
      StepCurrent(env, batch, r, turn);
      if turn.Put? { PutKnown(env, m, batch, r, turn.c); } else { ReadKnown(env, m, batch, r, turn); }
    }
  }

  ghost predicate AllKnown(env: Env, m: FlatMap, batch: Slots, r: Option<Race>)
    requires WellFormed(env)
  {
    r.Some? ==> Known(env, m, batch, r.value)
  }

  lemma ThenKnown(env: Env, m: FlatMap, batch: Slots, r: Option<Race>, turn: Turn)
    requires WellFormed(env) && AllKnown(env, m, batch, r)
    ensures AllKnown(env, m, batch, Then(env, batch, r, turn))
  {
    if r.Some? && Enabled(batch, r.value, turn) { TurnKnown(env, m, batch, r.value, turn); }
  }

  lemma RunKnown(env: Env, m: FlatMap, batch: Slots, copies: nat, turns: seq<Turn>)
    requires WellFormed(env)
    ensures AllKnown(env, m, batch, Run(env, m, batch, copies, turns, |turns|))
  {
    StartSound(env, m, batch, copies);
    forall r, turn | AllKnown(env, m, batch, r) ensures AllKnown(env, m, batch, Then(env, batch, r, turn)) {
      ThenKnown(env, m, batch, r, turn);
    }
    RunHas(env, m, batch, copies, turns, r => AllKnown(env, m, batch, r));
  }

  /**
   However many copies of a batch there are, and however their tests, look-ups and pushes interleave: unless a copy sets a
   list over another's, the cached lists end as after one run over the part of the batch that some copy reached exactly
   when no push came onto a list between a copy's test and its own push there.
   */
  lemma CopiesHarmlessExactly(env: Env, m: FlatMap, batch: Slots, copies: nat, turns: seq<Turn>)
    requires WellFormed(env) && Run(env, m, batch, copies, turns, |turns|).Some?
    ensures var r := Run(env, m, batch, copies, turns, |turns|).value;
            var p := Furthest(r.copies, |r.copies|);
            p <= |batch| && (!r.replaced ==> (r.lists == Lists(env, m, batch, p) <==> !r.disturbed))
  {
    RunKnown(env, m, batch, copies, turns);
    RunBounded(env, m, batch, copies, turns);
    var r := Run(env, m, batch, copies, turns, |turns|).value;
    if !r.replaced { OutcomeExact(env, m, batch, r); }
  }

  lemma OutcomeExact(env: Env, m: FlatMap, batch: Slots, r: Race)
    requires WellFormed(env) && BrokenOrSound(env, m, batch, r) && Furthest(r.copies, |r.copies|) <= |batch|
    ensures r.lists == Lists(env, m, batch, Furthest(r.copies, |r.copies|)) <==> !r.disturbed
  {
    var p := Furthest(r.copies, |r.copies|);
    if r.disturbed {
      ListsGain(env, m, batch, p);
      BrokenIsNotGained(m, r.lists);
    } else {
      var q :| Sound(env, m, batch, r, q);
      FurthestIs(r.copies, q);
    }
  }

  /** Every item that can go in finds a list at the start. */
  ghost predicate Present(env: Env, m: FlatMap, batch: Slots) {
    forall i :: 0 <= i < |batch| && batch[i].Some? && Acceptable(env, batch[i].value) ==> KeyOf(env, batch[i].value) in m
  }

  /** A copy on a key that has a list, or at none. */
  ghost predicate HasList(env: Env, m: FlatMap, batch: Slots, copy: Copy) {
    && copy.at != Missing
    && (copy.at == Admitted && copy.pos < |batch| && batch[copy.pos].Some? ==> KeyOf(env, batch[copy.pos].value) in m)
  }

  /** Such lists are never replaced: no copy is without one. */
  ghost predicate AllFound(env: Env, m: FlatMap, batch: Slots, r: Race) {
    && !r.replaced && m.Keys <= r.lists.Keys
    && forall c :: 0 <= c < |r.copies| ==> HasList(env, m, batch, r.copies[c])
  }

  lemma ListsStay(env: Env, m: FlatMap, batch: Slots, r: Race, turn: Turn)
    requires WellFormed(env) && Enabled(batch, r, turn) && AllFound(env, m, batch, r)
    ensures var r' := Do(env, batch, r, turn); !r'.replaced && m.Keys <= r'.lists.Keys
  {
    assert HasList(env, m, batch, r.copies[turn.c]);
  }

  lemma ItsListFound(env: Env, m: FlatMap, batch: Slots, r: Race, turn: Turn)
    requires WellFormed(env) && Present(env, m, batch) && Enabled(batch, r, turn) && AllFound(env, m, batch, r)
    ensures HasList(env, m, batch, Do(env, batch, r, turn).copies[turn.c])
  {
    assert HasList(env, m, batch, r.copies[turn.c]);
  }

  lemma StepFound(env: Env, m: FlatMap, batch: Slots, r: Race, turn: Turn)
    requires WellFormed(env) && Present(env, m, batch) && Enabled(batch, r, turn) && AllFound(env, m, batch, r)
    ensures AllFound(env, m, batch, Do(env, batch, r, turn))
  {
    var r' := Do(env, batch, r, turn);
    ListsStay(env, m, batch, r, turn);
    forall d | 0 <= d < |r'.copies| ensures HasList(env, m, batch, r'.copies[d]) {
      if d == turn.c {
        ItsListFound(env, m, batch, r, turn);
      } else {
        assert HasList(env, m, batch, r.copies[d]);
        OthersStay(env, batch, r, turn, d);
      }
    }
  }

  ghost predicate NoneReplaced(env: Env, m: FlatMap, batch: Slots, r: Option<Race>) {
    r.Some? ==> AllFound(env, m, batch, r.value)
  }

  lemma ThenFound(env: Env, m: FlatMap, batch: Slots, r: Option<Race>, turn: Turn)
    requires WellFormed(env) && Present(env, m, batch) && NoneReplaced(env, m, batch, r)
    ensures NoneReplaced(env, m, batch, Then(env, batch, r, turn))
  {
    if r.Some? && Enabled(batch, r.value, turn) { StepFound(env, m, batch, r.value, turn); }
  }

  /** So for series that are cached already the condition is exact in every run. */
  lemma PresentNotReplaced(env: Env, m: FlatMap, batch: Slots, copies: nat, turns: seq<Turn>)
    requires WellFormed(env) && Present(env, m, batch) && Run(env, m, batch, copies, turns, |turns|).Some?
    ensures !Run(env, m, batch, copies, turns, |turns|).value.replaced
  {
    forall r, turn | NoneReplaced(env, m, batch, r) ensures NoneReplaced(env, m, batch, Then(env, batch, r, turn)) {
      ThenFound(env, m, batch, r, turn);
    }
    RunHas(env, m, batch, copies, turns, r => NoneReplaced(env, m, batch, r));
  }

  lemma BrokenIsNotGained(m: FlatMap, m': FlatMap)
    requires Broken(m, m')
    ensures !Gained(m, m')
  {
  }

  ghost predicate Bounded(batch: Slots, r: Option<Race>) {
    r.Some? ==> forall c :: 0 <= c < |r.value.copies| ==> r.value.copies[c].pos <= |batch|
  }

  lemma ThenBounded(env: Env, batch: Slots, r: Option<Race>, turn: Turn)
    requires WellFormed(env) && Bounded(batch, r)
    ensures Bounded(batch, Then(env, batch, r, turn))
  {
    if r.Some? && Enabled(batch, r.value, turn) { StepBounded(env, batch, r.value, turn); }
  }

  lemma RunBounded(env: Env, m: FlatMap, batch: Slots, copies: nat, turns: seq<Turn>)
    requires WellFormed(env)
    ensures Bounded(batch, Run(env, m, batch, copies, turns, |turns|))
  {
    forall r, turn | Bounded(batch, r) ensures Bounded(batch, Then(env, batch, r, turn)) {
      ThenBounded(env, batch, r, turn);
    }
    RunHas(env, m, batch, copies, turns, r => Bounded(batch, r));
  }

  lemma StepBounded(env: Env, batch: Slots, r: Race, turn: Turn)
    requires WellFormed(env) && Enabled(batch, r, turn) && forall c :: 0 <= c < |r.copies| ==> r.copies[c].pos <= |batch|
    ensures var r' := Do(env, batch, r, turn); forall c :: 0 <= c < |r'.copies| ==> r'.copies[c].pos <= |batch|
  {
    var r' := Do(env, batch, r, turn);
    forall d | 0 <= d < |r'.copies| ensures r'.copies[d].pos <= |batch| {
      if d != turn.c { OthersStay(env, batch, r, turn, d); }
    }
  }

  // ---------- two copies of one item ----------

  lemma RunNext(env: Env, m: FlatMap, batch: Slots, copies: nat, turns: seq<Turn>, n: nat, r: Race) returns (r': Race)
    requires WellFormed(env) && n < |turns| && Run(env, m, batch, copies, turns, n) == Some(r)
    requires Enabled(batch, r, turns[n])
    ensures r' == Do(env, batch, r, turns[n]) && Run(env, m, batch, copies, turns, n + 1) == Some(r')
  {
    r' := Do(env, batch, r, turns[n]);
  }

  const READY := Copy(0, Admitted, false)

  /** Both have been let in. */
  lemma BothTest(env: Env, m: FlatMap, item: GraphItem, turns: seq<Turn>) returns (r: Race)
    requires WellFormed(env) && LetIn(env, m, Some(item)) && |turns| == 6 && turns[0] == Test(0) && turns[1] == Test(1)
    ensures Run(env, m, [Some(item)], 2, turns, 2) == Some(r) && r == Race(m, [READY, READY], map[], false, false)
  {
    var batch := [Some(item)];
    assert Run(env, m, batch, 2, turns, 0) == Some(Start(m, 2));
    r := RunNext(env, m, batch, 2, turns, 0, Start(m, 2));
    assert r == Race(m, [READY, Copy(0, Testing, false)], map[], false, false);
    r := RunNext(env, m, batch, 2, turns, 1, r);
  }

  /** A copy of an item whose list is there looks it up and pushes on it. */
  lemma Finds(env: Env, r: Race, item: GraphItem, c: nat)
    requires WellFormed(env) && c < 2 == |r.copies| && r.copies[c].pos == 0 && r.copies[c].at == Admitted
    requires KeyOf(env, item) in r.lists && Enabled([Some(item)], r, Get(c))
    ensures var r1 := Do(env, [Some(item)], r, Get(c));
            && r1 == r.(copies := r1.copies) && r1.copies[c].pos == 0 && r1.copies[1 - c] == r.copies[1 - c]
            && r1.copies[c] == Copy(0, Found(Gen(r, KeyOf(env, item))), r.copies[c].stale)
  {
  }

  lemma FindsNone(env: Env, r: Race, item: GraphItem, c: nat)
    requires WellFormed(env) && c < 2 == |r.copies| && r.copies[c].pos == 0 && r.copies[c].at == Admitted
    requires KeyOf(env, item) !in r.lists && Enabled([Some(item)], r, Get(c))
    ensures var r1 := Do(env, [Some(item)], r, Get(c));
            && r1 == r.(copies := r1.copies) && r1.copies[1 - c] == r.copies[1 - c]
            && r1.copies[c] == Copy(0, Missing, r.copies[c].stale)
  {
  }

  lemma Puts(env: Env, r: Race, item: GraphItem, c: nat)
    requires WellFormed(env) && c < 2 == |r.copies| && r.copies[c].pos == 0
    requires Enabled([Some(item)], r, Put(c)) && Lands(r, r.copies[c].at, KeyOf(env, item))
    requires r.copies[c].at == Missing || KeyOf(env, item) in r.lists
    ensures var r1, key := Do(env, [Some(item)], r, Put(c)), KeyOf(env, item);
            && |r1.copies| == 2
            && (r.copies[1 - c].at != Testing && r.copies[1 - c].pos == 0 ==>
                  r1.copies[1 - c] == r.copies[1 - c].(stale := true))
            && r1.disturbed == (r.disturbed || r.copies[c].stale)
            && r1.replaced == (r.replaced || (r.copies[c].at == Missing && key in r.lists))
            && r1.lists == (if r.copies[c].at == Missing then Fresh(env, r.lists, item) else Pushed(env, r.lists, item))
  {
  }

  lemma FreshIsPushed(env: Env, m: FlatMap, item: GraphItem)
    requires WellFormed(env) && KeyOf(env, item) !in m
    ensures Fresh(env, m, item) == Pushed(env, m, item)
  {
  }

  /** After two tests the first copy looks its list up and pushes. */
  lemma FirstPushes(env: Env, m: FlatMap, item: GraphItem, turns: seq<Turn>) returns (r: Race)
    requires WellFormed(env) && LetIn(env, m, Some(item)) && |turns| == 6
    requires turns[0] == Test(0) && turns[1] == Test(1) && turns[2] == Get(0) && turns[3] == Put(0)
    ensures Run(env, m, [Some(item)], 2, turns, 4) == Some(r) && |r.copies| == 2
    ensures r.lists == Pushed(env, m, item) && !r.replaced && r.copies[1] == READY.(stale := true)
  {
    var batch, key := [Some(item)], KeyOf(env, item);
    r := BothTest(env, m, item, turns);
    if key in m { Finds(env, r, item, 0); } else { FindsNone(env, r, item, 0); FreshIsPushed(env, m, item); }
    r := RunNext(env, m, batch, 2, turns, 2, r);
    Puts(env, r, item, 0);
    r := RunNext(env, m, batch, 2, turns, 3, r);
  }

  /** The first copy pushes before the second looks its list up: the item is cached twice, whatever there was before. */
  lemma TwoCopies(env: Env, m: FlatMap, item: GraphItem)
    requires WellFormed(env) && LetIn(env, m, Some(item))
    ensures var r := Run(env, m, [Some(item)], 2, [Test(0), Test(1), Get(0), Put(0), Get(1), Put(1)], 6);
            r.Some? && r.value.disturbed && !r.value.replaced && KeyOf(env, item) in r.value.lists
            && [item, item] <= r.value.lists[KeyOf(env, item)].items
  {
    var batch, turns := [Some(item)], [Test(0), Test(1), Get(0), Put(0), Get(1), Put(1)];
    var r := FirstPushes(env, m, item, turns);
    Finds(env, r, item, 1);
    r := RunNext(env, m, batch, 2, turns, 4, r);
    Puts(env, r, item, 1);
    r := RunNext(env, m, batch, 2, turns, 5, r);
    PushedTwice(env, m, item);
  }

  lemma PushedTwice(env: Env, m: FlatMap, item: GraphItem)
    requires WellFormed(env)
    ensures var twice, key := Pushed(env, Pushed(env, m, item), item), KeyOf(env, item);
            key in twice && [item, item] <= twice[key].items
  {
  }

  /**
   On a new key, both looking up before either sets: the second list replaces the first by the same one, and the lists are
   those of one run all the same. So a replacement is not harmful in itself; what it can lose is in Creation.
   */
  lemma CrossedCopies(env: Env, m: FlatMap, item: GraphItem)
    requires WellFormed(env) && LetIn(env, m, Some(item)) && KeyOf(env, item) !in m
    ensures var r := Run(env, m, [Some(item)], 2, [Test(0), Test(1), Get(0), Get(1), Put(0), Put(1)], 6);
            r.Some? && r.value.replaced && r.value.lists == Lists(env, m, [Some(item)], 1)
  {
    var batch, turns := [Some(item)], [Test(0), Test(1), Get(0), Get(1), Put(0), Put(1)];
    var r := BothTest(env, m, item, turns);
    FindsNone(env, r, item, 0);
    r := RunNext(env, m, batch, 2, turns, 2, r);
    FindsNone(env, r, item, 1);
    r := RunNext(env, m, batch, 2, turns, 3, r);
    Puts(env, r, item, 0);
    r := RunNext(env, m, batch, 2, turns, 4, r);
    Puts(env, r, item, 1);
    r := RunNext(env, m, batch, 2, turns, 5, r);
    FreshTwice(env, m, item);
  }

  lemma FreshTwice(env: Env, m: FlatMap, item: GraphItem)
    requires WellFormed(env) && LetIn(env, m, Some(item)) && KeyOf(env, item) !in m
    ensures Fresh(env, Fresh(env, m, item), item) == Lists(env, m, [Some(item)], 1)
  {
    FreshIsPushed(env, m, item);
    assert Lists(env, m, [Some(item)], 0) == m;
  }
}
