/**
 The incremental index update of modules/graph/index/index_update_incr_task.go while items keep arriving: the task
 looks an entry up, removes it, and leaves it to a goroutine that updates the database and then indexes it. These are
 separate steps; an arriving item and a deletion are one each.
 */
module IndexUpdate {
  import opened Model
  import opened Index

  /** An entry the task has looked up; it may not be out of the cache yet. */
  datatype Held = Held(key: string, entry: IndexCacheItem, removed: bool)

  /**
   newest: the entry of the last item received of each series, unless that was discarded since; failed: those with a
   failed update since; lost: those whose newest entry a step has dropped, see Loses.
   */
  datatype State = State(caches: Caches, held: seq<Held>, newest: Cache, failed: set<string>, lost: set<string>)

  datatype Step =
    | Receive(item: GraphItem, fileExists: bool)
    | Discard(key: string)
    | LookUp(key: string)
    | RemoveEntry(i: nat)
    | Finish(i: nat, dbOk: bool)

  const INIT := State(Caches(map[], map[]), [], map[], {}, {})

  predicate Enabled(s: State, step: Step) {
    match step
    case LookUp(key) => key in s.caches.unIndexed
    case RemoveEntry(i) => i < |s.held| && !s.held[i].removed
    case Finish(i, _) => i < |s.held| && s.held[i].removed
    case _ => true
  }

  predicate Has(c: Cache, key: string, entry: IndexCacheItem) {
    key in c && c[key] == entry
  }

  predicate Holds(held: seq<Held>, key: string, entry: IndexCacheItem) {
    exists i :: 0 <= i < |held| && held[i].key == key && held[i].entry == entry
  }

  /**
   The step drops the newest entry: the task removes it in place of an older one it has looked up; an older one that has
   been updated is put over it; or its own update fails. There is no other copy.
   */
  predicate Loses(s: State, step: Step)
    requires Enabled(s, step)
  {
    match step
    case RemoveEntry(i) =>
      var key := s.held[i].key;
      && key in s.newest && Has(s.caches.unIndexed, key, s.newest[key]) && !Has(s.caches.indexed, key, s.newest[key])
      && !Holds(s.held, key, s.newest[key])
    case Finish(i, dbOk) =>
      var key, entry := s.held[i].key, s.held[i].entry;
      && key in s.newest && !Has(s.caches.unIndexed, key, s.newest[key])
      && !Holds(RemoveAt(s.held, i), key, s.newest[key])
      && if dbOk then Has(s.caches.indexed, key, s.newest[key]) && entry != s.newest[key]
         else !Has(s.caches.indexed, key, s.newest[key]) && entry == s.newest[key]
    case _ => false
  }

  function Losing(s: State, i: nat, step: Step): set<string>
    requires Enabled(s, step) && i < |s.held|
  {
    if Loses(s, step) then s.lost + {s.held[i].key} else s.lost
  }

  ghost function Do(md5: string -> string, s: State, step: Step): State
    requires Enabled(s, step)
  {
    var c := s.caches;
    match step
    case Receive(item, fileExists) =>
      var sum := ChecksumOf(md5, item);
      s.(caches := Index.Receive(c, sum, item, fileExists), newest := s.newest[sum := Entry(item)],
         failed := s.failed - {sum}, lost := s.lost - {sum})
    case Discard(key) =>
      s.(caches := Caches(c.indexed - {key}, c.unIndexed - {key}), newest := s.newest - {key})
    case LookUp(key) => s.(held := s.held + [Held(key, c.unIndexed[key], false)])
    case RemoveEntry(i) =>
      s.(caches := c.(unIndexed := c.unIndexed - {s.held[i].key}), held := s.held[i := s.held[i].(removed := true)],
         lost := Losing(s, i, step))
    case Finish(i, dbOk) =>
      var h := s.held[i];
      var s' := s.(held := RemoveAt(s.held, i), lost := Losing(s, i, step));
      if dbOk then s'.(caches := c.(indexed := c.indexed[h.key := h.entry])) else s'.(failed := s.failed + {h.key})
  }

  ghost function Then(md5: string -> string, r: Option<State>, step: Step): Option<State> {
    if r.Some? && Enabled(r.value, step) then Some(Do(md5, r.value, step)) else None
  }

  ghost function Run(md5: string -> string, steps: seq<Step>, n: nat): Option<State>
    requires n <= |steps|
  {
    if n == 0 then Some(INIT)
    else Then(md5, Run(md5, steps, n - 1), steps[n - 1])
  }

  // ---------- a series stays somewhere ----------

  predicate Updating(held: seq<Held>, key: string) {
    exists i :: 0 <= i < |held| && held[i].key == key
  }

  predicate Somewhere(s: State, key: string) {
    key in s.caches.indexed || key in s.caches.unIndexed || Updating(s.held, key) || key in s.failed
  }

  ghost predicate AllMatch(md5: string -> string, s: State) {
    && Matching(md5, s.caches.indexed) && Matching(md5, s.caches.unIndexed)
    && (forall i :: 0 <= i < |s.held| ==>
          s.held[i].key == ChecksumOf(md5, s.held[i].entry.item) && s.held[i].entry == Entry(s.held[i].entry.item))
  }

  /** The newest entry is in a cache or in an update. */
  predicate Survives(s: State, key: string)
    requires key in s.newest
  {
    || Has(s.caches.indexed, key, s.newest[key]) || Has(s.caches.unIndexed, key, s.newest[key])
    || Holds(s.held, key, s.newest[key])
  }

  ghost predicate Keeps(md5: string -> string, s: State) {
    && AllMatch(md5, s)
    && (forall key :: key in s.newest ==> Somewhere(s, key))
    && (forall key :: key in s.newest ==> (Survives(s, key) <==> key !in s.lost))
  }

  /** What is in another update stays there. */
  lemma OthersStill(held: seq<Held>, i: nat, key: string)
    requires i < |held| && Updating(held, key) && key != held[i].key
    ensures Updating(RemoveAt(held, i), key)
  {
    var j :| 0 <= j < |held| && held[j].key == key;
    assert RemoveAt(held, i)[if j < i then j else j - 1] == held[j];
  }

  lemma OthersHold(held: seq<Held>, i: nat, key: string, entry: IndexCacheItem)
    requires i < |held| && !(held[i].key == key && held[i].entry == entry)
    ensures Holds(RemoveAt(held, i), key, entry) <==> Holds(held, key, entry)
  {
    var rest := RemoveAt(held, i);
    if Holds(held, key, entry) {
      var j :| 0 <= j < |held| && held[j].key == key && held[j].entry == entry;
      assert rest[if j < i then j else j - 1] == held[j];
    }
    if Holds(rest, key, entry) {
      var j :| 0 <= j < |rest| && rest[j].key == key && rest[j].entry == entry;
      assert held[if j < i then j else j + 1] == rest[j];
    }
  }

  lemma FinishKeeps(md5: string -> string, s: State, i: nat, dbOk: bool)
    requires Enabled(s, Finish(i, dbOk)) && Keeps(md5, s)
    ensures Keeps(md5, Do(md5, s, Finish(i, dbOk)))
  {
    var s' := Do(md5, s, Finish(i, dbOk));
    forall key | key in s'.newest ensures Somewhere(s', key) {
      if Updating(s.held, key) && key != s.held[i].key { OthersStill(s.held, i, key); }
    }
    forall key | key in s'.newest ensures Survives(s', key) <==> key !in s'.lost {
      FinishExact(md5, s, i, dbOk, key);
    }
  }

  lemma FinishExact(md5: string -> string, s: State, i: nat, dbOk: bool, key: string)
    requires Enabled(s, Finish(i, dbOk)) && key in s.newest && (Survives(s, key) <==> key !in s.lost)
    ensures var s' := Do(md5, s, Finish(i, dbOk)); Survives(s', key) <==> key !in s'.lost
  {
    var h, entry := s.held[i], s.newest[key];
    if h.key == key && h.entry == entry {
      assert Holds(s.held, key, entry);
    } else {
      OthersHold(s.held, i, key, entry);
    }
  }

  /** A mark on one of them changes nothing of what the updates hold. */
  lemma MarkHolds(held: seq<Held>, i: nat, key: string, entry: IndexCacheItem)
    requires i < |held|
    ensures var held' := held[i := held[i].(removed := true)];
            && (Holds(held', key, entry) <==> Holds(held, key, entry))
            && (Updating(held', key) <==> Updating(held, key))
  {
    var held' := held[i := held[i].(removed := true)];
    assert forall j :: 0 <= j < |held| ==> held'[j].key == held[j].key && held'[j].entry == held[j].entry;
  }

  lemma RemoveKeeps(md5: string -> string, s: State, i: nat)
    requires Enabled(s, RemoveEntry(i)) && Keeps(md5, s)
    ensures Keeps(md5, Do(md5, s, RemoveEntry(i)))
  {
    var s' := Do(md5, s, RemoveEntry(i));
    forall key | key in s'.newest ensures Somewhere(s', key) && (Survives(s', key) <==> key !in s'.lost) {
      MarkHolds(s.held, i, key, s.newest[key]);
    }
  }

  lemma MoreHolds(held: seq<Held>, h: Held, key: string, entry: IndexCacheItem)
    ensures Holds(held + [h], key, entry) <==> Holds(held, key, entry) || (h.key == key && h.entry == entry)
    ensures Updating(held + [h], key) <==> Updating(held, key) || h.key == key
  {
    var more := held + [h];
    assert more[|held|] == h;
    assert forall j :: 0 <= j < |held| ==> more[j] == held[j];
  }

  lemma LookUpKeeps(md5: string -> string, s: State, key: string)
    requires Enabled(s, LookUp(key)) && Keeps(md5, s)
    ensures Keeps(md5, Do(md5, s, LookUp(key)))
  {
    var s' := Do(md5, s, LookUp(key));
    forall k | k in s'.newest ensures Somewhere(s', k) && (Survives(s', k) <==> k !in s'.lost) {
      MoreHolds(s.held, Held(key, s.caches.unIndexed[key], false), k, s.newest[k]);
    }
  }

  lemma ReceiveKeeps(md5: string -> string, s: State, item: GraphItem, fileExists: bool)
    requires Keeps(md5, s)
    ensures Keeps(md5, Do(md5, s, Receive(item, fileExists)))
  {
    ReceiveMatching(md5, s.caches, item, fileExists);
    var s', sum := Do(md5, s, Receive(item, fileExists)), ChecksumOf(md5, item);
    ReceivedThere(s.caches, sum, item, fileExists);
    forall key | key in s'.newest ensures Somewhere(s', key) && (Survives(s', key) <==> key !in s'.lost) {
      if key != sum {
        ReceivedElsewhere(s.caches, sum, item, fileExists, key);
        assert Somewhere(s, key) && (Survives(s, key) <==> key !in s.lost);
      }
    }
  }

  lemma ReceivedThere(c: Caches, sum: string, item: GraphItem, fileExists: bool)
    ensures var c' := Index.Receive(c, sum, item, fileExists);
            Has(c'.indexed, sum, Entry(item)) || Has(c'.unIndexed, sum, Entry(item))
  {
  }

  lemma ReceivedElsewhere(c: Caches, sum: string, item: GraphItem, fileExists: bool, key: string)
    requires key != sum
    ensures var c' := Index.Receive(c, sum, item, fileExists);
            && (key in c'.indexed <==> key in c.indexed) && (key in c'.unIndexed <==> key in c.unIndexed)
            && (key in c.indexed ==> c'.indexed[key] == c.indexed[key])
            && (key in c.unIndexed ==> c'.unIndexed[key] == c.unIndexed[key])
  {
  }

  lemma DiscardKeeps(md5: string -> string, s: State, key: string)
    requires Keeps(md5, s)
    ensures Keeps(md5, Do(md5, s, Discard(key)))
  {
  }

  lemma StepKeeps(md5: string -> string, s: State, step: Step)
    requires Enabled(s, step) && Keeps(md5, s)
    ensures Keeps(md5, Do(md5, s, step))
  {
    match step
    case Receive(item, fileExists) => ReceiveKeeps(md5, s, item, fileExists);
    case Discard(key) => DiscardKeeps(md5, s, key);
    case LookUp(key) => LookUpKeeps(md5, s, key);
    case RemoveEntry(i) => RemoveKeeps(md5, s, i);
    case Finish(i, dbOk) => FinishKeeps(md5, s, i, dbOk);
  }

  // ---------- every run ----------

  ghost predicate Kept(md5: string -> string, r: Option<State>) {
    r.Some? ==> Keeps(md5, r.value)
  }

  lemma ThenKept(md5: string -> string, r: Option<State>, step: Step)
    requires Kept(md5, r)
    ensures Kept(md5, Then(md5, r, step))
  {
    if r.Some? && Enabled(r.value, step) { StepKeeps(md5, r.value, step); }
  }

  lemma InitKept(md5: string -> string)
    ensures Kept(md5, Some(INIT))
  {
  }

  lemma {:induction false} RunKept(md5: string -> string, steps: seq<Step>, n: nat)
    requires n <= |steps|
    ensures Kept(md5, Run(md5, steps, n))
  {
    if n == 0 {
      InitKept(md5);
    } else {
      RunKept(md5, steps, n - 1);
      ThenKept(md5, Run(md5, steps, n - 1), steps[n - 1]);
    }
  }

  /**
   In every run: a series received and not discarded since is indexed, waits to be, is in an update, or had one that
   failed since; its newest entry is in one of these places exactly when no step has lost it; and every entry carries
   the checksum and UUID of its own item.
   */
  lemma RunKeeps(md5: string -> string, steps: seq<Step>)
    requires Run(md5, steps, |steps|).Some?
    ensures var s := Run(md5, steps, |steps|).value;
            && AllMatch(md5, s)
            && (forall key :: key in s.newest ==> Somewhere(s, key))
            && (forall key :: key in s.newest ==> (Survives(s, key) <==> key !in s.lost))
  {
    RunKept(md5, steps, |steps|);
  }

  // ---------- a newer entry that is lost ----------

  lemma RunNext(md5: string -> string, steps: seq<Step>, n: nat, s: State)
    requires n < |steps| && Run(md5, steps, n) == Some(s) && Enabled(s, steps[n])
    ensures Run(md5, steps, n + 1) == Some(Do(md5, s, steps[n]))
  {
  }

  function Waiting(sum: string, e: IndexCacheItem, held: seq<Held>): State {
    State(Caches(map[], map[sum := e]), held, map[sum := e], {}, {})
  }

  lemma FirstArrives(md5: string -> string, a: GraphItem)
    ensures Do(md5, INIT, Receive(a, false)) == Waiting(ChecksumOf(md5, a), Entry(a), [])
  {
    assert {} - {ChecksumOf(md5, a)} == {};
  }

  lemma LooksUp(md5: string -> string, sum: string, e: IndexCacheItem)
    ensures Do(md5, Waiting(sum, e, []), LookUp(sum)) == Waiting(sum, e, [Held(sum, e, false)])
  {
  }

  lemma SecondArrives(md5: string -> string, e: IndexCacheItem, b: GraphItem, held: seq<Held>)
    ensures Do(md5, Waiting(ChecksumOf(md5, b), e, held), Receive(b, false)) == Waiting(ChecksumOf(md5, b), Entry(b), held)
  {
    assert {} - {ChecksumOf(md5, b)} == {};
  }

  /** The entry looked up is not the one that is removed. */
  lemma RemovesNewer(md5: string -> string, sum: string, e: IndexCacheItem, e': IndexCacheItem)
    requires e != e'
    ensures Do(md5, Waiting(sum, e', [Held(sum, e, false)]), RemoveEntry(0))
         == State(Caches(map[], map[]), [Held(sum, e, true)], map[sum := e'], {}, {sum})
  {
    var s := Waiting(sum, e', [Held(sum, e, false)]);
    assert !Holds(s.held, sum, e');
    assert s.lost + {sum} == {sum};
    assert s.caches.unIndexed - {sum} == map[];
  }

  lemma OlderFinishes(md5: string -> string, sum: string, e: IndexCacheItem, e': IndexCacheItem)
    requires e != e'
    ensures Do(md5, State(Caches(map[], map[]), [Held(sum, e, true)], map[sum := e'], {}, {sum}), Finish(0, true))
         == State(Caches(map[sum := e], map[]), [], map[sum := e'], {}, {sum})
  {
    assert RemoveAt([Held(sum, e, true)], 0) == [];
  }

  /** An item with a new type or step that comes between the task's look-up and its removal: only the old one is indexed. */
  lemma NewerEntryLost(md5: string -> string, a: GraphItem, b: GraphItem)
    requires ChecksumOf(md5, a) == ChecksumOf(md5, b) && Entry(a) != Entry(b)
    ensures var sum := ChecksumOf(md5, a);
            Run(md5, [Receive(a, false), LookUp(sum), Receive(b, false), RemoveEntry(0), Finish(0, true)], 5)
            == Some(State(Caches(map[sum := Entry(a)], map[]), [], map[sum := Entry(b)], {}, {sum}))
  {
    var sum := ChecksumOf(md5, a);
    var steps := [Receive(a, false), LookUp(sum), Receive(b, false), RemoveEntry(0), Finish(0, true)];
    var held := [Held(sum, Entry(a), false)];
    FirstArrives(md5, a);
    RunNext(md5, steps, 0, INIT);
    LooksUp(md5, sum, Entry(a));
    RunNext(md5, steps, 1, Waiting(sum, Entry(a), []));
    SecondArrives(md5, Entry(a), b, held);
    RunNext(md5, steps, 2, Waiting(sum, Entry(a), held));
    RemovesNewer(md5, sum, Entry(a), Entry(b));
    RunNext(md5, steps, 3, Waiting(sum, Entry(b), held));
    OlderFinishes(md5, sum, Entry(a), Entry(b));
    RunNext(md5, steps, 4, State(Caches(map[], map[]), [Held(sum, Entry(a), true)], map[sum := Entry(b)], {}, {sum}));
  }
}
