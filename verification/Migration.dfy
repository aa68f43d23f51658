/**
 The migration protocol for one series between its old node and its new one: modules/graph/rrdtool/migrate.go,
 with the parts of rrdtool.go and api/graph.go that touch the same list, flag word and file. Every locked store
 call, RPC and disk task is one atomic step; steps of the pool of net workers, the sweeper, receivers and the old
 node interleave freely.
 */
module Migration {
  import opened Model
  import opened FlatStore
  import opened OldSide

  /** The bits of the flag word that migration uses. */
  datatype Flags = Flags(miss: bool, sending: bool, fetching: bool)

  const NO_FLAGS := Flags(false, false, false)

  function FlagsOf(word: bv32): Flags {
    Flags(word & GRAPH_F_MISS != 0, word & GRAPH_F_SENDING != 0, word & GRAPH_F_FETCHING != 0)
  }

  // The source's word operations, bit by bit.

  lemma MarkWord(word: bv32)
    ensures FlagsOf(word | GRAPH_F_SENDING) == FlagsOf(word).(sending := true)
    ensures FlagsOf(word | GRAPH_F_FETCHING) == FlagsOf(word).(fetching := true)
  {
    assert (word | 4) & 1 == word & 1 && (word | 4) & 4 == 4 && (word | 4) & 8 == word & 8;
    assert (word | 8) & 1 == word & 1 && (word | 8) & 4 == word & 4 && (word | 8) & 8 == 8;
  }

  lemma UnmarkSending(word: bv32)
    ensures FlagsOf(ClearSending(word)) == FlagsOf(word).(sending := false)
  {
    var w := word & 0xFFFF_FFFB;
    assert w & 1 == word & 1 && w & 4 == 0 && w & 8 == word & 8;
  }

  lemma UnmarkFetching(word: bv32)
    ensures FlagsOf(ClearFetching(word)) == FlagsOf(word).(fetching := false)
  {
    var w := word & 0xFFFF_FFF7;
    assert w & 1 == word & 1 && w & 4 == word & 4 && w & 8 == 0;
  }

  lemma UnmarkMiss(word: bv32)
    ensures FlagsOf(ClearMiss(word)) == FlagsOf(word).(miss := false)
  {
    var w := word & 0xFFFF_FFFE;
    assert w & 1 == 0 && w & 4 == word & 4 && w & 8 == word & 8;
  }

  /** A store entry: the list, newest first, and its flags. */
  datatype Cached = Cached(items: Items, flag: Flags)

  /**
   An answer of GetRrd: the file it read, everything the old node had accepted when the call popped the list, and how
   the batches popped by then stood when it read.
   */
  datatype Fetch = Fetch(body: Items, answered: Items, allWritten: bool, inOrder: bool)

  /** Where one net worker stands, with its local copy of the flag word. */
  datatype Worker =
    | Idle
    | SendMark(flag: Flags)                           // send_data has read the flag
    | SendPop(flag: Flags)                            // and marked it SENDING
    | SendCall(flag: Flags, items: Items, tries: nat) // holds the popped batch; tries calls have failed
    | SendRestore(flag: Flags, items: Items)
    | SendDone(flag: Flags)
    | FetchMark(flag: Flags)                          // fetch_rrd has read the flag
    | FetchCall(flag: Flags, tries: nat)              // and marked it FETCHING
    | FetchServe(flag: Flags, tries: nat, upTo: nat, mine: bool) // GetRrd has popped; upTo batches so far, the last mine
    | FetchWrite(flag: Flags, got: Fetch)
    | FetchDone(flag: Flags, wrote: Option<Fetch>, notExist: bool)
    | ClearFlag
    | ClearCommit

  /** A push on the list of the born-th entry. */
  datatype Pending = Pending(item: GraphItem, born: nat)

  datatype Sweep = Resting | Saw(seen: Flags) | Committing

  /** Items on their way into the list. */
  datatype Arriving = Arriving(
    looked: Items,               // let in by handleItems' test, their PushFront still to come
    making: seq<Cached>,         // entries that a PushFront has made for a missing key, not yet set
    pushing: seq<Pending>)       // PushFronts that have found a list and not yet pushed on it

  /** What has happened so far. */
  datatype Trace = Trace(
    accepted: Items,             // everything handleItems took, in order
    handed: seq<Items>,          // batches handed to FlushFile
    acked: seq<Items>,           // batches whose Send returned no error
    peer: seq<Items>,            // batches delivered to the old node
    discarded: seq<Items>)       // dropped with a removed or replaced entry, or by a delete request

  datatype State = State(
    arriving: Arriving,
    entry: Option<Cached>,       // the new node's list, newest first, and flag word
    born: nat,                   // how many entries the key has had
    file: Option<Items>,         // its rrd file, as the log of items written
    workers: seq<Worker>,
    pulls: nat,                  // queued PULL tasks
    sweep: Sweep,
    inHand: seq<Items>,          // popped by a flush and not yet handed to FlushFile
    old_: OldNode,
    trace: Trace,
    removed: bool,               // an entry was removed, or replaced by one that was made meanwhile
    deleted: bool,               // a delete request has come
    cleared: Option<Fetch>)      // the answer that cleared MISS

  datatype Step =
    | Look(item: GraphItem)
    | Receive(i: nat)
    | PushOn(i: nat)
    | SetNew(i: nat)
    | SweepRead
    | SweepAct(due: bool)
    | SweepPop
    | ForcedPop                                      // the shutdown flush, or a GetRrd served here
    | Hand(i: nat, ok: bool)
    | Start(w: nat, send: bool)
    | Work(w: nat, delivered: bool, ok: bool, diskOk: bool, notExist: bool)
    | Remove
    | Delete
    | OldLook(item: GraphItem)
    | OldReceive(i: nat)
    | OldPop                                         // a sweep there, or a GetRrd nobody waits for any more
    | OldHand(i: nat, ok: bool)                      // the FlushFile of whoever popped batch i

  function Init(workers: nat): State {
    State(Arriving([], [], []), None, 0, None, seq(workers, _ => Idle), 0, Resting, [], NEW_NODE,
          Trace([], [], [], [], []), false, false, None)
  }

  // ---------- list operations on an entry that may be gone ----------

  function ListOf(e: Option<Cached>): Items {
    if e.Some? then e.value.items else []
  }

  function WithFlag(e: Option<Cached>, flag: Flags): Option<Cached> {
    if e.Some? then Some(e.value.(flag := flag)) else None
  }

  function WithList(e: Option<Cached>, items: Items): Option<Cached> {
    if e.Some? then Some(e.value.(items := items)) else None
  }

  function Log(file: Option<Items>): Items {
    if file.Some? then file.value else []
  }

  // ---------- the new node ----------

  /** PopAll for a flush. */
  function Popped(s: State): State {
    if ListOf(s.entry) == [] then s
    else s.(entry := WithList(s.entry, []), inHand := s.inHand + [Reverse(ListOf(s.entry))])
  }

  function SetWorker(s: State, w: nat, worker: Worker): State
    requires w < |s.workers|
  {
    s.(workers := s.workers[w := worker])
  }

  /** First: the item is compared with the newest one cached. */
  function Looked(s: State, item: GraphItem): State {
    if Takes(ListOf(s.entry), item) then s.(arriving := s.arriving.(looked := s.arriving.looked + [item])) else s
  }

  /** PushFront looks the key up; for a missing one it makes a list. */
  function Received(s: State, i: nat): State
    requires i < |s.arriving.looked|
  {
    var a := s.arriving.(looked := RemoveAt(s.arriving.looked, i));
    var item := s.arriving.looked[i];
    s.(arriving := if s.entry.None? then a.(making := a.making + [Cached([item], NO_FLAGS.(miss := s.file.None?))])
                   else a.(pushing := a.pushing + [Pending(item, s.born)]))
  }

  function Accepts(t: Trace, items: Items): Trace {
    t.(accepted := t.accepted + items)
  }

  function Discards(t: Trace, items: Items): Trace {
    if items == [] then t else t.(discarded := t.discarded + [items])
  }

  /** It pushes on the list it found, which is nobody's any more if its entry is gone. */
  function PushedOn(s: State, i: nat): State
    requires i < |s.arriving.pushing|
  {
    var push, a := s.arriving.pushing[i], s.arriving.(pushing := RemoveAt(s.arriving.pushing, i));
    var t := Accepts(s.trace, [push.item]);
    if s.entry.Some? && push.born == s.born then
      s.(arriving := a, trace := t, entry := WithList(s.entry, [push.item] + s.entry.value.items))
    else s.(arriving := a, trace := Discards(t, [push.item]))
  }

  /** Or it sets the list it made, whatever is under the key by now. */
  function Settled(s: State, i: nat): State
    requires i < |s.arriving.making|
  {
    var made := s.arriving.making[i];
    s.(arriving := s.arriving.(making := RemoveAt(s.arriving.making, i)), entry := Some(made), born := s.born + 1,
       trace := Discards(Accepts(s.trace, made.items), Reverse(ListOf(s.entry))), removed := s.removed || s.entry.Some?)
  }

  // ---------- a net worker ----------

  /** A SetFlag by worker w, which goes on as next. */
  function Flagged(s: State, w: nat, flag: Flags, next: Worker): State
    requires w < |s.workers|
  {
    s.(entry := WithFlag(s.entry, flag), workers := s.workers[w := next])
  }

  // send_data, migrate.go:272-299

  function PopToSend(s: State, w: nat, flag: Flags): State
    requires w < |s.workers|
  {
    if ListOf(s.entry) == [] then SetWorker(s, w, SendDone(flag))
    else s.(entry := WithList(s.entry, []), workers := s.workers[w := SendCall(flag, Reverse(ListOf(s.entry)), 0)])
  }

  /** A batch that a call brings across, or not, and that is acknowledged, or not. */
  function Delivers(t: Trace, items: Items, delivered: bool, ok: bool): Trace {
    t.(peer := if delivered then t.peer + [items] else t.peer,
       acked := if delivered && ok then t.acked + [items] else t.acked)
  }

  function CallSend(s: State, w: nat, flag: Flags, items: Items, tries: nat, delivered: bool, ok: bool): State
    requires w < |s.workers|
  {
    s.(trace := Delivers(s.trace, items, delivered, ok),
       workers := s.workers[w := if delivered && ok then SendDone(flag)
                                 else if tries + 1 < 3 then SendCall(flag, items, tries + 1)
                                 else SendRestore(flag, items)])
  }

  function Restore(s: State, w: nat, flag: Flags, items: Items): State
    requires w < |s.workers|
  {
    if s.entry.None? then s.(trace := Discards(s.trace, items), workers := s.workers[w := SendDone(flag)])
    else s.(entry := WithList(s.entry, s.entry.value.items + Reverse(items)), workers := s.workers[w := SendDone(flag)])
  }

  // fetch_rrd, migrate.go:319-354

  /** The call failed or was given up: another try, or the end. */
  function Retry(s: State, w: nat, flag: Flags, tries: nat, notExist: bool): State
    requires w < |s.workers|
  {
    SetWorker(s, w, if tries + 1 < 3 then FetchCall(flag, tries + 1) else FetchDone(flag, None, notExist))
  }

  /** The call arrives and GetRrd pops the list, graph.go:49. */
  function CallGetRrd(s: State, w: nat, flag: Flags, tries: nat, delivered: bool, notExist: bool): State
    requires w < |s.workers|
  {
    if !delivered then Retry(s, w, flag, tries, notExist)
    else
      var o := OldPops(s.old_);
      s.(old_ := o, workers := s.workers[w := FetchServe(flag, tries, |o.batches|, s.old_.list != [])])
  }

  predicate Waiting(o: OldNode, upTo: nat, mine: bool) {
    mine && 0 < upTo <= |o.batches| && o.batches[upTo - 1].status == InHand
  }

  /** GetRrd reads the file once its own batch has been flushed, graph.go:51-54; an answer without a file is an error. */
  function ServeGetRrd(s: State, w: nat, flag: Flags, tries: nat, upTo: nat, mine: bool, ok: bool, notExist: bool): State
    requires w < |s.workers|
  {
    if !ok then Retry(s, w, flag, tries, notExist)
    else if upTo > |s.old_.batches| || Waiting(s.old_, upTo, mine) then s
    else if FileOf(s.old_).None? then Retry(s, w, flag, tries, notExist)
    else SetWorker(s, w, FetchWrite(flag, Answered(s.old_, upTo)))
  }

  function Answered(o: OldNode, upTo: nat): Fetch
    requires upTo <= |o.batches| && FileOf(o).Some?
  {
    Fetch(FileOf(o).value, Joined(o.batches, upTo), AllWritten(o, upTo), InOrder(o, upTo))
  }

  /** The file must not exist yet. */
  function WriteFile(s: State, w: nat, flag: Flags, got: Fetch, diskOk: bool, notExist: bool): State
    requires w < |s.workers|
  {
    if s.file.None? && diskOk then
      s.(file := Some(got.body), workers := s.workers[w := FetchDone(flag.(miss := false), Some(got), false)])
    else SetWorker(s, w, FetchDone(flag, None, notExist))
  }

  function EndFetch(s: State, w: nat, flag: Flags, wrote: Option<Fetch>, notExist: bool): State
    requires w < |s.workers|
  {
    s.(entry := WithFlag(s.entry, flag.(fetching := false)), workers := s.workers[w := if notExist then ClearFlag else Idle],
       cleared := if wrote.Some? && s.entry.Some? then wrote else s.cleared)
  }

  predicate Sending(wk: Worker) {
    wk.SendMark? || wk.SendPop? || wk.SendCall? || wk.SendRestore? || wk.SendDone?
  }

  predicate Fetching(wk: Worker) {
    wk.FetchMark? || wk.FetchCall? || wk.FetchServe? || wk.FetchWrite? || wk.FetchDone?
  }

  /** The next action of worker w; the booleans are the outcomes of its RPC or disk task. */
  function Worked(s: State, w: nat, delivered: bool, ok: bool, diskOk: bool, notExist: bool): (s': State)
    requires w < |s.workers|
    ensures |s'.workers| == |s.workers|
  {
    match s.workers[w]
    case Idle => s
    case SendMark(flag) => Flagged(s, w, flag.(sending := true), SendPop(flag))
    case SendPop(flag) => PopToSend(s, w, flag)
    case SendCall(flag, items, tries) => CallSend(s, w, flag, items, tries, delivered, ok)
    case SendRestore(flag, items) => Restore(s, w, flag, items)
    case SendDone(flag) => Flagged(s, w, flag.(sending := false), Idle)
    case FetchMark(flag) => Flagged(s, w, flag.(fetching := true), FetchCall(flag, 0))
    case FetchCall(flag, tries) => CallGetRrd(s, w, flag, tries, delivered, notExist)
    case FetchServe(flag, tries, upTo, mine) => ServeGetRrd(s, w, flag, tries, upTo, mine, ok, notExist)
    case FetchWrite(flag, got) => WriteFile(s, w, flag, got, diskOk, notExist)
    case FetchDone(flag, wrote, gone) => EndFetch(s, w, flag, wrote, gone)
    // net_task_worker, migrate.go:193-194
    case ClearFlag => Flagged(s, w, NO_FLAGS, ClearCommit)
    case ClearCommit => SetWorker(Popped(s), w, Idle)
  }

  // ---------- the other steps ----------

  /** FlushRRD without force acts on the flag it has read. */
  function Swept(s: State, seen: Flags, due: bool): State {
    if seen.miss then s.(sweep := Resting, pulls := if ListOf(s.entry) == [] then s.pulls else s.pulls + 1)
    else s.(sweep := if due then Committing else Resting)
  }

  /** FlushFile; its error is dropped. */
  function HandedOver(s: State, i: nat, ok: bool): State
    requires i < |s.inHand|
  {
    s.(inHand := RemoveAt(s.inHand, i), trace := s.trace.(handed := s.trace.handed + [s.inHand[i]]),
       file := if ok then Some(Log(s.file) + s.inHand[i]) else s.file)
  }

  /** A worker takes a PULL task; a key that is gone ends it at once. */
  function Started(s: State, w: nat, send: bool): State
    requires w < |s.workers| && s.pulls > 0
  {
    if s.entry.None? then s.(pulls := s.pulls - 1)
    else s.(pulls := s.pulls - 1, workers := s.workers[w :=
              if send then SendMark(s.entry.value.flag) else FetchMark(s.entry.value.flag)])
  }

  function Removed(s: State): State {
    s.(entry := None, removed := true, trace := Discards(s.trace, Reverse(ListOf(s.entry))))
  }

  /** Delete, index.go:70-77: the items are popped and the file is removed; the entry stays. */
  function Deleted(s: State): State {
    s.(entry := WithList(s.entry, []), file := None, deleted := true,
       trace := Discards(s.trace, Reverse(ListOf(s.entry))))
  }

  predicate Enabled(s: State, step: Step) {
    match step
    case Receive(i) => i < |s.arriving.looked|
    case PushOn(i) => i < |s.arriving.pushing|
    case SetNew(i) => i < |s.arriving.making|
    case SweepRead => s.sweep == Resting && s.entry.Some?
    case SweepAct(_) => s.sweep.Saw?
    case SweepPop => s.sweep == Committing
    case Hand(i, _) => i < |s.inHand|
    case Start(w, _) => w < |s.workers| && s.workers[w] == Idle && s.pulls > 0
    case Work(w, _, _, _, _) => w < |s.workers| && s.workers[w] != Idle
    case Remove => s.entry.Some?
    case OldReceive(i) => i < |s.old_.looked|
    case OldHand(i, _) => i < |s.old_.batches| && s.old_.batches[i].status == InHand
    case _ => true
  }

  function Do(s: State, step: Step): (s': State)
    requires Enabled(s, step)
    ensures |s'.workers| == |s.workers|
  {
    match step
    case Look(item) => Looked(s, item)
    case Receive(i) => Received(s, i)
    case PushOn(i) => PushedOn(s, i)
    case SetNew(i) => Settled(s, i)
    case SweepRead => s.(sweep := Saw(s.entry.value.flag))
    case SweepAct(due) => Swept(s, s.sweep.seen, due)
    case SweepPop => Popped(s).(sweep := Resting)
    case ForcedPop => Popped(s)
    case Hand(i, ok) => HandedOver(s, i, ok)
    case Start(w, send) => Started(s, w, send)
    case Work(w, delivered, ok, diskOk, notExist) => Worked(s, w, delivered, ok, diskOk, notExist)
    case Remove => Removed(s)
    case Delete => Deleted(s)
    case OldLook(item) => s.(old_ := OldLooks(s.old_, item))
    case OldReceive(i) => s.(old_ := OldTakes(s.old_, i))
    case OldPop => s.(old_ := OldPops(s.old_))
    case OldHand(i, ok) => s.(old_ := OldHands(s.old_, i, ok))
  }

  /** The state after the first n steps of a run, None if one of them was not possible. */
  function Run(workers: nat, steps: seq<Step>, n: nat): Option<State>
    requires n <= |steps|
  {
    if n == 0 then Some(Init(workers)) else Then(Run(workers, steps, n - 1), steps[n - 1])
  }

  function Then(r: Option<State>, step: Step): Option<State> {
    if r.Some? && Enabled(r.value, step) then Some(Do(r.value, step)) else None
  }

  /** A set of states that holds the first one and, with a state, what follows it. */
  ghost predicate Closed(workers: nat, r: State -> bool) {
    r(Init(workers)) && forall s, step {:trigger r(s), Do(s, step)} :: r(s) && Enabled(s, step) ==> r(Do(s, step))
  }

  /** It holds every state of every run. */
  lemma {:induction false} RunInside(workers: nat, r: State -> bool, steps: seq<Step>, n: nat)
    requires n <= |steps| && Closed(workers, r) && Run(workers, steps, n).Some?
    ensures r(Run(workers, steps, n).value)
  {
    if n > 0 { RunInside(workers, r, steps, n - 1); }
  }

  // ---------- conservation ----------

  /** How often x occurs among the first n items. */
  function CountTo(items: Items, n: nat, x: GraphItem): nat
    requires n <= |items|
  {
    if n == 0 then 0 else CountTo(items, n - 1, x) + if items[n - 1] == x then 1 else 0
  }

  function Count(items: Items, x: GraphItem): nat {
    CountTo(items, |items|, x)
  }

  lemma {:induction false} CountConcat(a: Items, b: Items, n: nat, x: GraphItem)
    requires n <= |b|
    ensures CountTo(a + b, |a| + n, x) == Count(a, x) + CountTo(b, n, x)
  {
    if n > 0 {
      CountConcat(a, b, n - 1, x);
    } else {
      CountPrefix(a, b, |a|, x);
    }
  }

  lemma {:induction false} CountPrefix(a: Items, b: Items, n: nat, x: GraphItem)
    requires n <= |a|
    ensures CountTo(a + b, n, x) == CountTo(a, n, x)
  {
    if n > 0 { CountPrefix(a, b, n - 1, x); }
  }

  lemma {:induction false} CountPositive(items: Items, n: nat, x: GraphItem)
    requires n <= |items|
    ensures CountTo(items, n, x) > 0 <==> exists i :: 0 <= i < n && items[i] == x
  {
    if n > 0 { CountPositive(items, n - 1, x); }
  }

  ghost function CountAll(batches: seq<Items>, x: GraphItem): nat {
    if batches == [] then 0 else CountAll(batches[..|batches| - 1], x) + Count(batches[|batches| - 1], x)
  }

  function Batch(w: Worker): Items {
    if w.SendCall? || w.SendRestore? then w.items else []
  }

  ghost function CountHeld(ws: seq<Worker>, n: nat, x: GraphItem): nat
    requires n <= |ws|
  {
    if n == 0 then 0 else CountHeld(ws, n - 1, x) + Count(Batch(ws[n - 1]), x)
  }

  /** The copies that were accepted and did not leave the node for good. */
  ghost function Retained(t: Trace, x: GraphItem): int {
    Count(t.accepted, x) - CountAll(t.handed, x) - CountAll(t.acked, x) - CountAll(t.discarded, x)
  }

  /** Every accepted copy of an item is in exactly one place. */
  ghost predicate Balanced(s: State, x: GraphItem) {
    Retained(s.trace, x) == Count(ListOf(s.entry), x) + CountHeld(s.workers, |s.workers|, x) + CountAll(s.inHand, x)
  }

  lemma CountJoin(a: Items, b: Items, x: GraphItem)
    ensures Count(a + b, x) == Count(a, x) + Count(b, x)
  {
    CountConcat(a, b, |b|, x);
  }

  lemma CountSnoc(bs: seq<Items>, b: Items, x: GraphItem)
    ensures CountAll(bs + [b], x) == CountAll(bs, x) + Count(b, x)
  {
    assert (bs + [b])[..|bs|] == bs;
  }

  lemma {:induction false} CountRemove(bs: seq<Items>, i: nat, x: GraphItem)
    requires i < |bs|
    ensures CountAll(bs, x) == CountAll(RemoveAt(bs, i), x) + Count(bs[i], x)
  {
    var n := |bs| - 1;
    if i == n {
      assert RemoveAt(bs, i) == bs[..n];
    } else {
      CountRemove(bs[..n], i, x);
      assert RemoveAt(bs, i)[..n - 1] == RemoveAt(bs[..n], i);
    }
  }

  lemma {:induction false} HeldUpdate(ws: seq<Worker>, n: nat, w: nat, wk: Worker, x: GraphItem)
    requires w < |ws| && n <= |ws|
    ensures CountHeld(ws[w := wk], n, x)
         == CountHeld(ws, n, x) + if w < n then Count(Batch(wk), x) - Count(Batch(ws[w]), x) else 0
  {
    if n > 0 { HeldUpdate(ws, n - 1, w, wk, x); }
  }

  lemma {:induction false} CountReverse(s: Items, x: GraphItem)
    ensures Count(Reverse(s), x) == Count(s, x)
  {
    if s != [] {
      var n := |s| - 1;
      CountReverse(s[..n], x);
      assert s == s[..n] + [s[n]];
      CountConcat(s[..n], [s[n]], 1, x);
      assert Reverse(s) == [s[n]] + Reverse(s[..n]);
      CountConcat([s[n]], Reverse(s[..n]), n, x);
    }
  }

  lemma AcceptsKept(t: Trace, items: Items, x: GraphItem)
    ensures Retained(Accepts(t, items), x) == Retained(t, x) + Count(items, x)
  {
    CountJoin(t.accepted, items, x);
  }

  lemma DiscardsKept(t: Trace, items: Items, x: GraphItem)
    ensures Retained(Discards(t, items), x) == Retained(t, x) - Count(items, x)
  {
    CountSnoc(t.discarded, items, x);
  }

  lemma DeliversKept(t: Trace, items: Items, delivered: bool, ok: bool, x: GraphItem)
    ensures Retained(Delivers(t, items, delivered, ok), x) == Retained(t, x) - if delivered && ok then Count(items, x) else 0
  {
    CountSnoc(t.acked, items, x);
  }

  // what a worker does

  lemma PoppedBalances(s: State, x: GraphItem)
    requires Balanced(s, x)
    ensures Balanced(Popped(s), x)
  {
    CountReverse(ListOf(s.entry), x);
    CountSnoc(s.inHand, Reverse(ListOf(s.entry)), x);
  }

  lemma PopToSendBalances(s: State, w: nat, flag: Flags, x: GraphItem)
    requires w < |s.workers| && Batch(s.workers[w]) == [] && Balanced(s, x)
    ensures Balanced(PopToSend(s, w, flag), x)
  {
    CountReverse(ListOf(s.entry), x);
    HeldUpdate(s.workers, |s.workers|, w, PopToSend(s, w, flag).workers[w], x);
  }

  lemma CallSendBalances(s: State, w: nat, flag: Flags, items: Items, tries: nat, delivered: bool, ok: bool, x: GraphItem)
    requires w < |s.workers| && Batch(s.workers[w]) == items && Balanced(s, x)
    ensures Balanced(CallSend(s, w, flag, items, tries, delivered, ok), x)
  {
    DeliversKept(s.trace, items, delivered, ok, x);
    HeldUpdate(s.workers, |s.workers|, w, CallSend(s, w, flag, items, tries, delivered, ok).workers[w], x);
  }

  lemma RestoreBalances(s: State, w: nat, flag: Flags, items: Items, x: GraphItem)
    requires w < |s.workers| && Batch(s.workers[w]) == items && Balanced(s, x)
    ensures Balanced(Restore(s, w, flag, items), x)
  {
    HeldUpdate(s.workers, |s.workers|, w, SendDone(flag), x);
    if s.entry.None? {
      DiscardsKept(s.trace, items, x);
    } else {
      CountReverse(items, x);
      CountJoin(s.entry.value.items, Reverse(items), x);
    }
  }

  /** An action that moves no items: neither the list, nor a batch, nor the trace changes. */
  ghost predicate MovesNothing(s: State, s': State, w: nat) {
    && w < |s.workers| == |s'.workers| && s'.workers == s.workers[w := s'.workers[w]]
    && Batch(s.workers[w]) == [] && Batch(s'.workers[w]) == []
    && ListOf(s'.entry) == ListOf(s.entry) && s'.trace == s.trace && s'.inHand == s.inHand
  }

  lemma NothingMoves(s: State, s': State, w: nat, x: GraphItem)
    requires MovesNothing(s, s', w) && Balanced(s, x)
    ensures Balanced(s', x)
  {
    HeldUpdate(s.workers, |s.workers|, w, s'.workers[w], x);
  }

  predicate MovesItems(wk: Worker) {
    wk.SendPop? || wk.SendCall? || wk.SendRestore? || wk.ClearCommit?
  }

  lemma FlaggedMovesNothing(s: State, w: nat, flag: Flags, next: Worker)
    requires w < |s.workers| && Batch(s.workers[w]) == [] && Batch(next) == []
    ensures MovesNothing(s, Flagged(s, w, flag, next), w)
  {
  }

  lemma CallMovesNothing(s: State, w: nat, delivered: bool, ok: bool, diskOk: bool, notExist: bool)
    requires w < |s.workers| && (s.workers[w].FetchCall? || s.workers[w].FetchServe?)
    ensures MovesNothing(s, Worked(s, w, delivered, ok, diskOk, notExist), w)
  {
  }

  lemma WriteMovesNothing(s: State, w: nat, delivered: bool, ok: bool, diskOk: bool, notExist: bool)
    requires w < |s.workers| && (s.workers[w].FetchWrite? || s.workers[w].FetchDone?)
    ensures MovesNothing(s, Worked(s, w, delivered, ok, diskOk, notExist), w)
  {
  }

  lemma MarkMovesNothing(s: State, w: nat, delivered: bool, ok: bool, diskOk: bool, notExist: bool)
    requires w < |s.workers|
    requires var wk := s.workers[w]; wk.SendMark? || wk.SendDone? || wk.FetchMark? || wk == ClearFlag
    ensures MovesNothing(s, Worked(s, w, delivered, ok, diskOk, notExist), w)
  {
    var wk, s' := s.workers[w], Worked(s, w, delivered, ok, diskOk, notExist);
    var flag := if wk.SendMark? then wk.flag.(sending := true) else if wk.SendDone? then wk.flag.(sending := false)
                else if wk.FetchMark? then wk.flag.(fetching := true) else NO_FLAGS;
    FlaggedMovesNothing(s, w, flag, s'.workers[w]);
  }

  lemma QuietWorkMoves(s: State, w: nat, delivered: bool, ok: bool, diskOk: bool, notExist: bool)
    requires w < |s.workers| && !MovesItems(s.workers[w]) && s.workers[w] != Idle
    ensures MovesNothing(s, Worked(s, w, delivered, ok, diskOk, notExist), w)
  {
    var wk := s.workers[w];
    if wk.FetchCall? || wk.FetchServe? {
      CallMovesNothing(s, w, delivered, ok, diskOk, notExist);
    } else if wk.FetchWrite? || wk.FetchDone? {
      WriteMovesNothing(s, w, delivered, ok, diskOk, notExist);
    } else {
      MarkMovesNothing(s, w, delivered, ok, diskOk, notExist);
    }
  }

  lemma CommitBalances(s: State, w: nat, x: GraphItem)
    requires w < |s.workers| && s.workers[w] == ClearCommit && Balanced(s, x)
    ensures Balanced(SetWorker(Popped(s), w, Idle), x)
  {
    PoppedBalances(s, x);
    NothingMoves(Popped(s), SetWorker(Popped(s), w, Idle), w, x);
  }

  lemma WorkedBalances(s: State, w: nat, delivered: bool, ok: bool, diskOk: bool, notExist: bool, x: GraphItem)
    requires w < |s.workers| && s.workers[w] != Idle && Balanced(s, x)
    ensures Balanced(Worked(s, w, delivered, ok, diskOk, notExist), x)
  {
    var wk := s.workers[w];
    if !MovesItems(wk) {
      QuietWorkMoves(s, w, delivered, ok, diskOk, notExist);
      NothingMoves(s, Worked(s, w, delivered, ok, diskOk, notExist), w, x);
    } else if wk.SendPop? {
      PopToSendBalances(s, w, wk.flag, x);
    } else if wk.SendCall? {
      CallSendBalances(s, w, wk.flag, wk.items, wk.tries, delivered, ok, x);
    } else if wk.SendRestore? {
      RestoreBalances(s, w, wk.flag, wk.items, x);
    } else {
      CommitBalances(s, w, x);
    }
  }

  // what happens besides

  lemma HandedOverBalances(s: State, i: nat, ok: bool, x: GraphItem)
    requires i < |s.inHand| && Balanced(s, x)
    ensures Balanced(HandedOver(s, i, ok), x)
  {
    CountRemove(s.inHand, i, x);
    CountSnoc(s.trace.handed, s.inHand[i], x);
  }

  lemma RemovedBalances(s: State, x: GraphItem)
    requires Balanced(s, x)
    ensures Balanced(Removed(s), x) && Balanced(Deleted(s), x)
  {
    CountReverse(ListOf(s.entry), x);
    DiscardsKept(s.trace, Reverse(ListOf(s.entry)), x);
  }

  lemma StartedBalances(s: State, w: nat, send: bool, x: GraphItem)
    requires w < |s.workers| && s.pulls > 0 && s.workers[w] == Idle && Balanced(s, x)
    ensures Balanced(Started(s, w, send), x)
  {
    NothingMoves(s, Started(s, w, send), w, x);
  }

  lemma PushedOnBalances(s: State, i: nat, x: GraphItem)
    requires Balanced(s, x) && i < |s.arriving.pushing|
    ensures Balanced(PushedOn(s, i), x)
  {
    var item := s.arriving.pushing[i].item;
    AcceptsKept(s.trace, [item], x);
    DiscardsKept(Accepts(s.trace, [item]), [item], x);
    CountJoin([item], ListOf(s.entry), x);
  }

  lemma SettledBalances(s: State, i: nat, x: GraphItem)
    requires Balanced(s, x) && i < |s.arriving.making|
    ensures Balanced(Settled(s, i), x)
  {
    var items, gone := s.arriving.making[i].items, Reverse(ListOf(s.entry));
    AcceptsKept(s.trace, items, x);
    CountReverse(ListOf(s.entry), x);
    DiscardsKept(Accepts(s.trace, items), gone, x);
  }

  predicate QuietStep(step: Step) {
    || step.Look? || step.Receive? || step.SweepRead? || step.SweepAct?
    || step.OldLook? || step.OldReceive? || step.OldPop? || step.OldHand?
  }

  lemma QuietStepBalances(s: State, step: Step, x: GraphItem)
    requires Balanced(s, x) && Enabled(s, step) && QuietStep(step)
    ensures Balanced(Do(s, step), x)
  {
    var s' := Do(s, step);
    assert s'.entry == s.entry && s'.trace == s.trace && s'.inHand == s.inHand && s'.workers == s.workers;
  }

  lemma MoveStepBalances(s: State, step: Step, x: GraphItem)
    requires Balanced(s, x) && Enabled(s, step) && !step.Work? && !QuietStep(step)
    ensures Balanced(Do(s, step), x)
  {
    match step
    case PushOn(i) => PushedOnBalances(s, i, x);
    case SetNew(i) => SettledBalances(s, i, x);
    case Hand(i, ok) => HandedOverBalances(s, i, ok, x);
    case Start(w, send) => StartedBalances(s, w, send, x);
    case Remove => RemovedBalances(s, x);
    case Delete => RemovedBalances(s, x);
    case _ => PoppedBalances(s, x);
  }

  lemma StepBalances(s: State, step: Step, x: GraphItem)
    requires Balanced(s, x) && Enabled(s, step)
    ensures Balanced(Do(s, step), x)
  {
    if step.Work? {
      WorkedBalances(s, step.w, step.delivered, step.ok, step.diskOk, step.notExist, x);
    } else if QuietStep(step) {
      QuietStepBalances(s, step, x);
    } else {
      MoveStepBalances(s, step, x);
    }
  }

  lemma {:induction false} IdleHoldNothing(workers: nat, n: nat, x: GraphItem)
    requires n <= workers
    ensures CountHeld(Init(workers).workers, n, x) == 0
  {
    if n > 0 { IdleHoldNothing(workers, n - 1, x); }
  }

  /**
   Conservation, in every run of any number of workers: each copy of an accepted item is in the list, a worker's
   popped batch, a flush's batch, a batch handed to FlushFile, a batch the old node acknowledged, or was dropped
   with a removed or replaced entry or by a delete request.
   */
  lemma RunBalances(workers: nat, steps: seq<Step>, x: GraphItem)
    requires Run(workers, steps, |steps|).Some?
    ensures Balanced(Run(workers, steps, |steps|).value, x)
  {
    IdleHoldNothing(workers, workers, x);
    forall s, step | Balanced(s, x) && Enabled(s, step) ensures Balanced(Do(s, step), x) { StepBalances(s, step, x); }
    RunInside(workers, s => Balanced(s, x), steps, |steps|);
  }
}
