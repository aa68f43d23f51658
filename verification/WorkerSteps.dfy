/**
 What ties the net worker as code, module NetWorker, to the steps of module Migration, where everything may interleave:
 the next actions of one worker, with nothing between them, end as the code does.
 */
module WorkerSteps {
  import opened Model
  import opened NetWorker
  import Flat = FlatStore
  import M = Migration
  import O = OldSide

  /** How the calls of one task turn out, and its write. */
  datatype Fate = Fate(calls: seq<Outcome>, writeOk: bool, notExist: bool)

  predicate At(s: M.State, w: nat, f: Fate, wk: M.Worker) {
    w < |s.workers| && s.workers[w] == wk && |f.calls| == TRIES
  }

  /** The next action of the worker, or of the GetRrd call it waits for. */
  function Next(s: M.State, w: nat, f: Fate): (s': M.State)
    requires w < |s.workers| && |f.calls| == TRIES
    ensures |s'.workers| == |s.workers|
  {
    var wk := s.workers[w];
    var tries := if wk.SendCall? || wk.FetchCall? || wk.FetchServe? then wk.tries else 0;
    var o := if tries < TRIES then f.calls[tries] else f.calls[0];
    if wk.FetchServe? && M.Waiting(s.old_, wk.upTo, wk.mine)
    then s.(old_ := O.OldHands(s.old_, wk.upTo - 1, o.diskOk))
    else M.Worked(s, w, o.delivered, o.ok, f.writeOk, f.notExist)
  }

  // ---------- one action after the other ----------

  predicate Moves(s: M.State, e: M.State, w: nat, f: Fate) {
    w < |s.workers| && |f.calls| == TRIES && s.workers[w] != M.Idle && e == Next(s, w, f)
  }

  /** Each state comes from the one before by the next action. */
  ghost predicate Path(ts: seq<M.State>, w: nat, f: Fate) {
    forall i, j {:trigger Moves(ts[i], ts[j], w, f)} :: 0 <= i < |ts| && 0 <= j < |ts| && j == i + 1 ==>
      Moves(ts[i], ts[j], w, f)
  }

  ghost predicate Goes(ts: seq<M.State>, s: M.State, e: M.State, w: nat, f: Fate, n: nat) {
    Path(ts, w, f) && 0 < |ts| <= n + 1 && ts[0] == s && ts[|ts| - 1] == e
  }

  /** The worker gets from s to e in at most n actions. */
  ghost predicate Leads(s: M.State, e: M.State, w: nat, f: Fate, n: nat) {
    exists ts :: Goes(ts, s, e, w, f, n)
  }

  lemma LeadsStep(s: M.State, w: nat, f: Fate) returns (e: M.State)
    requires w < |s.workers| && |f.calls| == TRIES && s.workers[w] != M.Idle
    ensures e == Next(s, w, f) && Leads(s, e, w, f, 1)
  {
    e := Next(s, w, f);
    assert Goes([s, e], s, e, w, f, 1);
  }

  lemma LeadsMore(s: M.State, e: M.State, w: nat, f: Fate, n: nat, k: nat)
    requires Leads(s, e, w, f, n) && n <= k
    ensures Leads(s, e, w, f, k)
  {
    var ts: seq<M.State> :| Goes(ts, s, e, w, f, n);
    assert Goes(ts, s, e, w, f, k);
  }

  lemma PathOn(a: seq<M.State>, b: seq<M.State>, w: nat, f: Fate)
    requires Path(a, w, f) && Path(b, w, f) && a != [] && b != [] && a[|a| - 1] == b[0]
    ensures Path(a + b[1..], w, f)
  {
    var ts, n := a + b[1..], |a|;
    forall i, j | 0 <= i < |ts| && 0 <= j < |ts| && j == i + 1 ensures Moves(ts[i], ts[j], w, f) {
      if j < n {
        assert Moves(a[i], a[j], w, f);
      } else {
        assert ts[i] == b[i - n + 1] && ts[j] == b[j - n + 1];
        assert Moves(b[i - n + 1], b[j - n + 1], w, f);
      }
    }
  }

  lemma LeadsOn(s: M.State, m: M.State, e: M.State, w: nat, f: Fate, n: nat, k: nat)
    requires Leads(s, m, w, f, n) && Leads(m, e, w, f, k)
    ensures Leads(s, e, w, f, n + k)
  {
    var a: seq<M.State> :| Goes(a, s, m, w, f, n);
    var b: seq<M.State> :| Goes(b, m, e, w, f, k);
    PathOn(a, b, w, f);
    assert Goes(a + b[1..], s, e, w, f, n + k);
  }

  // ---------- send_data ----------

  /** How a send ends: what is left in the list, the flags, and what has reached the old node. */
  ghost predicate SendEnds(e: M.State, w: nat, kept: Items, flag: M.Flags, peer: seq<Items>) {
    && w < |e.workers| && e.workers[w] == M.Idle && e.trace.peer == peer
    && e.entry == Some(M.Cached(kept, flag.(sending := false)))
  }

  lemma DoneLeads(s: M.State, w: nat, flag: M.Flags, f: Fate) returns (e: M.State)
    requires At(s, w, f, M.SendDone(flag)) && s.entry.Some?
    ensures Leads(s, e, w, f, 1) && SendEnds(e, w, s.entry.value.items, flag, s.trace.peer)
  {
    e := LeadsStep(s, w, f);
  }

  lemma RestoreNext(s: M.State, w: nat, flag: M.Flags, items: Items, f: Fate) returns (e: M.State)
    requires At(s, w, f, M.SendRestore(flag, items)) && s.entry.Some? && s.entry.value.items == []
    ensures Leads(s, e, w, f, 1) && At(e, w, f, M.SendDone(flag)) && e.trace.peer == s.trace.peer
    ensures e.entry.Some? && e.entry.value.items == Flat.Reverse(items)
  {
    assert [] + Flat.Reverse(items) == Flat.Reverse(items);
    e := LeadsStep(s, w, f);
  }

  lemma RestoreLeads(s: M.State, w: nat, flag: M.Flags, items: Items, f: Fate) returns (e: M.State)
    requires At(s, w, f, M.SendRestore(flag, items)) && s.entry.Some? && s.entry.value.items == []
    ensures Leads(s, e, w, f, 2) && SendEnds(e, w, Flat.Reverse(items), flag, s.trace.peer)
  {
    var m := RestoreNext(s, w, flag, items, f);
    e := DoneLeads(m, w, flag, f);
    LeadsOn(s, m, e, w, f, 1, 1);
  }

  /** One call: done, another try, or the restore. */
  lemma CallNext(s: M.State, w: nat, flag: M.Flags, items: Items, tries: nat, f: Fate) returns (e: M.State)
    requires At(s, w, f, M.SendCall(flag, items, tries)) && tries < TRIES
    ensures Leads(s, e, w, f, 1) && e.entry == s.entry
    ensures e.trace.peer == s.trace.peer + if f.calls[tries].delivered then [items] else []
    ensures At(e, w, f, if Succeeds(f.calls[tries]) then M.SendDone(flag)
                        else if tries + 1 < TRIES then M.SendCall(flag, items, tries + 1)
                        else M.SendRestore(flag, items))
  {
    e := LeadsStep(s, w, f);
  }

  /** How a send that is at its try ends. */
  ghost predicate CallEnds(e: M.State, w: nat, flag: M.Flags, items: Items, tries: nat, f: Fate, peer: seq<Items>)
    requires |f.calls| == TRIES && tries <= TRIES
  {
    SendEnds(e, w, if FirstOk(f.calls, tries) < TRIES then [] else Flat.Reverse(items), flag,
             peer + Copies(f.calls, Made(f.calls, tries), items))
  }

  lemma CallEndsNext(e: M.State, w: nat, flag: M.Flags, items: Items, tries: nat, f: Fate, peer: seq<Items>)
    requires |f.calls| == TRIES && tries + 1 < TRIES && !Succeeds(f.calls[tries])
    requires CallEnds(e, w, flag, items, tries + 1, f, peer)
    ensures CallEnds(e, w, flag, items, tries, f, peer)
  {
    MadeNext(f.calls, tries);
  }

  /** After the last try. */
  lemma LastCallLeads(s: M.State, w: nat, flag: M.Flags, items: Items, tries: nat, f: Fate, peer: seq<Items>)
    returns (e: M.State)
    requires |f.calls| == TRIES && tries < TRIES && (Succeeds(f.calls[tries]) || tries + 1 == TRIES)
    requires At(s, w, f, if Succeeds(f.calls[tries]) then M.SendDone(flag) else M.SendRestore(flag, items))
    requires s.entry.Some? && s.entry.value.items == [] && s.trace.peer == peer + Copies(f.calls, tries + 1, items)
    ensures Leads(s, e, w, f, 2) && CallEnds(e, w, flag, items, tries, f, peer)
  {
    MadeNext(f.calls, tries);
    if Succeeds(f.calls[tries]) {
      e := DoneLeads(s, w, flag, f);
      LeadsMore(s, e, w, f, 1, 2);
    } else {
      e := RestoreLeads(s, w, flag, items, f);
    }
  }

  lemma OneMoreCopy(peer: seq<Items>, before: seq<Items>, after: seq<Items>, calls: seq<Outcome>, tries: nat, items: Items)
    requires tries < |calls| && before == peer + Copies(calls, tries, items)
    requires after == before + if calls[tries].delivered then [items] else []
    ensures after == peer + Copies(calls, tries + 1, items)
  {
  }

  /** From a call on: two actions follow the last try. */
  lemma {:induction false} CallsLead(s: M.State, w: nat, flag: M.Flags, items: Items, tries: nat, f: Fate,
                                     peer: seq<Items>) returns (e: M.State)
    requires At(s, w, f, M.SendCall(flag, items, tries)) && tries < TRIES
    requires s.entry.Some? && s.entry.value.items == [] && s.trace.peer == peer + Copies(f.calls, tries, items)
    ensures Leads(s, e, w, f, TRIES - tries + 2) && CallEnds(e, w, flag, items, tries, f, peer)
    decreases TRIES - tries
  {
    var m := CallNext(s, w, flag, items, tries, f);
    OneMoreCopy(peer, s.trace.peer, m.trace.peer, f.calls, tries, items);
    if Succeeds(f.calls[tries]) || tries + 1 == TRIES {
      e := LastCallLeads(m, w, flag, items, tries, f, peer);
      LeadsMore(m, e, w, f, 2, TRIES - tries + 1);
    } else {
      e := CallsLead(m, w, flag, items, tries + 1, f, peer);
      CallEndsNext(e, w, flag, items, tries, f, peer);
    }
    LeadsOn(s, m, e, w, f, 1, TRIES - tries + 1);
  }

  lemma PopNext(s: M.State, w: nat, flag: M.Flags, list: Items, f: Fate) returns (e: M.State)
    requires At(s, w, f, M.SendPop(flag)) && s.entry.Some? && s.entry.value.items == list
    ensures Leads(s, e, w, f, 1) && e.trace.peer == s.trace.peer && e.entry.Some? && e.entry.value.items == []
    ensures At(e, w, f, if list == [] then M.SendDone(flag) else M.SendCall(flag, Flat.Reverse(list), 0))
  {
    e := LeadsStep(s, w, f);
  }

  /** How a send that is at its pop ends. */
  ghost predicate PopEnds(e: M.State, w: nat, flag: M.Flags, list: Items, f: Fate, peer: seq<Items>)
    requires |f.calls| == TRIES
  {
    SendEnds(e, w, if Sent(f.calls) then [] else list, flag, peer + Arrived(f.calls, Flat.Reverse(list)))
  }

  lemma NothingToSend(e: M.State, w: nat, flag: M.Flags, f: Fate, peer: seq<Items>)
    requires |f.calls| == TRIES && SendEnds(e, w, [], flag, peer)
    ensures PopEnds(e, w, flag, [], f, peer)
  {
    assert Flat.Reverse<GraphItem>([]) == [];
    assert peer + [] == peer;
  }

  lemma CallsEndPop(e: M.State, w: nat, flag: M.Flags, list: Items, f: Fate, peer: seq<Items>)
    requires |f.calls| == TRIES && list != [] && CallEnds(e, w, flag, Flat.Reverse(list), 0, f, peer)
    ensures PopEnds(e, w, flag, list, f, peer)
  {
    assert Flat.Reverse(Flat.Reverse(list)) == list;
  }

  lemma PopLeads(s: M.State, w: nat, flag: M.Flags, list: Items, f: Fate) returns (e: M.State)
    requires At(s, w, f, M.SendPop(flag)) && s.entry.Some? && s.entry.value.items == list
    ensures Leads(s, e, w, f, TRIES + 3) && PopEnds(e, w, flag, list, f, s.trace.peer)
  {
    var m := PopNext(s, w, flag, list, f);
    if list == [] {
      e := DoneLeads(m, w, flag, f);
      NothingToSend(e, w, flag, f, s.trace.peer);
      LeadsMore(m, e, w, f, 1, TRIES + 2);
    } else {
      assert s.trace.peer + Copies(f.calls, 0, Flat.Reverse(list)) == s.trace.peer;
      e := CallsLead(m, w, flag, Flat.Reverse(list), 0, f, s.trace.peer);
      CallsEndPop(e, w, flag, list, f, s.trace.peer);
    }
    LeadsOn(s, m, e, w, f, 1, TRIES + 2);
  }

  /** An entry of the store, with its flag word taken apart. */
  function CachedOf(e: Flat.Entry): M.Cached {
    M.Cached(e.items, M.FlagsOf(e.flag))
  }

  lemma SendMarks(s: M.State, w: nat, entry: Flat.Entry, f: Fate) returns (e: M.State)
    requires At(s, w, f, M.SendMark(M.FlagsOf(entry.flag))) && s.entry == Some(CachedOf(entry))
    ensures e == Next(s, w, f) && Leads(s, e, w, f, 1) && At(e, w, f, M.SendPop(M.FlagsOf(entry.flag)))
    ensures e.entry == Some(CachedOf(entry.(flag := entry.flag | Flat.GRAPH_F_SENDING))) && e.trace.peer == s.trace.peer
  {
    M.MarkWord(entry.flag);
    e := LeadsStep(s, w, f);
  }

  lemma PopEndsAsCode(e: M.State, w: nat, entry: Flat.Entry, f: Fate, peer: seq<Items>)
    requires |f.calls| == TRIES && PopEnds(e, w, M.FlagsOf(entry.flag), entry.items, f, peer)
    ensures e.entry == Some(CachedOf(AfterSend(entry, Sent(f.calls))))
  {
    M.UnmarkSending(entry.flag);
  }

  /**
   send_data is a run of its worker's steps: first SENDING is set in the word, and in the end the store entry is the one
   SendData leaves, and what it sends has reached the old node.
   */
  lemma SendAlone(s: M.State, w: nat, entry: Flat.Entry, f: Fate) returns (e: M.State)
    requires s.entry == Some(CachedOf(entry)) && At(s, w, f, M.SendMark(M.FlagsOf(entry.flag)))
    ensures Next(s, w, f).entry == Some(CachedOf(entry.(flag := entry.flag | Flat.GRAPH_F_SENDING)))
    ensures Leads(s, e, w, f, TRIES + 4) && At(e, w, f, M.Idle)
    ensures e.entry == Some(CachedOf(AfterSend(entry, Sent(f.calls))))
    ensures e.trace.peer == s.trace.peer + Arrived(f.calls, Flat.Reverse(entry.items))
  {
    var s1 := SendMarks(s, w, entry, f);
    e := PopLeads(s1, w, M.FlagsOf(entry.flag), entry.items, f);
    LeadsOn(s, s1, e, w, f, 1, TRIES + 3);
    PopEndsAsCode(e, w, entry, f, s.trace.peer);
  }

  // ---------- fetch_rrd ----------

  /** The old node after one call: what arrived has popped the list and flushed what it popped. */
  function Served(o: O.OldNode, c: Outcome): O.OldNode {
    var p := O.OldPops(o);
    if !c.delivered then o else if o.list == [] then p else O.OldHands(p, |p.batches| - 1, c.diskOk)
  }

  /** What the calls from i on answer, given the old node they find: its file, if it has one and the call succeeds. */
  function Answers(o: O.OldNode, calls: seq<Outcome>, i: nat): (r: seq<Option<Items>>)
    requires |calls| == TRIES && i <= TRIES
    ensures |r| == TRIES - i
    decreases TRIES - i
  {
    if i == TRIES then []
    else
      var o' := Served(o, calls[i]);
      [if Succeeds(calls[i]) then O.FileOf(o') else None] + Answers(o', calls, i + 1)
  }

  /** How a fetch ends that got this answer: the entry, and the file. */
  ghost predicate FetchEnds(e: M.State, w: nat, entry: M.Cached, file: Option<Items>, flag: M.Flags,
                            got: Option<Items>, f: Fate)
  {
    var ok := Writes(got, file.Some?, f.writeOk);
    && w < |e.workers| && e.workers[w] == M.Idle
    && e.file == (if ok then got else file)
    && e.entry == Some(if !ok && f.notExist then M.Cached([], M.NO_FLAGS)
                       else entry.(flag := (if ok then flag.(miss := false) else flag).(fetching := false)))
  }

  lemma EndNext(s: M.State, w: nat, flag: M.Flags, wrote: Option<M.Fetch>, gone: bool, f: Fate) returns (e: M.State)
    requires At(s, w, f, M.FetchDone(flag, wrote, gone)) && s.entry.Some?
    ensures Leads(s, e, w, f, 1) && At(e, w, f, if gone then M.ClearFlag else M.Idle) && e.file == s.file
    ensures e.entry == Some(s.entry.value.(flag := flag.(fetching := false)))
  {
    e := LeadsStep(s, w, f);
  }

  /** The flag is reset and the list committed. */
  lemma ClearLeads(s: M.State, w: nat, f: Fate) returns (e: M.State)
    requires At(s, w, f, M.ClearFlag) && s.entry.Some?
    ensures Leads(s, e, w, f, 2) && At(e, w, f, M.Idle) && e.file == s.file
    ensures e.entry == Some(M.Cached([], M.NO_FLAGS))
  {
    var m := LeadsStep(s, w, f);
    e := LeadsStep(m, w, f);
    LeadsOn(s, m, e, w, f, 1, 1);
  }

  lemma EndLeads(s: M.State, w: nat, flag: M.Flags, wrote: Option<M.Fetch>, gone: bool, f: Fate) returns (e: M.State)
    requires At(s, w, f, M.FetchDone(flag, wrote, gone)) && s.entry.Some?
    ensures Leads(s, e, w, f, 3) && At(e, w, f, M.Idle) && e.file == s.file
    ensures e.entry == Some(if gone then M.Cached([], M.NO_FLAGS) else s.entry.value.(flag := flag.(fetching := false)))
  {
    var m := EndNext(s, w, flag, wrote, gone, f);
    if gone {
      e := ClearLeads(m, w, f);
      LeadsOn(s, m, e, w, f, 1, 2);
    } else {
      e := m;
      LeadsMore(s, e, w, f, 1, 3);
    }
  }

  lemma WriteNext(s: M.State, w: nat, flag: M.Flags, got: M.Fetch, f: Fate) returns (e: M.State)
    requires At(s, w, f, M.FetchWrite(flag, got))
    ensures Leads(s, e, w, f, 1) && e.entry == s.entry
    ensures e.file == if s.file.None? && f.writeOk then Some(got.body) else s.file
    ensures At(e, w, f, if s.file.None? && f.writeOk then M.FetchDone(flag.(miss := false), Some(got), false)
                        else M.FetchDone(flag, None, f.notExist))
  {
    e := LeadsStep(s, w, f);
  }

  lemma WriteLeads(s: M.State, w: nat, flag: M.Flags, got: M.Fetch, f: Fate) returns (e: M.State)
    requires At(s, w, f, M.FetchWrite(flag, got)) && s.entry.Some?
    ensures Leads(s, e, w, f, 4) && FetchEnds(e, w, s.entry.value, s.file, flag, Some(got.body), f)
  {
    var m := WriteNext(s, w, flag, got, f);
    var done := m.workers[w];
    e := EndLeads(m, w, done.flag, done.wrote, done.notExist, f);
    LeadsOn(s, m, e, w, f, 1, 3);
  }

  /** After a call that failed or was given up. */
  function Retried(flag: M.Flags, tries: nat, notExist: bool): M.Worker {
    if tries + 1 < TRIES then M.FetchCall(flag, tries + 1) else M.FetchDone(flag, None, notExist)
  }

  /** The call is lost, or arrives and pops. */
  lemma CallPops(s: M.State, w: nat, flag: M.Flags, tries: nat, f: Fate) returns (e: M.State)
    requires At(s, w, f, M.FetchCall(flag, tries)) && tries < TRIES
    ensures Leads(s, e, w, f, 1) && e.entry == s.entry && e.file == s.file
    ensures e.old_ == if f.calls[tries].delivered then O.OldPops(s.old_) else s.old_
    ensures At(e, w, f, if f.calls[tries].delivered then M.FetchServe(flag, tries, |e.old_.batches|, s.old_.list != [])
                        else Retried(flag, tries, f.notExist))
  {
    e := LeadsStep(s, w, f);
  }

  /** The call flushes its own batch. */
  lemma CallFlushes(s: M.State, w: nat, flag: M.Flags, tries: nat, f: Fate) returns (e: M.State)
    requires At(s, w, f, M.FetchServe(flag, tries, |s.old_.batches|, true)) && tries < TRIES
    requires M.Waiting(s.old_, |s.old_.batches|, true)
    ensures Leads(s, e, w, f, 1) && e.entry == s.entry && e.file == s.file && e.workers == s.workers
    ensures e.old_ == O.OldHands(s.old_, |s.old_.batches| - 1, f.calls[tries].diskOk)
  {
    e := LeadsStep(s, w, f);
  }

  /** The call reads the file and answers, or not. */
  lemma CallReads(s: M.State, w: nat, flag: M.Flags, tries: nat, mine: bool, f: Fate) returns (e: M.State)
    requires At(s, w, f, M.FetchServe(flag, tries, |s.old_.batches|, mine)) && tries < TRIES
    requires !M.Waiting(s.old_, |s.old_.batches|, mine)
    ensures Leads(s, e, w, f, 1) && e.entry == s.entry && e.file == s.file && e.old_ == s.old_
    ensures At(e, w, f, if f.calls[tries].ok && O.FileOf(s.old_).Some?
                        then M.FetchWrite(flag, M.Answered(s.old_, |s.old_.batches|))
                        else Retried(flag, tries, f.notExist))
  {
    e := LeadsStep(s, w, f);
  }

  /** A call that arrived: it flushes what it popped, if anything, and reads. */
  lemma ServeLeads(s: M.State, w: nat, flag: M.Flags, tries: nat, o: O.OldNode, f: Fate) returns (e: M.State)
    requires At(s, w, f, M.FetchServe(flag, tries, |s.old_.batches|, o.list != [])) && tries < TRIES
    requires s.old_ == O.OldPops(o) && f.calls[tries].delivered
    ensures Leads(s, e, w, f, 2) && e.entry == s.entry && e.file == s.file && e.old_ == Served(o, f.calls[tries])
    ensures At(e, w, f, if f.calls[tries].ok && O.FileOf(e.old_).Some?
                        then M.FetchWrite(flag, M.Answered(e.old_, |e.old_.batches|))
                        else Retried(flag, tries, f.notExist))
  {
    if o.list != [] {
      var m := CallFlushes(s, w, flag, tries, f);
      e := CallReads(m, w, flag, tries, true, f);
      LeadsOn(s, m, e, w, f, 1, 1);
    } else {
      e := CallReads(s, w, flag, tries, false, f);
      LeadsMore(s, e, w, f, 1, 2);
    }
  }

  /** One call: a file to write, another try, or the end. */
  lemma GetsLead(s: M.State, w: nat, flag: M.Flags, tries: nat, f: Fate) returns (e: M.State)
    requires At(s, w, f, M.FetchCall(flag, tries)) && tries < TRIES
    ensures Leads(s, e, w, f, 3) && e.entry == s.entry && e.file == s.file && e.old_ == Served(s.old_, f.calls[tries])
    ensures At(e, w, f, if Succeeds(f.calls[tries]) && O.FileOf(e.old_).Some?
                        then M.FetchWrite(flag, M.Answered(e.old_, |e.old_.batches|))
                        else Retried(flag, tries, f.notExist))
  {
    var m := CallPops(s, w, flag, tries, f);
    if f.calls[tries].delivered {
      e := ServeLeads(m, w, flag, tries, s.old_, f);
      LeadsOn(s, m, e, w, f, 1, 2);
    } else {
      e := m;
      LeadsMore(s, e, w, f, 1, 3);
    }
  }

  lemma AnswersNext(o: O.OldNode, calls: seq<Outcome>, i: nat)
    requires |calls| == TRIES && i < TRIES
    ensures var o', rest := Served(o, calls[i]), Answers(Served(o, calls[i]), calls, i + 1);
            FirstFile(Answers(o, calls, i))
            == if Succeeds(calls[i]) && O.FileOf(o').Some? then O.FileOf(o') else FirstFile(rest)
    ensures FirstFile(Answers(o, calls, TRIES)) == None
  {
    assert Answers(o, calls, i)[1..] == Answers(Served(o, calls[i]), calls, i + 1);
  }

  /** How a fetch that is at its try ends. */
  ghost predicate TryEnds(e: M.State, w: nat, entry: M.Cached, file: Option<Items>, flag: M.Flags, o: O.OldNode,
                          tries: nat, f: Fate)
    requires |f.calls| == TRIES && tries <= TRIES
  {
    FetchEnds(e, w, entry, file, flag, FirstFile(Answers(o, f.calls, tries)), f)
  }

  lemma LastTryEnds(e: M.State, w: nat, entry: M.Cached, file: Option<Items>, flag: M.Flags, o: O.OldNode,
                    tries: nat, f: Fate)
    requires |f.calls| == TRIES && tries < TRIES
    requires var file', got := O.FileOf(Served(o, f.calls[tries])), Succeeds(f.calls[tries]);
             if got && file'.Some? then FetchEnds(e, w, entry, file, flag, file', f)
             else tries + 1 == TRIES && FetchEnds(e, w, entry, file, flag, None, f)
    ensures TryEnds(e, w, entry, file, flag, o, tries, f)
  {
    AnswersNext(o, f.calls, tries);
  }

  lemma TryEndsNext(e: M.State, w: nat, entry: M.Cached, file: Option<Items>, flag: M.Flags, o: O.OldNode,
                    tries: nat, f: Fate)
    requires |f.calls| == TRIES && tries + 1 < TRIES
    requires !(Succeeds(f.calls[tries]) && O.FileOf(Served(o, f.calls[tries])).Some?)
    requires TryEnds(e, w, entry, file, flag, Served(o, f.calls[tries]), tries + 1, f)
    ensures TryEnds(e, w, entry, file, flag, o, tries, f)
  {
    AnswersNext(o, f.calls, tries);
  }

  lemma {:induction false} FetchLeads(s: M.State, w: nat, flag: M.Flags, tries: nat, f: Fate) returns (e: M.State)
    requires At(s, w, f, M.FetchCall(flag, tries)) && tries < TRIES && s.entry.Some?
    ensures Leads(s, e, w, f, 3 * (TRIES - tries) + 4)
    ensures TryEnds(e, w, s.entry.value, s.file, flag, s.old_, tries, f)
    decreases TRIES - tries
  {
    var m := GetsLead(s, w, flag, tries, f);
    var left := 3 * (TRIES - tries) + 1;
    if m.workers[w].FetchWrite? {
      e := WriteLeads(m, w, flag, m.workers[w].got, f);
      LeadsMore(m, e, w, f, 4, left);
      LastTryEnds(e, w, s.entry.value, s.file, flag, s.old_, tries, f);
    } else if tries + 1 < TRIES {
      e := FetchLeads(m, w, flag, tries + 1, f);
      TryEndsNext(e, w, s.entry.value, s.file, flag, s.old_, tries, f);
    } else {
      e := EndLeads(m, w, flag, None, f.notExist, f);
      LeadsMore(m, e, w, f, 3, left);
      LastTryEnds(e, w, s.entry.value, s.file, flag, s.old_, tries, f);
    }
    LeadsOn(s, m, e, w, f, 3, left);
  }

  lemma FetchMarks(s: M.State, w: nat, entry: Flat.Entry, f: Fate) returns (e: M.State)
    requires At(s, w, f, M.FetchMark(M.FlagsOf(entry.flag))) && s.entry == Some(CachedOf(entry))
    ensures e == Next(s, w, f) && Leads(s, e, w, f, 1) && At(e, w, f, M.FetchCall(M.FlagsOf(entry.flag), 0))
    ensures e.entry == Some(CachedOf(entry.(flag := entry.flag | Flat.GRAPH_F_FETCHING)))
    ensures e.file == s.file && e.old_ == s.old_
  {
    M.MarkWord(entry.flag);
    e := LeadsStep(s, w, f);
  }

  /** The flags a fetch ends with are those of the word that is left. */
  lemma EndsAsCode(e: M.State, w: nat, entry: Flat.Entry, file: Option<Items>, got: Option<Items>, f: Fate)
    requires FetchEnds(e, w, CachedOf(entry.(flag := entry.flag | Flat.GRAPH_F_FETCHING)), file,
                       M.FlagsOf(entry.flag), got, f)
    ensures var ok := Writes(got, file.Some?, f.writeOk);
            e.entry == Some(CachedOf(AfterFetch(entry, ok, f.notExist))) && e.file == (if ok then got else file)
  {
    M.UnmarkMiss(entry.flag);
    M.UnmarkFetching(entry.flag);
    M.UnmarkFetching(Flat.ClearMiss(entry.flag));
  }

  /**
   fetch_rrd and what follows a missing file, likewise: FETCHING is set in the word, and the end is the one PullTask
   gives for a key that can be taken apart.
   */
  lemma FetchAlone(s: M.State, w: nat, entry: Flat.Entry, f: Fate) returns (e: M.State)
    requires s.entry == Some(CachedOf(entry)) && At(s, w, f, M.FetchMark(M.FlagsOf(entry.flag)))
    ensures Next(s, w, f).entry == Some(CachedOf(entry.(flag := entry.flag | Flat.GRAPH_F_FETCHING)))
    ensures Leads(s, e, w, f, 3 * TRIES + 5) && At(e, w, f, M.Idle)
    ensures var got := FirstFile(Answers(s.old_, f.calls, 0));
            var ok := Writes(got, s.file.Some?, f.writeOk);
            e.entry == Some(CachedOf(AfterFetch(entry, ok, f.notExist))) && e.file == (if ok then got else s.file)
  {
    var s1 := FetchMarks(s, w, entry, f);
    e := FetchLeads(s1, w, M.FlagsOf(entry.flag), 0, f);
    EndsAsCode(e, w, entry, s.file, FirstFile(Answers(s.old_, f.calls, 0)), f);
    LeadsOn(s, s1, e, w, f, 1, 3 * TRIES + 4);
  }
}
