/** What a finished fetch hands over of the old node's history, in every run of the migration protocol. */
module Handover {
  import opened Model
  import opened Migration
  import opened MigrationSafety
  import opened OldSide

  // ---------- answers ----------

  ghost predicate HasAll(items: Items, body: Items) {
    forall x :: x in items ==> x in body
  }

  /**
   An answer against the history at its pop: written in order, that history is the start of it, and it misses nothing
   if every batch had been written; where no item repeats, each of the two exactly then.
   */
  ghost predicate Good(o: OldNode, f: Fetch) {
    && f.answered <= o.accepted
    && (f.inOrder ==> f.answered <= f.body)
    && (f.allWritten ==> HasAll(f.answered, f.body))
    && (Distinct(o.accepted) ==> (f.answered <= f.body <==> f.inOrder))
    && (Distinct(o.accepted) ==> (HasAll(f.answered, f.body) <==> f.allWritten))
  }

  lemma AnswerIsGood(o: OldNode, upTo: nat)
    requires Keeps(o) && upTo <= |o.batches| && FileOf(o).Some?
    ensures Good(o, Answered(o, upTo))
  {
    JoinedPrefix(o.batches, upTo, |o.batches|);
    if InOrder(o, upTo) { InOrderIsPrefix(o, upTo); }
    if AllWritten(o, upTo) {
      forall x | x in Joined(o.batches, upTo) ensures x in FileOf(o).value { WrittenIsThere(o, upTo, x); }
    }
    if Distinct(o.accepted) {
      FileStartsWithHistory(o, upTo);
      FileMissesNothing(o, upTo);
    }
  }

  lemma StaysGood(o: OldNode, o': OldNode, f: Fetch)
    requires Good(o, f) && o.accepted <= o'.accepted
    ensures Good(o', f)
  {
    assert Distinct(o'.accepted) ==> Distinct(o.accepted);
  }

  // ---------- runs ----------

  /** A written answer: it is the start of the file unless that was deleted. */
  ghost predicate Carried(o: OldNode, file: Option<Items>, deleted: bool, f: Fetch) {
    Good(o, f) && (!deleted ==> file.Some? && f.body <= file.value)
  }

  ghost predicate WorkerHands(o: OldNode, file: Option<Items>, deleted: bool, wk: Worker) {
    && (wk.FetchServe? ==> wk.upTo <= |o.batches|)
    && (wk.FetchWrite? ==> Good(o, wk.got))
    && (wk.FetchDone? && wk.wrote.Some? ==> Carried(o, file, deleted, wk.wrote.value))
  }

  ghost predicate HandedDown(s: State) {
    && Keeps(s.old_)
    && (forall w :: 0 <= w < |s.workers| ==> WorkerHands(s.old_, s.file, s.deleted, s.workers[w]))
    && (s.cleared.Some? ==> Carried(s.old_, s.file, s.deleted, s.cleared.value))
  }

  /** What is handed down stays so while the old node's history, its batches and the file only grow. */
  ghost predicate Grows(s: State, s': State) {
    && s.old_.accepted <= s'.old_.accepted && |s.old_.batches| <= |s'.old_.batches| && Keeps(s'.old_)
    && (s.deleted ==> s'.deleted)
    && (!s'.deleted && s.file.Some? ==> s'.file.Some? && s.file.value <= s'.file.value)
  }

  lemma StaysCarried(s: State, s': State, f: Fetch)
    requires Grows(s, s') && Carried(s.old_, s.file, s.deleted, f)
    ensures Carried(s'.old_, s'.file, s'.deleted, f)
  {
    StaysGood(s.old_, s'.old_, f);
  }

  lemma StaysHanded(s: State, s': State, wk: Worker)
    requires Grows(s, s') && WorkerHands(s.old_, s.file, s.deleted, wk)
    ensures WorkerHands(s'.old_, s'.file, s'.deleted, wk)
  {
    if wk.FetchWrite? { StaysGood(s.old_, s'.old_, wk.got); }
    if wk.FetchDone? && wk.wrote.Some? { StaysCarried(s, s', wk.wrote.value); }
  }

  /** A step after which each worker is where it was, or where WorkerHands is known. */
  lemma GrowsHandsDown(s: State, s': State, w: nat)
    requires HandedDown(s) && Grows(s, s') && |s'.workers| == |s.workers|
    requires forall v :: 0 <= v < |s.workers| && v != w ==> s'.workers[v] == s.workers[v]
    requires w < |s.workers| ==> WorkerHands(s'.old_, s'.file, s'.deleted, s'.workers[w])
    requires s'.cleared == s.cleared || (s'.cleared.Some? && Carried(s'.old_, s'.file, s'.deleted, s'.cleared.value))
    ensures HandedDown(s')
  {
    forall v | 0 <= v < |s'.workers| ensures WorkerHands(s'.old_, s'.file, s'.deleted, s'.workers[v]) {
      if v != w { StaysHanded(s, s', s.workers[v]); }
    }
    if s.cleared.Some? { StaysCarried(s, s', s.cleared.value); }
  }

  /** Work on the new node's own list and flags: neither the old node, nor the file, nor an answer is touched. */
  lemma OtherWorkStays(s: State, w: nat, delivered: bool, ok: bool, diskOk: bool, notExist: bool)
    requires w < |s.workers| && s.workers[w] != Idle && (!Fetching(s.workers[w]) || s.workers[w].FetchMark?)
    ensures var s' := Worked(s, w, delivered, ok, diskOk, notExist);
            && s'.workers == s.workers[w := s'.workers[w]]
            && !s'.workers[w].FetchServe? && !s'.workers[w].FetchWrite? && !s'.workers[w].FetchDone?
            && s'.old_ == s.old_ && s'.file == s.file && s'.deleted == s.deleted && s'.cleared == s.cleared
  {
  }

  lemma StaysHandsDown(s: State, s': State, w: nat)
    requires w < |s.workers| == |s'.workers| && s'.workers == s.workers[w := s'.workers[w]]
    requires WorkerHands(s.old_, s.file, s.deleted, s'.workers[w])
    requires s'.old_ == s.old_ && s'.file == s.file && s'.deleted == s.deleted && s'.cleared == s.cleared
    requires HandedDown(s)
    ensures HandedDown(s')
  {
  }

  lemma CallHandsDown(s: State, w: nat, flag: Flags, tries: nat, delivered: bool, notExist: bool)
    requires w < |s.workers| && HandedDown(s)
    ensures HandedDown(CallGetRrd(s, w, flag, tries, delivered, notExist))
  {
    PopsKeeps(s.old_);
    GrowsHandsDown(s, CallGetRrd(s, w, flag, tries, delivered, notExist), w);
  }

  lemma ServeHandsDown(s: State, w: nat, flag: Flags, tries: nat, upTo: nat, mine: bool, ok: bool, notExist: bool)
    requires w < |s.workers| && HandedDown(s) && s.workers[w] == FetchServe(flag, tries, upTo, mine)
    ensures HandedDown(ServeGetRrd(s, w, flag, tries, upTo, mine, ok, notExist))
  {
    if FileOf(s.old_).Some? { AnswerIsGood(s.old_, upTo); }
    StaysHandsDown(s, ServeGetRrd(s, w, flag, tries, upTo, mine, ok, notExist), w);
  }

  lemma WriteHandsDown(s: State, w: nat, flag: Flags, got: Fetch, diskOk: bool, notExist: bool)
    requires w < |s.workers| && HandedDown(s) && s.workers[w] == FetchWrite(flag, got)
    ensures HandedDown(WriteFile(s, w, flag, got, diskOk, notExist))
  {
    GrowsHandsDown(s, WriteFile(s, w, flag, got, diskOk, notExist), w);
  }

  lemma EndHandsDown(s: State, w: nat, flag: Flags, wrote: Option<Fetch>, notExist: bool)
    requires w < |s.workers| && HandedDown(s) && s.workers[w] == FetchDone(flag, wrote, notExist)
    ensures HandedDown(EndFetch(s, w, flag, wrote, notExist))
  {
    GrowsHandsDown(s, EndFetch(s, w, flag, wrote, notExist), w);
  }

  lemma WorkHandsDown(s: State, w: nat, delivered: bool, ok: bool, diskOk: bool, notExist: bool)
    requires w < |s.workers| && s.workers[w] != Idle && HandedDown(s)
    ensures HandedDown(Worked(s, w, delivered, ok, diskOk, notExist))
  {
    var wk := s.workers[w];
    if wk.FetchCall? {
      CallHandsDown(s, w, wk.flag, wk.tries, delivered, notExist);
    } else if wk.FetchServe? {
      ServeHandsDown(s, w, wk.flag, wk.tries, wk.upTo, wk.mine, ok, notExist);
    } else if wk.FetchWrite? {
      WriteHandsDown(s, w, wk.flag, wk.got, diskOk, notExist);
    } else if wk.FetchDone? {
      EndHandsDown(s, w, wk.flag, wk.wrote, wk.notExist);
    } else {
      OtherWorkStays(s, w, delivered, ok, diskOk, notExist);
      StaysHandsDown(s, Worked(s, w, delivered, ok, diskOk, notExist), w);
    }
  }

  lemma OldHandsDown(s: State, o: OldNode)
    requires HandedDown(s) && Keeps(o) && s.old_.accepted <= o.accepted && |s.old_.batches| <= |o.batches|
    ensures HandedDown(s.(old_ := o))
  {
    GrowsHandsDown(s, s.(old_ := o), |s.workers|);
  }

  predicate OldStep(step: Step) {
    step.OldLook? || step.OldReceive? || step.OldPop? || step.OldHand?
  }

  lemma OldStepHandsDown(s: State, step: Step)
    requires OldStep(step) && Enabled(s, step) && HandedDown(s)
    ensures HandedDown(Do(s, step))
  {
    if step.OldReceive? { TakesKeeps(s.old_, step.i); }
    if step.OldPop? { PopsKeeps(s.old_); }
    if step.OldHand? { HandsKeeps(s.old_, step.i, step.ok); }
    OldHandsDown(s, Do(s, step).old_);
  }

  /** Of the new node's own steps only a flush, a start and a delete request touch what is handed down. */
  lemma OwnStepStays(s: State, step: Step)
    requires Enabled(s, step) && !OldStep(step) && !step.Work? && !step.Start? && !step.Hand? && !step.Delete?
    ensures var s' := Do(s, step);
            && s'.workers == s.workers && s'.old_ == s.old_ && s'.file == s.file && s'.deleted == s.deleted
            && s'.cleared == s.cleared
  {
  }

  lemma FileStepHandsDown(s: State, step: Step)
    requires Enabled(s, step) && (step.Hand? || step.Delete?) && HandedDown(s)
    ensures HandedDown(Do(s, step))
  {
    GrowsHandsDown(s, Do(s, step), |s.workers|);
  }

  lemma StartHandsDown(s: State, w: nat, send: bool)
    requires w < |s.workers| && s.pulls > 0 && HandedDown(s)
    ensures HandedDown(Started(s, w, send))
  {
    GrowsHandsDown(s, Started(s, w, send), w);
  }

  lemma OtherHandsDown(s: State, step: Step)
    requires Enabled(s, step) && !OldStep(step) && !step.Work? && HandedDown(s)
    ensures HandedDown(Do(s, step))
  {
    if step.Start? {
      StartHandsDown(s, step.w, step.send);
    } else if step.Hand? || step.Delete? {
      FileStepHandsDown(s, step);
    } else {
      OwnStepStays(s, step);
      GrowsHandsDown(s, Do(s, step), |s.workers|);
    }
  }

  lemma StepHandsDown(s: State, step: Step)
    requires Enabled(s, step) && HandedDown(s)
    ensures HandedDown(Do(s, step))
  {
    if step.Work? {
      WorkHandsDown(s, step.w, step.delivered, step.ok, step.diskOk, step.notExist);
    } else if OldStep(step) {
      OldStepHandsDown(s, step);
    } else {
      OtherHandsDown(s, step);
    }
  }

  lemma RunHandsDown(workers: nat, steps: seq<Step>)
    requires Run(workers, steps, |steps|).Some?
    ensures HandedDown(Run(workers, steps, |steps|).value)
  {
    forall s, step | HandedDown(s) && Enabled(s, step) ensures HandedDown(Do(s, step)) { StepHandsDown(s, step); }
    RunInside(workers, s => HandedDown(s), steps, |steps|);
  }

  /**
   Handover, in every run of any number of workers: the local file starts with the answer that cleared MISS. If every
   batch the old node had popped by then, the call's own last, had been written before any other and in order when
   the answer was read, the local file starts with everything the old node had accepted when the call popped its list;
   if they had been written in any order among others, it misses nothing of that. A delete request takes the file away.
   */
  lemma Handover(workers: nat, steps: seq<Step>)
    requires Run(workers, steps, |steps|).Some? && Run(workers, steps, |steps|).value.cleared.Some?
    ensures var s := Run(workers, steps, |steps|).value; var got := s.cleared.value;
            && got.answered <= s.old_.accepted
            && (got.inOrder ==> got.answered <= got.body) && (got.allWritten ==> HasAll(got.answered, got.body))
            && (!s.deleted ==>
                  (s.file.Some? && got.body <= s.file.value && (got.inOrder ==> got.answered <= s.file.value)
                   && (got.allWritten ==> HasAll(got.answered, s.file.value))))
  {
    RunHandsDown(workers, steps);
  }

  /**
   Where the old node accepted no item twice these are the exact conditions: the answer starts with the history just
   when it was written in order, and misses none of it just when no batch was still in hand and no flush had failed.
   */
  lemma HandoverExact(workers: nat, steps: seq<Step>)
    requires Run(workers, steps, |steps|).Some? && Run(workers, steps, |steps|).value.cleared.Some?
    requires Distinct(Run(workers, steps, |steps|).value.old_.accepted)
    ensures var got := Run(workers, steps, |steps|).value.cleared.value;
            && (got.answered <= got.body <==> got.inOrder)
            && (HasAll(got.answered, got.body) <==> got.allWritten)
  {
    RunHandsDown(workers, steps);
  }

  /** A call records how many batches have been popped: they are the history at its pop. */
  lemma CallRecordsHistory(s: State, w: nat, delivered: bool, ok: bool, diskOk: bool, notExist: bool)
    requires w < |s.workers| && s.workers[w].FetchCall? && HandedDown(s)
    ensures var s' := Worked(s, w, delivered, ok, diskOk, notExist);
            s'.workers[w].FetchServe? ==>
              s'.workers[w].upTo == |s'.old_.batches| && s'.old_.list == []
              && s.old_.accepted == s'.old_.accepted == Joined(s'.old_.batches, s'.workers[w].upTo)
  {
    PopsKeeps(s.old_);
  }

  /** An answer records that history, the file it reads, and how the batches stand then. */
  lemma AnswerRecordsFile(s: State, w: nat, delivered: bool, ok: bool, diskOk: bool, notExist: bool)
    requires w < |s.workers| && s.workers[w].FetchServe?
    ensures var wk, s' := s.workers[w], Worked(s, w, delivered, ok, diskOk, notExist);
            s'.workers[w].FetchWrite? ==>
              && wk.upTo <= |s.old_.batches|
              && s'.workers[w] == FetchWrite(wk.flag, Answered(s.old_, wk.upTo))
              && Some(s'.workers[w].got.body) == FileOf(s.old_)
  {
  }

  /** What has cleared MISS is the answer of a fetch that ends. */
  lemma EndRecordsAnswer(s: State, w: nat, delivered: bool, ok: bool, diskOk: bool, notExist: bool)
    requires w < |s.workers| && s.workers[w] != Idle
    ensures var wk, s' := s.workers[w], Worked(s, w, delivered, ok, diskOk, notExist);
            s'.cleared != s.cleared ==> wk.FetchDone? && s'.cleared == wk.wrote && s'.entry.Some?
  {
  }

  ghost predicate OldKeeps(s: State) {
    Keeps(s.old_) && Weighed(s.old_)
  }

  lemma CallOnOld(s: State, w: nat, delivered: bool, ok: bool, diskOk: bool, notExist: bool)
    requires w < |s.workers| && s.workers[w].FetchCall?
    ensures var o' := Worked(s, w, delivered, ok, diskOk, notExist).old_; o' == s.old_ || o' == OldPops(s.old_)
  {
  }

  lemma WorkLeavesOld(s: State, w: nat, delivered: bool, ok: bool, diskOk: bool, notExist: bool)
    requires w < |s.workers| && !s.workers[w].FetchCall?
    ensures Worked(s, w, delivered, ok, diskOk, notExist).old_ == s.old_
  {
  }

  /** All that happens to the old node, besides what is done there: a call pops. */
  lemma StepOld(s: State, step: Step)
    requires Enabled(s, step) && !OldStep(step)
    ensures var o' := Do(s, step).old_; o' == s.old_ || o' == OldPops(s.old_)
  {
    if step.Work? {
      if s.workers[step.w].FetchCall? {
        CallOnOld(s, step.w, step.delivered, step.ok, step.diskOk, step.notExist);
      } else {
        WorkLeavesOld(s, step.w, step.delivered, step.ok, step.diskOk, step.notExist);
      }
    }
  }

  lemma PopKeepsOld(o: OldNode)
    requires Keeps(o) && Weighed(o)
    ensures Keeps(OldPops(o)) && Weighed(OldPops(o))
  {
    PopsKeeps(o);
    PopsWeighed(o);
  }

  lemma OldStepKeeps(s: State, step: Step)
    requires OldKeeps(s) && Enabled(s, step) && OldStep(step)
    ensures OldKeeps(Do(s, step))
  {
    var o := s.old_;
    match step
    case OldReceive(i) => TakesKeeps(o, i);
    case OldHand(i, ok) =>
      HandsKeeps(o, i, ok);
      HandsWeighed(o, i, ok);
    case OldPop => PopKeepsOld(o);
    case OldLook(_) =>
  }

  lemma StepOldKeeps(s: State, step: Step)
    requires OldKeeps(s) && Enabled(s, step)
    ensures OldKeeps(Do(s, step))
  {
    if OldStep(step) {
      OldStepKeeps(s, step);
    } else {
      StepOld(s, step);
      PopKeepsOld(s.old_);
    }
  }

  lemma RunOldKeeps(workers: nat, steps: seq<Step>)
    requires Run(workers, steps, |steps|).Some?
    ensures OldKeeps(Run(workers, steps, |steps|).value)
  {
    forall s, step | OldKeeps(s) && Enabled(s, step) ensures OldKeeps(Do(s, step)) { StepOldKeeps(s, step); }
    RunInside(workers, s => OldKeeps(s), steps, |steps|);
  }

  /**
   In every run, repetitions or not: the old node's file is as long as its history exactly when nothing is cached
   there, no batch is in hand and no flush failed.
   */
  lemma OldFileIsWhole(workers: nat, steps: seq<Step>)
    requires Run(workers, steps, |steps|).Some?
    ensures var o := Run(workers, steps, |steps|).value.old_;
            (if FileOf(o).Some? then |FileOf(o).value| else 0) == |o.accepted|
            <==> o.list == [] && AllWritten(o, |o.batches|)
  {
    RunOldKeeps(workers, steps);
    FileIsWholeHistory(Run(workers, steps, |steps|).value.old_);
  }

  // ---------- where the conditions fail ----------

  const OLD_A := SAMPLE.(timestamp := 1)
  const OLD_B := SAMPLE.(timestamp := 2)
  const OLD_C := SAMPLE.(timestamp := 3)

  /** The old node has written one item; the only worker is about to call it. */
  ghost predicate AboutToCall(s: State) {
    && s.workers == [FetchCall(NO_FLAGS.(miss := true), 0)] && s.entry.Some? && s.file == None
    && s.old_ == OldNode([], [], [OldBatch([OLD_A], Written)], [0], [OLD_A])
  }

  lemma ReachCall(r: State -> bool) returns (s: State)
    requires Closed(1, r)
    ensures r(s) && AboutToCall(s)
  {
    var miss := NO_FLAGS.(miss := true);
    s := TwoPullsRun(1, r);
    s := OldWrites(1, r, s, OLD_A);
    s := Next(1, r, s, Start(0, false));
    assert s.workers[0] == FetchMark(miss);
    MarksFetch(1, r, s, miss);
    s := Now(s.(entry := WithFlag(s.entry, miss.(fetching := true))), FetchCall(miss, 0));
  }

  /** From the answer on. */
  lemma AnswersAndFinishes(r: State -> bool, s: State, upTo: nat, mine: bool) returns (s': State)
    requires Closed(1, r) && r(s) && s.workers == [FetchServe(NO_FLAGS.(miss := true), 0, upTo, mine)]
    requires upTo <= |s.old_.batches| && !Waiting(s.old_, upTo, mine) && FileOf(s.old_).Some?
    requires s.file == None && s.entry.Some?
    ensures r(s') && s'.old_ == s.old_
    ensures s'.cleared == Some(Answered(s.old_, upTo)) && s'.file == FileOf(s.old_)
  {
    var miss := NO_FLAGS.(miss := true);
    GetsAnswer(1, r, s, miss, upTo, mine);
    var s1 := Now(s, FetchWrite(miss, Answered(s.old_, upTo)));
    s' := Finishes(1, r, s1, miss, Answered(s.old_, upTo));
  }

  /** A history of two batches of one item each. */
  lemma TwoBatches(o: OldNode)
    requires |o.batches| >= 2 && o.batches[0].items == [OLD_A] && o.batches[1].items == [OLD_B]
    ensures Joined(o.batches, 2) == [OLD_A, OLD_B]
  {
    assert Joined(o.batches, 1) == [OLD_A];
  }

  lemma OneWritten(o: OldNode)
    requires |o.batches| >= 1 && o.batches[0].items == [OLD_A] && o.written == [0]
    ensures FileOf(o) == Some([OLD_A])
  {
    assert At(o.batches, o.written[0]) == [OLD_A];
    assert Chosen(o.batches, o.written, 0) == [];
    assert Chosen(o.batches, o.written, 1) == [OLD_A];
    assert o.written != [] && |o.written| == 1;
  }

  /** A fetch is over and an item the old node had accepted before the call popped its list is missing. */
  ghost predicate Misses(s: State, x: GraphItem) {
    s.cleared.Some? && s.file.Some? && x in s.cleared.value.answered && x !in s.file.value
  }

  ghost predicate MissesInHand(s: State) {
    Misses(s, OLD_B) && forall b :: b in s.old_.batches ==> b.status != Failed
  }

  ghost predicate MissesFailed(s: State) {
    Misses(s, OLD_B) && forall b :: b in s.old_.batches ==> b.status != InHand
  }

  /** Nothing is missing, but the order is lost. */
  ghost predicate Reorders(s: State) {
    && s.cleared.Some? && s.file.Some? && HasAll(s.cleared.value.answered, s.file.value)
    && !(s.cleared.value.answered <= s.file.value)
  }

  ghost predicate MissesLate(s: State) {
    && s.cleared.Some? && s.cleared.value.inOrder && s.cleared.value.allWritten
    && OLD_B in s.old_.accepted && s.file.Some? && OLD_B !in s.file.value
  }

  lemma InHandSteps(r: State -> bool) returns (s: State)
    requires Closed(1, r)
    ensures r(s) && MissesInHand(s)
  {
    var miss := NO_FLAGS.(miss := true);
    s := ReachCall(r);
    s := OldGets(1, r, s, OLD_B);
    s := OldPopsOne(1, r, s, OLD_B);
    assert s.old_ == OldNode([], [], [OldBatch([OLD_A], Written), OldBatch([OLD_B], InHand)], [0], [OLD_A, OLD_B]);
    CallsOld(1, r, s, miss);
    TwoBatches(s.old_);
    OneWritten(s.old_);
    s := AnswersAndFinishes(r, Now(s, FetchServe(miss, 0, 2, false)), 2, false);
  }

  lemma FailedFlushSteps(r: State -> bool) returns (s: State)
    requires Closed(1, r)
    ensures r(s) && MissesFailed(s)
  {
    s := PopsOwn(r);
    s := OldHandsLast(1, r, s, [OldBatch([OLD_A], Written)], OLD_B, false);
    assert s.old_ == OldNode([], [], [OldBatch([OLD_A], Written), OldBatch([OLD_B], Failed)], [0], [OLD_A, OLD_B]);
    TwoBatches(s.old_);
    OneWritten(s.old_);
    s := AnswersAndFinishes(r, s, 2, true);
  }

  lemma OvertakenSteps(r: State -> bool) returns (s: State)
    requires Closed(1, r)
    ensures r(s) && Reorders(s)
  {
    s := Overtaken(r);
    var o := s.old_;
    TwoBatches(o);
    ThreeWritten(o);
    s := AnswersAndFinishes(r, s, 2, true);
    assert s.cleared.value.answered == [OLD_A, OLD_B] && s.file == Some([OLD_A, OLD_C, OLD_B]);
    assert [OLD_A, OLD_C, OLD_B][1] != [OLD_A, OLD_B][1];
  }

  lemma LateItemSteps(r: State -> bool) returns (s: State)
    requires Closed(1, r)
    ensures r(s) && MissesLate(s)
  {
    var miss := NO_FLAGS.(miss := true);
    s := ReachCall(r);
    CallsOld(1, r, s, miss);
    s := OldGets(1, r, Now(s, FetchServe(miss, 0, 1, false)), OLD_B);
    OneWritten(s.old_);
    s := AnswersAndFinishes(r, s, 1, false);
  }

  /** A sweep has popped an item and not yet flushed it: the call finds an empty list and an old file. */
  lemma InHandRun() returns (s: State)
    ensures Reached(1, s) && MissesInHand(s)
  {
    ReachedClosed(1);
    s := InHandSteps(x => Reached(1, x));
  }

  /** GetRrd drops the error of its own flush. */
  lemma FailedFlushRun() returns (s: State)
    ensures Reached(1, s) && MissesFailed(s)
  {
    ReachedClosed(1);
    s := FailedFlushSteps(x => Reached(1, x));
  }

  /** The batch of a sweep overtakes the one of the call. */
  lemma OvertakenRun() returns (s: State)
    ensures Reached(1, s) && Reorders(s)
  {
    ReachedClosed(1);
    s := OvertakenSteps(x => Reached(1, x));
  }

  /** What is accepted after the pop of the call and before its answer is not promised, and may be missing. */
  lemma LateItemRun() returns (s: State)
    ensures Reached(1, s) && MissesLate(s)
  {
    ReachedClosed(1);
    s := LateItemSteps(x => Reached(1, x));
  }

  lemma ThreeWritten(o: OldNode)
    requires o.batches == [OldBatch([OLD_A], Written), OldBatch([OLD_B], Written), OldBatch([OLD_C], Written)]
    requires o.written == [0, 2, 1]
    ensures FileOf(o) == Some([OLD_A, OLD_C, OLD_B])
  {
    assert At(o.batches, 0) == [OLD_A] && At(o.batches, 2) == [OLD_C] && At(o.batches, 1) == [OLD_B];
    assert Chosen(o.batches, o.written, 0) == [];
    assert Chosen(o.batches, o.written, 1) == [OLD_A];
    assert Chosen(o.batches, o.written, 2) == [OLD_A, OLD_C];
    assert Chosen(o.batches, o.written, 3) == [OLD_A, OLD_C, OLD_B];
    assert o.written != [] && |o.written| == 3;
  }

  lemma Overtaken(r: State -> bool) returns (s: State)
    requires Closed(1, r)
    ensures r(s) && s.workers == [FetchServe(NO_FLAGS.(miss := true), 0, 2, true)]
    ensures s.entry.Some? && s.file == None && s.old_.written == [0, 2, 1]
    ensures s.old_.batches == [OldBatch([OLD_A], Written), OldBatch([OLD_B], Written), OldBatch([OLD_C], Written)]
  {
    var s0 := PopsOwn(r);
    s := OldGets(1, r, s0, OLD_C);
    s := OldPopsOne(1, r, s, OLD_C);
    s := OldHandsLast(1, r, s, s0.old_.batches, OLD_C, true);
    var s1 := s;
    s := Next(1, r, s1, OldHand(1, true));
    assert s == s1.(old_ := OldHands(s1.old_, 1, true));
  }

  /** The call has popped an item of its own. */
  lemma PopsOwn(r: State -> bool) returns (s: State)
    requires Closed(1, r)
    ensures r(s) && s.workers == [FetchServe(NO_FLAGS.(miss := true), 0, 2, true)]
    ensures s.entry.Some? && s.file == None
    ensures s.old_ == OldNode([], [], [OldBatch([OLD_A], Written), OldBatch([OLD_B], InHand)], [0], [OLD_A, OLD_B])
  {
    var miss := NO_FLAGS.(miss := true);
    s := ReachCall(r);
    s := OldGets(1, r, s, OLD_B);
    CallsOld(1, r, s, miss);
    PopsOne(s.old_, OLD_B);
    s := Now(s.(old_ := OldPops(s.old_)), FetchServe(miss, 0, 2, true));
  }
}
