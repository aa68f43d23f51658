/** What every run of the migration protocol keeps. */
module MigrationSafety {
  import opened Model
  import opened FlatStore
  import opened Migration
  import opened OldSide

  // ---------- nothing is lost while nothing is removed, replaced or deleted ----------

  predicate Unmarked(f: Flags) {
    !f.sending && !f.fetching
  }

  /** The pushes are on the list of this entry. */
  ghost predicate AllOf(pushing: seq<Pending>, born: nat) {
    forall i :: 0 <= i < |pushing| ==> pushing[i].born == born
  }

  ghost predicate ArrivingFits(s: State) {
    && (forall i :: 0 <= i < |s.arriving.making| ==> Unmarked(s.arriving.making[i].flag))
    && (!s.removed ==> AllOf(s.arriving.pushing, s.born) && (s.arriving.pushing != [] ==> s.entry.Some?))
  }

  ghost predicate TraceFits(s: State) {
    && (forall b :: b in s.trace.acked ==> b in s.trace.peer)
    && (!s.removed && !s.deleted ==> s.trace.discarded == [])
  }

  ghost predicate AtRest(s: State) {
    s.sweep == Resting && s.pulls == 0 && forall w :: 0 <= w < |s.workers| ==> s.workers[w] == Idle
  }

  /** Until an entry is removed or replaced it is there for every worker and sweep at work, and nothing is dropped. */
  ghost predicate Kept(s: State) {
    ArrivingFits(s) && TraceFits(s) && (!s.removed && s.entry.None? ==> AtRest(s))
  }

  /** What no worker does. */
  ghost predicate WorkFrame(s: State, s': State) {
    && s'.arriving == s.arriving && s'.born == s.born && s'.removed == s.removed && s'.deleted == s.deleted
    && (s'.entry.Some? <==> s.entry.Some?) && s'.sweep == s.sweep && s'.pulls == s.pulls
  }

  lemma SendFrame(s: State, w: nat, delivered: bool, ok: bool, diskOk: bool, notExist: bool)
    requires w < |s.workers| && Sending(s.workers[w])
    ensures WorkFrame(s, Worked(s, w, delivered, ok, diskOk, notExist))
  {
  }

  lemma CallFrame(s: State, w: nat, delivered: bool, ok: bool, diskOk: bool, notExist: bool)
    requires w < |s.workers| && (s.workers[w].FetchCall? || s.workers[w].FetchServe?)
    ensures var s' := Worked(s, w, delivered, ok, diskOk, notExist); WorkFrame(s, s') && s'.trace == s.trace
  {
  }

  lemma EndFrame(s: State, w: nat, delivered: bool, ok: bool, diskOk: bool, notExist: bool)
    requires w < |s.workers| && s.workers[w] != Idle && !Sending(s.workers[w])
    requires !s.workers[w].FetchCall? && !s.workers[w].FetchServe?
    ensures var s' := Worked(s, w, delivered, ok, diskOk, notExist); WorkFrame(s, s') && s'.trace == s.trace
  {
  }

  lemma OtherFrame(s: State, w: nat, delivered: bool, ok: bool, diskOk: bool, notExist: bool)
    requires w < |s.workers| && s.workers[w] != Idle && !Sending(s.workers[w])
    ensures var s' := Worked(s, w, delivered, ok, diskOk, notExist); WorkFrame(s, s') && s'.trace == s.trace
  {
    if s.workers[w].FetchCall? || s.workers[w].FetchServe? {
      CallFrame(s, w, delivered, ok, diskOk, notExist);
    } else {
      EndFrame(s, w, delivered, ok, diskOk, notExist);
    }
  }

  lemma DeliversFits(s: State, w: nat, flag: Flags, items: Items, tries: nat, delivered: bool, ok: bool)
    requires w < |s.workers| && TraceFits(s)
    ensures TraceFits(CallSend(s, w, flag, items, tries, delivered, ok))
  {
  }

  lemma SendFits(s: State, w: nat, delivered: bool, ok: bool, diskOk: bool, notExist: bool)
    requires w < |s.workers| && Sending(s.workers[w]) && TraceFits(s) && (s.entry.None? ==> s.removed)
    ensures TraceFits(Worked(s, w, delivered, ok, diskOk, notExist))
  {
    var wk := s.workers[w];
    if wk.SendCall? { DeliversFits(s, w, wk.flag, wk.items, wk.tries, delivered, ok); }
  }

  lemma WorkedKept(s: State, w: nat, delivered: bool, ok: bool, diskOk: bool, notExist: bool)
    requires w < |s.workers| && s.workers[w] != Idle && Kept(s)
    ensures Kept(Worked(s, w, delivered, ok, diskOk, notExist))
  {
    var s' := Worked(s, w, delivered, ok, diskOk, notExist);
    if Sending(s.workers[w]) {
      SendFrame(s, w, delivered, ok, diskOk, notExist);
      SendFits(s, w, delivered, ok, diskOk, notExist);
    } else {
      OtherFrame(s, w, delivered, ok, diskOk, notExist);
      TraceStays(s, s');
    }
    SameArrivals(s, s');
  }

  lemma ReceivedFits(s: State, i: nat)
    requires ArrivingFits(s) && i < |s.arriving.looked|
    ensures ArrivingFits(Received(s, i))
  {
    var s' := Received(s, i);
    forall j | 0 <= j < |s'.arriving.making| ensures Unmarked(s'.arriving.making[j].flag) {
      if j < |s.arriving.making| { assert Unmarked(s.arriving.making[j].flag); }
    }
  }

  lemma PushedOnFits(s: State, i: nat)
    requires ArrivingFits(s) && i < |s.arriving.pushing|
    ensures ArrivingFits(PushedOn(s, i))
  {
    var s', p := PushedOn(s, i), s.arriving.pushing;
    if !s.removed {
      assert AllOf(RemoveAt(p, i), s.born);
    }
  }

  lemma SettledFits(s: State, i: nat)
    requires ArrivingFits(s) && i < |s.arriving.making|
    ensures ArrivingFits(Settled(s, i))
  {
    var s' := Settled(s, i);
    forall j | 0 <= j < |s'.arriving.making| ensures Unmarked(s'.arriving.making[j].flag) {
      assert Unmarked(s.arriving.making[if j < i then j else j + 1].flag);
    }
  }

  lemma LookedFits(s: State, item: GraphItem)
    requires ArrivingFits(s)
    ensures ArrivingFits(Looked(s, item))
  {
    var s' := Looked(s, item);
    assert s'.arriving.making == s.arriving.making && s'.arriving.pushing == s.arriving.pushing;
  }

  lemma ArrivalFits(s: State, step: Step)
    requires ArrivingFits(s) && Enabled(s, step) && (step.Look? || step.Receive? || step.PushOn? || step.SetNew?)
    ensures ArrivingFits(Do(s, step))
  {
    match step
    case Look(item) => LookedFits(s, item);
    case Receive(i) => ReceivedFits(s, i);
    case PushOn(i) => PushedOnFits(s, i);
    case SetNew(i) => SettledFits(s, i);
  }

  lemma TraceStays(s: State, s': State)
    requires TraceFits(s) && s'.trace.acked == s.trace.acked && s'.trace.peer == s.trace.peer
    requires (s.removed ==> s'.removed) && (s.deleted ==> s'.deleted)
    requires s'.removed || s'.deleted || s'.trace.discarded == s.trace.discarded
    ensures TraceFits(s')
  {
  }

  lemma ArrivalKept(s: State, step: Step)
    requires Kept(s) && Enabled(s, step) && (step.Look? || step.Receive? || step.PushOn? || step.SetNew?)
    ensures Kept(Do(s, step))
  {
    ArrivalFits(s, step);
    if step.PushOn? {
      assert s.removed || (AllOf(s.arriving.pushing, s.born) && s.entry.Some?);
    }
    TraceStays(s, Do(s, step));
  }

  lemma SameArrivals(s: State, s': State)
    requires ArrivingFits(s) && s'.arriving == s.arriving && s'.born == s.born && (s.removed ==> s'.removed)
    requires s'.removed || (s.entry.Some? ==> s'.entry.Some?)
    ensures ArrivingFits(s')
  {
  }

  lemma DropKept(s: State, step: Step)
    requires Kept(s) && Enabled(s, step) && (step.Remove? || step.Delete?)
    ensures Kept(Do(s, step))
  {
    SameArrivals(s, Do(s, step));
    TraceStays(s, Do(s, step));
  }

  lemma SweepKept(s: State, step: Step)
    requires Kept(s) && Enabled(s, step)
    requires step.SweepRead? || step.SweepAct? || step.SweepPop? || step.ForcedPop? || step.Hand? || step.Start?
    ensures Kept(Do(s, step))
  {
    SameArrivals(s, Do(s, step));
    TraceStays(s, Do(s, step));
  }

  lemma OldKept(s: State, step: Step)
    requires Kept(s) && Enabled(s, step) && (step.OldLook? || step.OldReceive? || step.OldPop? || step.OldHand?)
    ensures Kept(Do(s, step))
  {
    SameArrivals(s, Do(s, step));
    TraceStays(s, Do(s, step));
  }

  lemma StepKept(s: State, step: Step)
    requires Kept(s) && Enabled(s, step)
    ensures Kept(Do(s, step))
  {
    match step
    case Work(w, delivered, ok, diskOk, notExist) => WorkedKept(s, w, delivered, ok, diskOk, notExist);
    case Look(_) => ArrivalKept(s, step);
    case Receive(_) => ArrivalKept(s, step);
    case PushOn(_) => ArrivalKept(s, step);
    case SetNew(_) => ArrivalKept(s, step);
    case Remove => DropKept(s, step);
    case Delete => DropKept(s, step);
    case OldLook(_) => OldKept(s, step);
    case OldReceive(_) => OldKept(s, step);
    case OldPop => OldKept(s, step);
    case OldHand(_, _) => OldKept(s, step);
    case _ => SweepKept(s, step);
  }

  lemma RunKept(workers: nat, steps: seq<Step>, n: nat)
    requires n <= |steps| && Run(workers, steps, n).Some?
    ensures Kept(Run(workers, steps, n).value)
  {
    forall s, step | Kept(s) && Enabled(s, step) ensures Kept(Do(s, step)) { StepKept(s, step); }
    RunInside(workers, s => Kept(s), steps, n);
  }

  ghost predicate InSome(x: GraphItem, batches: seq<Items>) {
    exists b :: b in batches && x in b
  }

  ghost predicate HeldBySome(x: GraphItem, ws: seq<Worker>) {
    exists w :: 0 <= w < |ws| && x in Batch(ws[w])
  }

  lemma {:induction false} CountAllPositive(bs: seq<Items>, x: GraphItem)
    requires CountAll(bs, x) > 0
    ensures InSome(x, bs)
  {
    var n := |bs| - 1;
    if Count(bs[n], x) > 0 {
      CountPositive(bs[n], |bs[n]|, x);
      assert bs[n] in bs && x in bs[n];
    } else {
      CountAllPositive(bs[..n], x);
      var b :| b in bs[..n] && x in b;
      assert b in bs;
    }
  }

  lemma {:induction false} CountHeldPositive(ws: seq<Worker>, n: nat, x: GraphItem)
    requires n <= |ws| && CountHeld(ws, n, x) > 0
    ensures HeldBySome(x, ws)
  {
    if Count(Batch(ws[n - 1]), x) > 0 {
      CountPositive(Batch(ws[n - 1]), |Batch(ws[n - 1])|, x);
      assert x in Batch(ws[n - 1]);
    } else {
      CountHeldPositive(ws, n - 1, x);
    }
  }

  /** With no entry of the key removed or replaced and no delete request, every accepted item is cached, in transit, handed to disk, or on the old node. */
  lemma NothingLost(workers: nat, steps: seq<Step>, x: GraphItem)
    requires Run(workers, steps, |steps|).Some?
    requires var s := Run(workers, steps, |steps|).value; !s.removed && !s.deleted && x in s.trace.accepted
    ensures var s := Run(workers, steps, |steps|).value;
            x in ListOf(s.entry) || HeldBySome(x, s.workers) || InSome(x, s.inHand) || InSome(x, s.trace.handed)
            || InSome(x, s.trace.peer)
  {
    var s := Run(workers, steps, |steps|).value;
    RunBalances(workers, steps, x);
    RunKept(workers, steps, |steps|);
    CountPositive(s.trace.accepted, |s.trace.accepted|, x);
    assert Count(s.trace.accepted, x) > 0;
    CountPositive(ListOf(s.entry), |ListOf(s.entry)|, x);
    if CountAll(s.inHand, x) > 0 { CountAllPositive(s.inHand, x); }
    if CountAll(s.trace.handed, x) > 0 { CountAllPositive(s.trace.handed, x); }
    if CountHeld(s.workers, |s.workers|, x) > 0 { CountHeldPositive(s.workers, |s.workers|, x); }
    if CountAll(s.trace.acked, x) > 0 {
      CountAllPositive(s.trace.acked, x);
      var b :| b in s.trace.acked && x in b;
      assert b in s.trace.peer;
    }
  }

  // ---------- the MISS flag, with one worker ----------

  /** How a worker's local flags relate to the stored ones when nobody else writes them. */
  ghost predicate Agrees(wk: Worker, f: Flags) {
    match wk
    case Idle => Unmarked(f)
    case SendMark(g) => Unmarked(g) && f == g
    case FetchMark(g) => Unmarked(g) && f == g
    case SendPop(g) => Unmarked(g) && f == g.(sending := true)
    case SendCall(g, _, _) => Unmarked(g) && f == g.(sending := true)
    case SendRestore(g, _) => Unmarked(g) && f == g.(sending := true)
    case SendDone(g) => Unmarked(g) && f == g.(sending := true)
    case FetchCall(g, _) => Unmarked(g) && f == g.(fetching := true)
    case FetchServe(g, _, _, _) => Unmarked(g) && f == g.(fetching := true)
    case FetchWrite(g, _) => Unmarked(g) && f == g.(fetching := true)
    case FetchDone(g, wrote, gone) =>
      Unmarked(g) && if wrote.Some? then !g.miss && !gone else f == g.(fetching := true)
    case ClearFlag => Unmarked(f)
    case ClearCommit => f == NO_FLAGS
  }

  ghost predicate Gated(s: State) {
    |s.workers| <= 1 && !s.removed && s.entry.Some? ==>
      && (if s.workers == [] then Unmarked(s.entry.value.flag) else Agrees(s.workers[0], s.entry.value.flag))
      && (s.sweep.Saw? && !s.sweep.seen.miss ==> !s.entry.value.flag.miss)
      && (s.sweep == Committing ==> !s.entry.value.flag.miss)
  }

  ghost predicate Clear(s: State) {
    s.entry.Some? && !s.entry.value.flag.miss
  }

  /** What a step of the only worker guarantees. */
  ghost predicate WorksWell(s: State, s': State) {
    Gated(s') && !s'.removed && (Clear(s) ==> Clear(s')) && s'.entry.Some? && s'.sweep == s.sweep
  }

  lemma SendGated(s: State, delivered: bool, ok: bool, diskOk: bool, notExist: bool)
    requires |s.workers| == 1 && Sending(s.workers[0]) && Gated(s) && s.entry.Some? && !s.removed
    ensures WorksWell(s, Worked(s, 0, delivered, ok, diskOk, notExist))
  {
  }

  lemma CallGated(s: State, delivered: bool, ok: bool, diskOk: bool, notExist: bool)
    requires |s.workers| == 1 && (s.workers[0].FetchMark? || s.workers[0].FetchCall?)
    requires Gated(s) && s.entry.Some? && !s.removed
    ensures WorksWell(s, Worked(s, 0, delivered, ok, diskOk, notExist))
  {
  }

  lemma ServeGated(s: State, delivered: bool, ok: bool, diskOk: bool, notExist: bool)
    requires |s.workers| == 1 && s.workers[0].FetchServe? && Gated(s) && s.entry.Some? && !s.removed
    ensures WorksWell(s, Worked(s, 0, delivered, ok, diskOk, notExist))
  {
  }

  lemma WriteGated(s: State, delivered: bool, ok: bool, diskOk: bool, notExist: bool)
    requires |s.workers| == 1 && (s.workers[0].FetchWrite? || s.workers[0].FetchDone?)
    requires Gated(s) && s.entry.Some? && !s.removed
    ensures WorksWell(s, Worked(s, 0, delivered, ok, diskOk, notExist))
  {
  }

  lemma ClearGated(s: State, delivered: bool, ok: bool, diskOk: bool, notExist: bool)
    requires |s.workers| == 1 && (s.workers[0] == ClearFlag || s.workers[0] == ClearCommit)
    requires Gated(s) && s.entry.Some? && !s.removed
    ensures WorksWell(s, Worked(s, 0, delivered, ok, diskOk, notExist))
  {
  }

  lemma StartGated(s: State, step: Step)
    requires |s.workers| == 1 && step.Start? && Enabled(s, step) && Gated(s) && s.entry.Some? && !s.removed
    ensures WorksWell(s, Do(s, step))
  {
  }

  lemma OtherGated(s: State, step: Step)
    requires |s.workers| <= 1 && !step.Work? && !step.Start? && Enabled(s, step) && Gated(s) && Kept(s) && !s.removed
    ensures Gated(Do(s, step)) && (!Do(s, step).removed && Clear(s) ==> Clear(Do(s, step)))
  {
  }

  lemma StepGated(s: State, step: Step)
    requires |s.workers| <= 1 && Enabled(s, step) && Gated(s) && Kept(s) && !s.removed
    ensures Gated(Do(s, step)) && (!Do(s, step).removed && Clear(s) ==> Clear(Do(s, step)))
  {
    if step.Work? {
      if Sending(s.workers[0]) {
        SendGated(s, step.delivered, step.ok, step.diskOk, step.notExist);
      } else if s.workers[0] == ClearFlag || s.workers[0] == ClearCommit {
        ClearGated(s, step.delivered, step.ok, step.diskOk, step.notExist);
      } else if s.workers[0].FetchServe? {
        ServeGated(s, step.delivered, step.ok, step.diskOk, step.notExist);
      } else if s.workers[0].FetchWrite? || s.workers[0].FetchDone? {
        WriteGated(s, step.delivered, step.ok, step.diskOk, step.notExist);
      } else {
        CallGated(s, step.delivered, step.ok, step.diskOk, step.notExist);
      }
    } else if step.Start? {
      StartGated(s, step);
    } else {
      OtherGated(s, step);
    }
  }

  lemma StaysRemoved(s: State, step: Step)
    requires s.removed && Enabled(s, step)
    ensures Do(s, step).removed
  {
  }

  ghost predicate GatedRun(workers: nat, s: State) {
    Kept(s) && Gated(s) && |s.workers| == workers
  }

  lemma StepGatedRun(workers: nat, s: State, step: Step)
    requires GatedRun(workers, s) && Enabled(s, step)
    ensures GatedRun(workers, Do(s, step))
  {
    StepKept(s, step);
    if s.removed {
      StaysRemoved(s, step);
    } else if workers <= 1 {
      StepGated(s, step);
    }
  }

  lemma RunGated(workers: nat, steps: seq<Step>, n: nat)
    requires n <= |steps| && Run(workers, steps, n).Some?
    ensures GatedRun(workers, Run(workers, steps, n).value)
  {
    forall s, step | GatedRun(workers, s) && Enabled(s, step) ensures GatedRun(workers, Do(s, step)) {
      StepGatedRun(workers, s, step);
    }
    RunInside(workers, s => GatedRun(workers, s), steps, n);
  }

  /**
   Neither a sweep that is not forced, however long ago it read the flag, nor the worker after a missing file commits
   where MISS is set.
   */
  lemma CommitsOnlyWhenClear(workers: nat, steps: seq<Step>)
    requires workers <= 1 && Run(workers, steps, |steps|).Some?
    requires var s := Run(workers, steps, |steps|).value;
             !s.removed && (s.sweep == Committing || s.workers == [ClearCommit])
    ensures Clear(Run(workers, steps, |steps|).value)
  {
    RunGated(workers, steps, |steps|);
    GateIsOpen(Run(workers, steps, |steps|).value);
  }

  lemma GateIsOpen(s: State)
    requires Gated(s) && Kept(s) && |s.workers| <= 1 && !s.removed
    requires s.sweep == Committing || s.workers == [ClearCommit]
    ensures Clear(s)
  {
    if s.workers == [ClearCommit] { assert s.workers[0] == ClearCommit; }
  }

  /** With the worker at rest neither mark is left on the flag word. */
  lemma MarksAreCleared(steps: seq<Step>)
    requires Run(1, steps, |steps|).Some?
    requires var s := Run(1, steps, |steps|).value; !s.removed && s.entry.Some? && s.workers == [Idle]
    ensures Unmarked(Run(1, steps, |steps|).value.entry.value.flag)
  {
    RunGated(1, steps, |steps|);
  }

  /** MISS appears only with a new entry, and goes only by a finished fetch or the not-exist path. */
  lemma MissChanges(steps: seq<Step>, n: nat)
    requires n < |steps| && Run(1, steps, n + 1).Some? && !Run(1, steps, n + 1).value.removed
    ensures var s, s' := Run(1, steps, n).value, Run(1, steps, n + 1).value;
            && (s.entry.Some? && s'.entry.Some? && s'.entry.value.flag.miss ==> s.entry.value.flag.miss)
            && (s.entry.None? && s'.entry.Some? ==> steps[n].SetNew?)
            && (s.entry.Some? && s.entry.value.flag.miss && Clear(s') ==> steps[n].Work? && Finishing(s.workers))
  {
    RunGated(1, steps, n);
    var s := Run(1, steps, n).value;
    if s.removed { StaysRemoved(s, steps[n]); }
    StepGated(s, steps[n]);
    if steps[n].Work? && s.entry.Some? && s.entry.value.flag.miss && !Finishing(s.workers) { WorkClears(s, steps[n]); }
  }

  /** The one worker is about to end a fetch whose file was written, or to take the not-exist path. */
  predicate Finishing(ws: seq<Worker>) {
    |ws| == 1 && (ws[0] == ClearFlag || (ws[0].FetchDone? && ws[0].wrote.Some?))
  }

  lemma WorkClears(s: State, step: Step)
    requires |s.workers| == 1 && step.Work? && Enabled(s, step) && Gated(s) && s.entry.Some? && !s.removed
    requires s.entry.value.flag.miss && !Finishing(s.workers)
    ensures !Clear(Do(s, step))
  {
  }

  // ---------- states that some run reaches ----------

  ghost predicate Reached(workers: nat, s: State) {
    exists steps :: Run(workers, steps, |steps|) == Some(s)
  }

  lemma RunNext(workers: nat, steps: seq<Step>, n: nat)
    requires n < |steps|
    ensures Run(workers, steps, n + 1) == Then(Run(workers, steps, n), steps[n])
  {
  }

  lemma {:induction false} RunPrefix(workers: nat, a: seq<Step>, b: seq<Step>, n: nat)
    requires a <= b && n <= |a|
    ensures Run(workers, a, n) == Run(workers, b, n)
  {
    if n > 0 {
      RunPrefix(workers, a, b, n - 1);
      SameNext(workers, a, b, n - 1);
    }
  }

  lemma SameNext(workers: nat, a: seq<Step>, b: seq<Step>, n: nat)
    requires n < |a| && n < |b| && a[n] == b[n] && Run(workers, a, n) == Run(workers, b, n)
    ensures Run(workers, a, n + 1) == Run(workers, b, n + 1)
  {
    RunNext(workers, a, n);
    RunNext(workers, b, n);
  }

  lemma RunAppend(workers: nat, steps: seq<Step>, step: Step)
    ensures Run(workers, steps + [step], |steps| + 1) == Then(Run(workers, steps, |steps|), step)
  {
    var n, more := |steps|, steps + [step];
    RunPrefix(workers, steps, more, n);
    RunNext(workers, more, n);
    assert more[n] == step;
  }

  lemma RunMore(workers: nat, steps: seq<Step>, s: State, step: Step)
    requires Run(workers, steps, |steps|) == Some(s) && Enabled(s, step)
    ensures Reached(workers, Do(s, step))
  {
    RunAppend(workers, steps, step);
    var more := steps + [step];
    assert |more| == |steps| + 1;
    assert Run(workers, more, |more|) == Some(Do(s, step));
  }

  lemma ReachedClosed(workers: nat)
    ensures Closed(workers, s => Reached(workers, s))
  {
    assert Run(workers, [], 0) == Some(Init(workers));
    forall s, step | Reached(workers, s) && Enabled(s, step) ensures Reached(workers, Do(s, step)) {
      var steps :| Run(workers, steps, |steps|) == Some(s);
      RunMore(workers, steps, s, step);
    }
  }

  lemma Next(workers: nat, r: State -> bool, s: State, step: Step) returns (s': State)
    requires Closed(workers, r) && r(s) && Enabled(s, step)
    ensures s' == Do(s, step) && r(s')
  {
    s' := Do(s, step);
  }

  /** A clear MISS is still clear after the step. */
  ghost predicate StaysClear(workers: nat, s: State, step: Step) {
    Reached(workers, s) && Enabled(s, step) && !Do(s, step).removed && Clear(s) ==> Clear(Do(s, step))
  }

  /** MISS never comes back in any run exactly when each old node is served by at most one worker. */
  lemma MissNeverReturns(workers: nat)
    ensures (forall s, step :: StaysClear(workers, s, step)) <==> workers <= 1
  {
    if workers <= 1 {
      forall s, step ensures StaysClear(workers, s, step) {
        if Reached(workers, s) && Enabled(s, step) {
          var steps :| Run(workers, steps, |steps|) == Some(s);
          RunGated(workers, steps, |steps|);
          if s.removed { StaysRemoved(s, step); } else { StepGated(s, step); }
        }
      }
    } else {
      var s, step := StaleFlagRun(workers);
      assert !StaysClear(workers, s, step);
    }
  }

  const SAMPLE := GraphItem("", "", map[], NaN, 0, "", 0)

  /** A series has arrived, with a second push of it about to set a list of its own, and two pulls are queued for it. */
  ghost predicate TwoPulls(s: State, workers: nat) {
    && s.entry == Some(FIRST) && s.file == None && s.pulls == 2 && !s.removed
    && s.arriving.making == [FIRST]
    && s.old_ == NEW_NODE && |s.workers| == workers && s.sweep == Resting && s.cleared == None
    && forall w :: 0 <= w < workers ==> s.workers[w] == Idle
  }

  const FIRST := Cached([SAMPLE], NO_FLAGS.(miss := true))

  lemma TwoMade(workers: nat, r: State -> bool) returns (s: State)
    requires Closed(workers, r)
    ensures r(s) && s == Init(workers).(arriving := Arriving([], [FIRST, FIRST], []))
  {
    s := Next(workers, r, Init(workers), Look(SAMPLE));
    s := Next(workers, r, s, Look(SAMPLE));
    assert s == Init(workers).(arriving := Arriving([SAMPLE, SAMPLE], [], []));
    s := Next(workers, r, s, Receive(0));
    s := Next(workers, r, s, Receive(0));
  }

  lemma Sweeps(workers: nat, r: State -> bool, s0: State) returns (s: State)
    requires Closed(workers, r) && r(s0) && s0.sweep == Resting && s0.entry == Some(FIRST)
    ensures r(s) && s == s0.(pulls := s0.pulls + 1)
  {
    s := Next(workers, r, s0, SweepRead);
    s := Next(workers, r, s, SweepAct(true));
  }

  lemma TwoPullsRun(workers: nat, r: State -> bool) returns (s: State)
    requires Closed(workers, r)
    ensures r(s) && TwoPulls(s, workers)
  {
    var made := TwoMade(workers, r);
    s := Next(workers, r, made, SetNew(0));
    assert s.entry == Some(FIRST) && s.arriving.making == [FIRST];
    s := Sweeps(workers, r, s);
    s := Sweeps(workers, r, s);
  }

  /** All goes well for worker 0. */
  const FINE := Work(0, true, true, true, false)

  lemma LooksAndTakes(o: OldNode, item: GraphItem)
    requires o.looked == [] && o.list == []
    ensures |OldLooks(o, item).looked| == 1
    ensures OldTakes(OldLooks(o, item), 0) == o.(list := [item], accepted := o.accepted + [item])
  {
    assert OldLooks(o, item).looked == [item];
    assert RemoveAt([item], 0) == [];
  }

  /** The old node receives an item. */
  lemma OldGets(workers: nat, r: State -> bool, s0: State, item: GraphItem) returns (s: State)
    requires Closed(workers, r) && r(s0) && s0.old_.looked == [] && s0.old_.list == []
    ensures r(s) && s == s0.(old_ := s0.old_.(list := [item], accepted := s0.old_.accepted + [item]))
  {
    LooksAndTakes(s0.old_, item);
    s := Next(workers, r, s0, OldLook(item));
    assert s == s0.(old_ := OldLooks(s0.old_, item));
    s := Next(workers, r, s, OldReceive(0));
  }

  lemma PopsOne(o: OldNode, item: GraphItem)
    requires o.list == [item]
    ensures OldPops(o) == o.(list := [], batches := o.batches + [OldBatch([item], InHand)])
  {
    assert Reverse([item]) == [item];
  }

  /** A sweep there pops an only item. */
  lemma OldPopsOne(workers: nat, r: State -> bool, s0: State, item: GraphItem) returns (s: State)
    requires Closed(workers, r) && r(s0) && s0.old_.list == [item]
    ensures r(s)
    ensures s == s0.(old_ := s0.old_.(list := [], batches := s0.old_.batches + [OldBatch([item], InHand)]))
  {
    PopsOne(s0.old_, item);
    s := Next(workers, r, s0, OldPop);
  }

  lemma HandsLast(o: OldNode, bs: seq<OldBatch>, item: GraphItem, ok: bool)
    requires o.batches == bs + [OldBatch([item], InHand)]
    ensures OldHands(o, |bs|, ok) == o.(batches := bs + [OldBatch([item], if ok then Written else Failed)],
                                        written := if ok then o.written + [|bs|] else o.written)
  {
    assert OldHands(o, |bs|, ok).batches == bs + [OldBatch([item], if ok then Written else Failed)];
  }

  /** The batch popped last is flushed. */
  lemma OldHandsLast(workers: nat, r: State -> bool, s0: State, bs: seq<OldBatch>, item: GraphItem, ok: bool)
    returns (s: State)
    requires Closed(workers, r) && r(s0) && s0.old_.batches == bs + [OldBatch([item], InHand)]
    ensures r(s)
    ensures s == s0.(old_ := s0.old_.(batches := bs + [OldBatch([item], if ok then Written else Failed)],
                                      written := if ok then s0.old_.written + [|bs|] else s0.old_.written))
  {
    HandsLast(s0.old_, bs, item, ok);
    s := Next(workers, r, s0, OldHand(|bs|, ok));
  }

  /** The old node receives an item and writes it to its file. */
  lemma OldWrites(workers: nat, r: State -> bool, s0: State, item: GraphItem) returns (s: State)
    requires Closed(workers, r) && r(s0) && s0.old_ == NEW_NODE
    ensures r(s) && s == s0.(old_ := OldNode([], [], [OldBatch([item], Written)], [0], [item]))
  {
    s := OldGets(workers, r, s0, item);
    s := OldPopsOne(workers, r, s, item);
    assert s.old_ == OldNode([], [], [OldBatch([item], InHand)], [], [item]);
    s := OldHandsLast(workers, r, s, [], item, true);
  }

  lemma BothStart(workers: nat, r: State -> bool) returns (s: State)
    requires Closed(workers, r) && workers >= 2
    ensures r(s) && |s.workers| == workers
    ensures s.workers[0] == FetchMark(NO_FLAGS.(miss := true)) && s.workers[1] == SendMark(NO_FLAGS.(miss := true))
    ensures FileOf(s.old_).Some? && s.old_.list == [] && s.file == None && s.entry.Some? && !s.removed
  {
    s := TwoPullsRun(workers, r);
    s := OldWrites(workers, r, s, SAMPLE);
    s := Next(workers, r, s, Start(0, false));
    s := Next(workers, r, s, Start(1, true));
  }

  // one good step of worker 0 each

  function Now(s: State, wk: Worker): State
    requires s.workers != []
  {
    s.(workers := s.workers[0 := wk])
  }

  lemma MarksFetch(workers: nat, r: State -> bool, s: State, flag: Flags)
    requires Closed(workers, r) && r(s) && s.workers != [] && s.workers[0] == FetchMark(flag)
    ensures r(Now(s.(entry := WithFlag(s.entry, flag.(fetching := true))), FetchCall(flag, 0)))
  {
    var _ := Next(workers, r, s, FINE);
  }

  lemma CallsOld(workers: nat, r: State -> bool, s: State, flag: Flags)
    requires Closed(workers, r) && r(s) && s.workers != [] && s.workers[0] == FetchCall(flag, 0)
    ensures var o := OldPops(s.old_);
            r(Now(s.(old_ := o), FetchServe(flag, 0, |o.batches|, s.old_.list != [])))
  {
    var _ := Next(workers, r, s, FINE);
  }

  lemma GetsAnswer(workers: nat, r: State -> bool, s: State, flag: Flags, upTo: nat, mine: bool)
    requires Closed(workers, r) && r(s) && s.workers != [] && s.workers[0] == FetchServe(flag, 0, upTo, mine)
    requires upTo <= |s.old_.batches| && !Waiting(s.old_, upTo, mine) && FileOf(s.old_).Some?
    ensures r(Now(s, FetchWrite(flag, Answered(s.old_, upTo))))
  {
    var _ := Next(workers, r, s, FINE);
  }

  lemma WritesFile(workers: nat, r: State -> bool, s: State, flag: Flags, got: Fetch)
    requires Closed(workers, r) && r(s) && s.workers != [] && s.workers[0] == FetchWrite(flag, got) && s.file == None
    ensures r(Now(s.(file := Some(got.body)), FetchDone(flag.(miss := false), Some(got), false)))
  {
    var _ := Next(workers, r, s, FINE);
  }

  lemma EndsFetch(workers: nat, r: State -> bool, s: State, flag: Flags, got: Fetch)
    requires Closed(workers, r) && r(s) && s.workers != [] && s.workers[0] == FetchDone(flag, Some(got), false)
    requires s.entry.Some?
    ensures r(Now(s.(entry := WithFlag(s.entry, flag.(fetching := false)), cleared := Some(got)), Idle))
  {
    var _ := Next(workers, r, s, FINE);
  }

  /** Worker 0 writes the file it got, and clears MISS. */
  lemma Finishes(workers: nat, r: State -> bool, s: State, flag: Flags, got: Fetch) returns (s': State)
    requires Closed(workers, r) && r(s) && s.workers != [] && s.workers[0] == FetchWrite(flag, got)
    requires s.file == None && s.entry.Some?
    ensures r(s')
    ensures s' == Now(s.(entry := WithFlag(s.entry, flag.(miss := false, fetching := false)), file := Some(got.body),
                         cleared := Some(got)), Idle)
  {
    WritesFile(workers, r, s, flag, got);
    var s1 := Now(s.(file := Some(got.body)), FetchDone(flag.(miss := false), Some(got), false));
    EndsFetch(workers, r, s1, flag.(miss := false), got);
    s' := Now(s1.(entry := WithFlag(s.entry, flag.(miss := false, fetching := false)), cleared := Some(got)), Idle);
  }

  /** A second worker that read the flag before the first cleared it writes MISS back. */
  lemma StaleFlagRun(workers: nat) returns (s: State, step: Step)
    requires workers >= 2
    ensures !StaysClear(workers, s, step)
  {
    ReachedClosed(workers);
    s := OneFetches(workers, x => Reached(workers, x));
    step := Work(1, true, true, true, false);
    SecondMarks(s);
  }

  /** The first worker fetches the file and clears MISS while the second is about to write its flag. */
  lemma OneFetches(workers: nat, r: State -> bool) returns (s: State)
    requires Closed(workers, r) && workers >= 2
    ensures r(s) && |s.workers| == workers && Clear(s) && !s.removed
    ensures s.workers[1] == SendMark(NO_FLAGS.(miss := true))
  {
    s := BothStart(workers, r);
    s := FetchesAlone(workers, r, s);
  }

  lemma FetchesAlone(workers: nat, r: State -> bool, s0: State) returns (s: State)
    requires Closed(workers, r) && r(s0) && |s0.workers| == workers > 0
    requires s0.workers[0] == FetchMark(NO_FLAGS.(miss := true)) && !s0.removed
    requires FileOf(s0.old_).Some? && s0.old_.list == [] && s0.file == None && s0.entry.Some?
    ensures r(s) && |s.workers| == workers && Clear(s) && !s.removed
    ensures s.workers[1..] == s0.workers[1..] && s.arriving.making == s0.arriving.making && s.file.Some?
  {
    var miss := NO_FLAGS.(miss := true);
    s := s0;
    MarksFetch(workers, r, s, miss);
    s := Now(s.(entry := WithFlag(s.entry, miss.(fetching := true))), FetchCall(miss, 0));
    CallsOld(workers, r, s, miss);
    s := Now(s, FetchServe(miss, 0, |s.old_.batches|, false));
    GetsAnswer(workers, r, s, miss, |s.old_.batches|, false);
    s := Now(s, FetchWrite(miss, Answered(s.old_, |s.old_.batches|)));
    s := Finishes(workers, r, s, miss, s.workers[0].got);
  }

  /** A fetch is over and a list made before is still to be set. */
  ghost predicate SetsLate(s: State) {
    && Clear(s) && !s.removed
    && Enabled(s, SetNew(0)) && !Clear(Do(s, SetNew(0))) && Do(s, SetNew(0)).removed
  }

  lemma FetchesFirst(workers: nat, r: State -> bool) returns (s: State)
    requires Closed(workers, r) && workers > 0
    ensures r(s) && SetsLate(s)
  {
    s := TwoPullsRun(workers, r);
    s := OldWrites(workers, r, s, SAMPLE);
    s := Next(workers, r, s, Start(0, false));
    s := FetchesAlone(workers, r, s);
  }

  /**
   With any worker at all, a push that found the key missing before the list was made sets its own after the fetch: the
   entry is replaced by one with MISS.
   */
  lemma CrossedPushRun(workers: nat) returns (s: State)
    requires workers > 0
    ensures Reached(workers, s) && Clear(s) && !s.removed
    ensures Enabled(s, SetNew(0)) && !Clear(Do(s, SetNew(0))) && Do(s, SetNew(0)).removed
  {
    ReachedClosed(workers);
    s := FetchesFirst(workers, x => Reached(workers, x));
  }

  lemma SecondMarks(s: State)
    requires |s.workers| >= 2 && Clear(s) && !s.removed && s.workers[1] == SendMark(NO_FLAGS.(miss := true))
    ensures var step := Work(1, true, true, true, false);
            Enabled(s, step) && !Do(s, step).removed && !Clear(Do(s, step))
  {
  }
}
