/**
 The Redis lease of common/rediscluster/func.go as a protocol over one key. A call reads its clock, issues SETNX with
 that time plus the timeout, and on a win issues EXPIRE; a loser issues GET and decides on the value it got, and issues
 EXPIRE if that grants it the lock. Commands take effect one at a time on one clock.
 */
module Lease {
  import opened Model

  datatype Held = Held(value: int, deadline: Option<int>)

  /** A value some client has read, how many wins there had been, and when it was read. */
  datatype Reading = Reading(value: int, winsSeen: nat, at: int)

  /** granted: some decision on a reading has granted the lock. */
  datatype State = State(now: int, key: Option<Held>, wins: seq<int>, readings: seq<Reading>, granted: bool)

  datatype Step =
    | Tick
    | SetNx(clock: int)   // the client's clock when it called
    | Expire
    | Get
    | Decide(i: nat)

  /**
   SETNX takes effect up to `delay` seconds after its clock was read, a loser decides up to `lag` seconds after its GET,
   and the EXPIRE of a win takes effect up to `expiry` seconds after it, or at any time or never if that is None. The
   EXPIRE of a decision may come at any time or never.
   */
  datatype Config = Config(timeout: int, delay: nat, lag: nat, expiry: Option<nat>)

  const INIT := State(0, None, [], [], false)

  function LastWin(s: State): int {
    if s.wins == [] then 0 else s.wins[|s.wins| - 1]
  }

  /** The winner's EXPIRE is still to come. */
  predicate Unset(s: State) {
    s.key.Some? && s.key.value.deadline.None?
  }

  predicate Enabled(c: Config, s: State, step: Step) {
    match step
    case Tick => Unset(s) && c.expiry.Some? ==> s.now < LastWin(s) + c.expiry.value
    case SetNx(clock) => s.now - c.delay <= clock <= s.now
    case Expire => c.expiry.None? || s.granted || Unset(s)
    case Get => s.key.Some?
    case Decide(i) => i < |s.readings| && s.now <= s.readings[i].at + c.lag
  }

  /** A key whose deadline has come is gone. */
  function Aged(key: Option<Held>, now: int): Option<Held> {
    if key.Some? && key.value.deadline.Some? && key.value.deadline.value <= now then None else key
  }

  /** The value has run out by more than the timeout. */
  predicate Stale(c: Config, s: State, i: nat) {
    i < |s.readings| && s.now - s.readings[i].value > c.timeout
  }

  function Do(c: Config, s: State, step: Step): State
    requires Enabled(c, s, step)
  {
    match step
    case Tick => s.(now := s.now + 1, key := Aged(s.key, s.now + 1))
    case SetNx(clock) =>
      if s.key.Some? then s else s.(key := Some(Held(clock + c.timeout, None)), wins := s.wins + [s.now])
    case Expire =>
      if s.key.Some? then s.(key := Aged(Some(s.key.value.(deadline := Some(s.now + c.timeout))), s.now)) else s
    case Get => s.(readings := s.readings + [Reading(s.key.value.value, |s.wins|, s.now)])
    case Decide(i) => s.(granted := s.granted || Stale(c, s, i))
  }

  /** Whether the step hands out the lock. */
  predicate Grants(c: Config, s: State, step: Step) {
    match step
    case SetNx(_) => s.key.None?
    case Decide(i) => Stale(c, s, i)
    case _ => false
  }

  function Then(c: Config, r: Option<State>, step: Step): Option<State> {
    if r.Some? && Enabled(c, r.value, step) then Some(Do(c, r.value, step)) else None
  }

  function Run(c: Config, steps: seq<Step>, n: nat): Option<State>
    requires n <= |steps|
  {
    if n == 0 then Some(INIT) else Then(c, Run(c, steps, n - 1), steps[n - 1])
  }

  ghost predicate Reached(c: Config, s: State) {
    exists steps :: Run(c, steps, |steps|) == Some(s)
  }

  /** The lock was won by SETNX at time t and its timeout has not yet run out. */
  predicate Fresh(c: Config, s: State, t: int) {
    t < s.now < t + c.timeout
  }

  /** The step does not grant the lock while some win is fresh. */
  ghost predicate ExclusiveAt(c: Config, s: State, step: Step) {
    Reached(c, s) && Enabled(c, s, step) ==>
      forall k :: 0 <= k < |s.wins| && Fresh(c, s, s.wins[k]) ==> !Grants(c, s, step)
  }

  /** No step of any run does. */
  ghost predicate Exclusive(c: Config) {
    forall s, step :: ExclusiveAt(c, s, step)
  }

  /** The decision grants nothing. */
  ghost predicate RefusedAt(c: Config, s: State, i: nat) {
    Reached(c, s) && Enabled(c, s, Decide(i)) ==> !Grants(c, s, Decide(i))
  }

  // ---------- what every run keeps ----------

  ghost predicate WinsApart(c: Config, s: State) {
    && (forall j, k :: 0 <= j < k < |s.wins| ==> s.wins[j] + c.timeout <= s.wins[k])
    && (s.wins != [] ==> LastWin(s) <= s.now)
    && (s.key.None? && s.wins != [] ==> s.now >= LastWin(s) + c.timeout)
  }

  ghost predicate KeyFits(c: Config, s: State) {
    s.key.Some? ==>
      && s.wins != [] && s.key.value.value >= LastWin(s) - c.delay + c.timeout
      && (s.key.value.deadline.Some? ==> s.key.value.deadline.value >= LastWin(s) + c.timeout
                                         && s.key.value.deadline.value > s.now)
      && (c.expiry.Some? ==>
            if s.key.value.deadline.None? then s.now <= LastWin(s) + c.expiry.value
            else !s.granted ==> s.key.value.deadline.value <= LastWin(s) + c.expiry.value + c.timeout)
  }

  ghost predicate Fits(c: Config, s: State, r: Reading) {
    && 0 < r.winsSeen <= |s.wins| && r.value >= s.wins[r.winsSeen - 1] - c.delay + c.timeout
    && r.at <= s.now && (s.key.None? ==> r.at < s.now)
    && (r.winsSeen < |s.wins| ==> r.at < s.wins[r.winsSeen])
    && (c.expiry.Some? && !s.granted ==> r.at < s.wins[r.winsSeen - 1] + c.expiry.value + c.timeout)
  }

  ghost predicate Keeps(c: Config, s: State) {
    WinsApart(c, s) && KeyFits(c, s) && forall i :: 0 <= i < |s.readings| ==> Fits(c, s, s.readings[i])
  }

  lemma SetNxKeeps(c: Config, s: State, clock: int)
    requires Enabled(c, s, SetNx(clock)) && Keeps(c, s) && c.timeout > 0
    ensures Keeps(c, Do(c, s, SetNx(clock)))
  {
    if s.key.None? {
      var s' := Do(c, s, SetNx(clock));
      assert forall j :: 0 <= j < |s.wins| ==> s'.wins[j] == s.wins[j];
      forall i | 0 <= i < |s'.readings| ensures Fits(c, s', s'.readings[i]) { assert Fits(c, s, s.readings[i]); }
    }
  }

  lemma GetKeeps(c: Config, s: State)
    requires Enabled(c, s, Get) && Keeps(c, s) && c.timeout > 0
    ensures Keeps(c, Do(c, s, Get))
  {
    var s' := Do(c, s, Get);
    forall i | 0 <= i < |s'.readings| ensures Fits(c, s', s'.readings[i]) {
      if i < |s.readings| { assert Fits(c, s, s.readings[i]); }
    }
  }

  lemma TimeKeeps(c: Config, s: State, step: Step)
    requires (step.Tick? || step.Expire? || step.Decide?) && Enabled(c, s, step) && Keeps(c, s) && c.timeout > 0
    ensures Keeps(c, Do(c, s, step))
  {
    var s' := Do(c, s, step);
    forall i | 0 <= i < |s'.readings| ensures Fits(c, s', s'.readings[i]) { assert Fits(c, s, s.readings[i]); }
  }

  lemma StepKeeps(c: Config, s: State, step: Step)
    requires Enabled(c, s, step) && Keeps(c, s) && c.timeout > 0
    ensures Keeps(c, Do(c, s, step))
  {
    if step.SetNx? {
      SetNxKeeps(c, s, step.clock);
    } else if step.Get? {
      GetKeeps(c, s);
    } else {
      TimeKeeps(c, s, step);
    }
  }

  /** SETNX, GET and EXPIRE come so promptly that no decision ever finds its value stale. */
  predicate Prompt(c: Config) {
    c.expiry.Some? && c.expiry.value + c.delay + c.lag <= c.timeout + 1
  }

  lemma PromptNotStale(c: Config, s: State, i: nat)
    requires Keeps(c, s) && Prompt(c) && !s.granted && Enabled(c, s, Decide(i))
    ensures !Stale(c, s, i)
  {
    assert Fits(c, s, s.readings[i]);
  }

  ghost predicate Kept(c: Config, r: Option<State>) {
    r.Some? ==> Keeps(c, r.value) && (Prompt(c) ==> !r.value.granted)
  }

  lemma ThenKept(c: Config, r: Option<State>, step: Step)
    requires Kept(c, r) && c.timeout > 0
    ensures Kept(c, Then(c, r, step))
  {
    if r.Some? && Enabled(c, r.value, step) {
      StepKeeps(c, r.value, step);
      if Prompt(c) && step.Decide? { PromptNotStale(c, r.value, step.i); }
    }
  }

  lemma {:induction false} RunKeeps(c: Config, steps: seq<Step>, n: nat)
    requires n <= |steps| && c.timeout > 0
    ensures Kept(c, Run(c, steps, n))
  {
    if n > 0 {
      RunKeeps(c, steps, n - 1);
      ThenKept(c, Run(c, steps, n - 1), steps[n - 1]);
    }
  }

  lemma ReachedKeeps(c: Config, s: State)
    requires Reached(c, s) && c.timeout > 0
    ensures Keeps(c, s) && (Prompt(c) ==> !s.granted)
  {
    var steps :| Run(c, steps, |steps|) == Some(s);
    RunKeeps(c, steps, |steps|);
  }

  // ---------- the exact bounds ----------

  lemma NoGrantWhileFresh(c: Config, s: State, step: Step, k: nat)
    requires Keeps(c, s) && Enabled(c, s, step) && c.delay <= c.timeout + 1 && c.timeout > 0
    requires c.lag <= 1 || (Prompt(c) && !s.granted)
    requires k < |s.wins| && Fresh(c, s, s.wins[k])
    ensures !Grants(c, s, step)
  {
    assert k == |s.wins| - 1;
    if step.Decide? {
      assert Fits(c, s, s.readings[step.i]);
      if Prompt(c) && !s.granted { PromptNotStale(c, s, step.i); }
    }
  }

  /**
   A fresh win is exclusive in every run exactly when SETNX follows its clock reading within timeout + 1 seconds, and
   either a decision its GET within one, or all three commands together come promptly.
   */
  lemma FreshLeasesAreExclusive(c: Config)
    ensures Exclusive(c) <==> c.timeout <= 1 || (c.delay <= c.timeout + 1 && (c.lag <= 1 || Prompt(c)))
  {
    if c.timeout <= 1 {
    } else if c.delay > c.timeout + 1 {
      ReachedClosed(c);
      var s := SlowSetNx(c, s => Reached(c, s));
      assert !ExclusiveAt(c, s, Decide(0));
    } else if c.lag > 1 && !Prompt(c) {
      ReachedClosed(c);
      var s := LateDecision(c, s => Reached(c, s));
      assert !ExclusiveAt(c, s, Decide(0));
    } else {
      forall s, step ensures ExclusiveAt(c, s, step) { PromptIsExclusive(c, s, step); }
    }
  }

  lemma PromptIsExclusive(c: Config, s: State, step: Step)
    requires c.timeout > 1 && c.delay <= c.timeout + 1 && (c.lag <= 1 || Prompt(c))
    ensures ExclusiveAt(c, s, step)
  {
    if Reached(c, s) && Enabled(c, s, step) {
      ReachedKeeps(c, s);
      forall k | 0 <= k < |s.wins| && Fresh(c, s, s.wins[k]) ensures !Grants(c, s, step) {
        NoGrantWhileFresh(c, s, step, k);
      }
    }
  }

  /**
   No decision ever grants the lock exactly when the commands are prompt, so that SETNX alone hands it out. Where one can
   be granted, two can be at the same second on the same value.
   */
  lemma DecisionsGrantNothing(c: Config)
    requires c.timeout > 0
    ensures (forall s, i :: RefusedAt(c, s, i)) <==> Prompt(c)
    ensures Prompt(c) || exists s :: BothGranted(c, s)
  {
    if Prompt(c) {
      forall s, i ensures RefusedAt(c, s, i) {
        if Reached(c, s) && Enabled(c, s, Decide(i)) {
          ReachedKeeps(c, s);
          PromptNotStale(c, s, i);
        }
      }
    } else {
      ReachedClosed(c);
      var s := TwoGrants(c, s => Reached(c, s));
      assert BothGranted(c, s) && !RefusedAt(c, s, 0);
    }
  }

  /** Two clients that have read the same value, and are both granted the lock now. */
  ghost predicate BothGranted(c: Config, s: State) {
    Reached(c, s) && GrantsBoth(c, s)
  }

  predicate GrantsBoth(c: Config, s: State) {
    && |s.readings| >= 2 && s.readings[0] == s.readings[1]
    && Enabled(c, s, Decide(0)) && Grants(c, s, Decide(0))
    && var s' := Do(c, s, Decide(0)); Enabled(c, s', Decide(1)) && Grants(c, s', Decide(1))
  }

  // ---------- runs ----------

  lemma {:induction false} RunPrefix(c: Config, a: seq<Step>, b: seq<Step>, n: nat)
    requires a <= b && n <= |a|
    ensures Run(c, a, n) == Run(c, b, n)
  {
    if n > 0 {
      RunPrefix(c, a, b, n - 1);
      assert a[n - 1] == b[n - 1];
    }
  }

  lemma RunAt(c: Config, steps: seq<Step>, n: nat)
    requires n < |steps|
    ensures Run(c, steps, n + 1) == Then(c, Run(c, steps, n), steps[n])
  {
  }

  lemma RunMore(c: Config, steps: seq<Step>, s: State, step: Step)
    requires Run(c, steps, |steps|) == Some(s) && Enabled(c, s, step)
    ensures Reached(c, Do(c, s, step))
  {
    var n, more := |steps|, steps + [step];
    RunPrefix(c, steps, more, n);
    RunAt(c, more, n);
    assert |more| == n + 1 && more[n] == step;
  }

  /** A set of states that holds the first one and, with a state, what follows it. */
  ghost predicate Closed(c: Config, r: State -> bool) {
    r(INIT) && forall s, step {:trigger r(s), Do(c, s, step)} :: r(s) && Enabled(c, s, step) ==> r(Do(c, s, step))
  }

  lemma ReachedClosed(c: Config)
    ensures Closed(c, s => Reached(c, s))
  {
    assert Run(c, [], 0) == Some(INIT);
    forall s, step | Reached(c, s) && Enabled(c, s, step) ensures Reached(c, Do(c, s, step)) {
      var steps :| Run(c, steps, |steps|) == Some(s);
      RunMore(c, steps, s, step);
    }
  }

  lemma Next(c: Config, r: State -> bool, s: State, step: Step) returns (s': State)
    requires Closed(c, r) && r(s) && Enabled(c, s, step)
    ensures s' == Do(c, s, step) && r(s')
  {
    s' := Do(c, s, step);
  }

  /** n seconds pass without any effect on the key. */
  predicate Quiet(c: Config, s: State, n: nat) {
    s.key.Some? ==> match s.key.value.deadline
                    case None => c.expiry.Some? ==> s.now + n <= LastWin(s) + c.expiry.value
                    case Some(d) => s.now + n < d
  }

  lemma {:induction false} Wait(c: Config, r: State -> bool, s: State, n: nat) returns (s': State)
    requires Closed(c, r) && r(s) && Quiet(c, s, n)
    ensures r(s') && s' == s.(now := s.now + n)
  {
    s' := s;
    if n > 0 {
      s' := Wait(c, r, s, n - 1);
      s' := Next(c, r, s', Tick);
    }
  }

  /** Won at w on a clock read at 0. */
  lemma Won(c: Config, r: State -> bool, w: nat) returns (s: State)
    requires Closed(c, r) && w <= c.delay
    ensures r(s) && s == State(w, Some(Held(c.timeout, None)), [w], [], false)
  {
    var before := Wait(c, r, INIT, w);
    s := Next(c, r, before, SetNx(0));
  }

  /** And given its deadline e seconds later. */
  lemma WonAndSet(c: Config, r: State -> bool, w: nat, e: nat) returns (s: State)
    requires Closed(c, r) && c.timeout > 0 && w <= c.delay && (c.expiry.Some? ==> e <= c.expiry.value)
    ensures r(s) && s == State(w + e, Some(Held(c.timeout, Some(w + e + c.timeout))), [w], [], false)
  {
    var won := Won(c, r, w);
    var waited := Wait(c, r, won, e);
    s := Next(c, r, waited, Expire);
  }

  /** How long EXPIRE may take, as far as it matters. */
  function Slack(c: Config): int {
    if c.expiry.Some? then c.expiry.value else c.timeout + 2
  }

  /** When the key goes if it is won, and set to expire, as late as may be. */
  function End(c: Config): int {
    c.delay + Slack(c) + c.timeout
  }

  /** It is then read by two clients in its last second. */
  lemma ReadLate(c: Config, r: State -> bool) returns (s: State)
    requires Closed(c, r) && c.timeout > 0
    ensures var read := Reading(c.timeout, 1, End(c) - 1);
            r(s) && s == State(End(c) - 1, Some(Held(c.timeout, Some(End(c)))), [c.delay], [read, read], false)
  {
    var kept := WonAndSet(c, r, c.delay, Slack(c));
    var late := Wait(c, r, kept, c.timeout - 1);
    var once := Next(c, r, late, Get);
    s := Next(c, r, once, Get);
  }

  /** Then n more seconds pass, in the first of which the key goes. */
  lemma ReadAndGone(c: Config, r: State -> bool, n: nat) returns (s: State)
    requires Closed(c, r) && c.timeout > 0 && n > 0
    ensures var read := Reading(c.timeout, 1, End(c) - 1);
            r(s) && s == State(End(c) - 1 + n, None, [c.delay], [read, read], false)
  {
    var last := ReadLate(c, r);
    var gone := Next(c, r, last, Tick);
    s := Wait(c, r, gone, n - 1);
  }

  /** Two clients that read a value late and decide on it as late as may be are both granted. */
  lemma TwoGrants(c: Config, r: State -> bool) returns (s: State)
    requires Closed(c, r) && c.timeout > 0 && !Prompt(c)
    ensures r(s) && GrantsBoth(c, s)
  {
    if c.lag == 0 { s := ReadLate(c, r); } else { s := ReadAndGone(c, r, c.lag); }
  }

  /** The decision grants the lock while a win is fresh. */
  predicate Overlaps(c: Config, s: State, step: Step) {
    s.wins != [] && Fresh(c, s, LastWin(s)) && Enabled(c, s, step) && Grants(c, s, step)
  }

  /** A client that decides two seconds or more after its GET may find the lock won again just before. */
  lemma LateDecision(c: Config, r: State -> bool) returns (s: State)
    requires Closed(c, r) && c.timeout > 1 && c.lag > 1 && !Prompt(c)
    ensures r(s) && Overlaps(c, s, Decide(0))
  {
    var gone := ReadAndGone(c, r, c.lag - 1);
    var won := Next(c, r, gone, SetNx(gone.now));
    var kept := Next(c, r, won, Expire);
    s := Next(c, r, kept, Tick);
  }

  /** A SETNX that lands timeout + 2 seconds late leaves a value that already looks stale within its own timeout. */
  lemma SlowSetNx(c: Config, r: State -> bool) returns (s: State)
    requires Closed(c, r) && c.timeout > 1 && c.delay > c.timeout + 1
    ensures r(s) && Overlaps(c, s, Decide(0))
  {
    var kept := WonAndSet(c, r, c.timeout + 2, 0);
    var late := Wait(c, r, kept, c.timeout - 1);
    s := Next(c, r, late, Get);
  }
}
