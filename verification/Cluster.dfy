/** One aggregation over a cluster: WorkerRun of modules/aggregator/cron/run.go, from the two strings to the pushed value. */
module Cluster {
  import opened Model
  import opened Expression
  import opened Aggregate
  import CleanParam

  // ---------- the run ----------

  /** A side of the ratio: parsed when its expression is computed. */
  type Side = Option<Parsed>

  function When(needCompute: bool, p: Parsed): Side {
    if needCompute then Some(p) else None
  }

  predicate Ready(side: Side) {
    side.Some? ==> Computable(side.value)
  }

  /** compute on a side, 0 when there is nothing to compute. */
  function At(side: Side, host: string, m: map<string, real>): Option<real>
    requires Ready(side)
  {
    if side.None? then Some(0.0) else Computed(side.value, host, m)
  }

  predicate Counts(n: Side, d: Side, host: string, m: map<string, real>)
    requires Ready(n) && Ready(d)
  {
    At(n, host, m).Some? && At(d, host, m).Some?
  }

  /** The hosts that are counted. */
  function Complete(n: Side, d: Side, hosts: seq<string>, m: map<string, real>): (r: seq<string>)
    requires Ready(n) && Ready(d)
    ensures forall h :: h in r ==> Counts(n, d, h, m)
  {
    if hosts == [] then []
    else
      var last := hosts[|hosts| - 1];
      Complete(n, d, hosts[..|hosts| - 1], m) + if Counts(n, d, last, m) then [last] else []
  }

  function SumOver(side: Side, hosts: seq<string>, m: map<string, real>): real
    requires Ready(side) && forall h :: h in hosts ==> At(side, h, m).Some?
  {
    if hosts == [] then 0.0
    else
      var last := hosts[|hosts| - 1];
      SumOver(side, hosts[..|hosts| - 1], m) + At(side, last, m).value
  }

  lemma SumOneMore(side: Side, hosts: seq<string>, h: string, m: map<string, real>)
    requires Ready(side) && (forall h :: h in hosts ==> At(side, h, m).Some?) && At(side, h, m).Some?
    ensures SumOver(side, hosts + [h], m) == SumOver(side, hosts, m) + At(side, h, m).value
  {
    assert (hosts + [h])[..|hosts|] == hosts;
  }

  /** What a side that is not computed stands for: the number of hosts counted, or a constant. */
  function Given(s: string, validCount: nat): Option<real> {
    if s == "$#" then Some(validCount as real) else ParseFloat(s)
  }

  function SideOf(s: string): (side: Side)
    requires ExpressionValid(s)
    ensures Ready(side)
  {
    if NeedCompute(s) then
      AcceptedIsComputable(s);
      Some(FromItems(Items(s)))
    else None
  }

  function Ratio(numerator: Option<real>, denominator: Option<real>, validCount: nat): Option<real> {
    if numerator.None? || denominator.None? || denominator.value == 0.0 || validCount == 0 then None
    else Some(numerator.value / denominator.value)
  }

  predicate Proceeds(numerator: string, denominator: string) {
    && ExpressionValid(numerator) && ExpressionValid(denominator)
    && (NeedCompute(numerator) || NeedCompute(denominator))
    && (NeedCompute(numerator) ==> OperatorsValid(SideOf(numerator).value.operators))
    && (NeedCompute(denominator) ==> OperatorsValid(SideOf(denominator).value.operators))
  }

  function Result(s: string, complete: seq<string>, m: map<string, real>): Option<real>
    requires ExpressionValid(s) && forall h :: h in complete ==> At(SideOf(s), h, m).Some?
  {
    if NeedCompute(s) then Some(SumOver(SideOf(s), complete, m)) else Given(s, |complete|)
  }

  /** What is pushed, if anything: numerator and denominator are sums over the same hosts. */
  function Pushed(numerator: string, denominator: string, hosts: seq<string>, m: map<string, real>): Option<real> {
    if !Proceeds(numerator, denominator) then None
    else
      var complete := Complete(SideOf(numerator), SideOf(denominator), hosts, m);
      Ratio(Result(numerator, complete, m), Result(denominator, complete, m), |complete|)
  }

  method ParseSide(s: string, needCompute: bool) returns (r: Parsed)
    requires ExpressionValid(s) && needCompute == NeedCompute(s)
    ensures Computable(r)
    ensures SideOf(s) == When(needCompute, r) && (!needCompute ==> r == Parsed([], [], ""))
  {
    if needCompute { AcceptedIsComputable(s); }
    r := Parse(s, needCompute);
  }

  method Accumulate(needN: bool, n: Parsed, needD: bool, d: Parsed, hostnames: seq<string>, valueMap: map<string, real>)
    returns (numerator: real, denominator: real, validCount: nat)
    requires Computable(n) && Computable(d)
    ensures var complete := Complete(When(needN, n), When(needD, d), hostnames, valueMap);
            numerator == SumOver(When(needN, n), complete, valueMap)
            && denominator == SumOver(When(needD, d), complete, valueMap)
            && validCount == |complete|
  {
    numerator, denominator, validCount := 0.0, 0.0, 0;
    ghost var complete, ns, ds := [], When(needN, n), When(needD, d);
    for i := 0 to |hostnames|
      invariant complete == Complete(ns, ds, hostnames[..i], valueMap)
      invariant numerator == SumOver(ns, complete, valueMap) && denominator == SumOver(ds, complete, valueMap)
      invariant validCount == |complete|
    {
      assert hostnames[..i + 1][..i] == hostnames[..i];
      var hostname := hostnames[i];
      var numeratorVal, denominatorVal := 0.0, 0.0;
      if needN {
        var val := Compute(n, hostname, valueMap);
        if val.None? { continue; }
        numeratorVal := val.value;
      }
      if needD {
        var val := Compute(d, hostname, valueMap);
        if val.None? { continue; }
        denominatorVal := val.value;
      }
      SumOneMore(ns, complete, hostname, valueMap);
      SumOneMore(ds, complete, hostname, valueMap);
      complete := complete + [hostname];
      numerator := numerator + numeratorVal;
      denominator := denominator + denominatorVal;
      validCount := validCount + 1;
    }
    assert hostnames[..|hostnames|] == hostnames;
  }

  /** points is the answer of the query, None when it failed; the method never panics. */
  method WorkerRun(itemNumerator: string, itemDenominator: string, hostnames: seq<string>,
                   points: Option<seq<LastPoint>>, begin: int, end: int) returns (pushed: Option<real>)
    ensures pushed == if points.None? then None
                      else Pushed(CleanParam.Cleaned(itemNumerator), CleanParam.Cleaned(itemDenominator), hostnames,
                                  ValueMap(points.value, begin, end))
  {
    var numeratorStr := CleanParam.Clean(itemNumerator);
    var denominatorStr := CleanParam.Clean(itemDenominator);
    pushed := RunCleaned(numeratorStr, denominatorStr, hostnames, points, begin, end);
  }

  /** run.go:39-172 */
  method RunCleaned(numeratorStr: string, denominatorStr: string, hostnames: seq<string>,
                    points: Option<seq<LastPoint>>, begin: int, end: int) returns (pushed: Option<real>)
    ensures pushed == if points.None? then None
                      else Pushed(numeratorStr, denominatorStr, hostnames, ValueMap(points.value, begin, end))
  {
    if !ExpressionValid(numeratorStr) || !ExpressionValid(denominatorStr) {
      return None;
    }
    var needN, needD := NeedCompute(numeratorStr), NeedCompute(denominatorStr);
    if !needN && !needD {
      return None;
    }
    var n := ParseSide(numeratorStr, needN);
    var d := ParseSide(denominatorStr, needD);
    if !OperatorsValid(n.operators) || !OperatorsValid(d.operators) {
      return None;
    }
    if hostnames == [] {
      return None;
    }
    if points.None? {
      return None;
    }
    var valueMap := QueryCounterLast(points.value, begin, end);
    var numerator, denominator, validCount := Accumulate(needN, n, needD, d, hostnames, valueMap);
    if !needN {
      var given := Given(numeratorStr, validCount);
      if given.None? { return None; }
      numerator := given.value;
    }
    if !needD {
      var given := Given(denominatorStr, validCount);
      if given.None? { return None; }
      denominator := given.value;
    }
    if denominator == 0.0 {
      return None;
    }
    if validCount == 0 {
      return None;
    }
    return Some(numerator / denominator);
  }

  // ---------- what is pushed, in terms of the expressions ----------

  predicate PresentIn(e: Expr, host: string, m: map<string, real>) {
    e.Counters? ==> Present(e.sum, host, m)
  }

  /** The hosts that have every counter of every computed side. */
  function Having(n: Expr, d: Expr, hosts: seq<string>, m: map<string, real>): (r: seq<string>)
    ensures forall h :: h in r ==> PresentIn(n, h, m) && PresentIn(d, h, m)
  {
    if hosts == [] then []
    else
      var last := hosts[|hosts| - 1];
      Having(n, d, hosts[..|hosts| - 1], m) + if PresentIn(n, last, m) && PresentIn(d, last, m) then [last] else []
  }

  function MeaningOver(e: Expr, hosts: seq<string>, m: map<string, real>): real
    requires e.Counters? && forall h :: h in hosts ==> PresentIn(e, h, m)
  {
    if hosts == [] then 0.0
    else
      var last := hosts[|hosts| - 1];
      assert PresentIn(e, last, m);
      MeaningOver(e, hosts[..|hosts| - 1], m) + Meaning(e, last, m).value
  }

  /** The value of a side over the hosts: their number, a constant, or the sum of its meaning at each. */
  function Value(e: Expr, hosts: seq<string>, m: map<string, real>): Option<real>
    requires forall h :: h in hosts ==> PresentIn(e, h, m)
  {
    match e
    case Hosts => Some(|hosts| as real)
    case Number(digits) => ParseFloat(digits)
    case Counters(_, _, _) => Some(MeaningOver(e, hosts, m))
  }

  predicate Clear(e: Expr) {
    WellFormed(e) && !Chinese(Print(e)) && (e.Counters? ==> DollarFree(e.sum))
  }

  lemma SideMeans(e: Expr, host: string, m: map<string, real>)
    requires Clear(e)
    ensures ExpressionValid(Print(e)) && (NeedCompute(Print(e)) <==> e.Counters?)
    ensures e.Counters? ==> OperatorsValid(SideOf(Print(e)).value.operators)
    ensures At(SideOf(Print(e)), host, m) == if e.Counters? then Meaning(e, host, m) else Some(0.0)
    ensures At(SideOf(Print(e)), host, m).Some? <==> PresentIn(e, host, m)
  {
    PrintedIsAccepted(e);
    ComputedExactly(e);
    if e.Counters? {
      ComputesMeaning(e, host, m);
      ParseInvertsPrint(e);
      SignsAreValid(e.sum);
    }
  }

  lemma {:induction false} CompleteIsHaving(n: Expr, d: Expr, hosts: seq<string>, m: map<string, real>)
    requires Clear(n) && Clear(d) && ExpressionValid(Print(n)) && ExpressionValid(Print(d))
    ensures Complete(SideOf(Print(n)), SideOf(Print(d)), hosts, m) == Having(n, d, hosts, m)
  {
    if hosts != [] {
      SideMeans(n, hosts[|hosts| - 1], m);
      SideMeans(d, hosts[|hosts| - 1], m);
      CompleteIsHaving(n, d, hosts[..|hosts| - 1], m);
    }
  }

  lemma {:induction false} SumIsMeaning(e: Expr, hosts: seq<string>, m: map<string, real>)
    requires Clear(e) && e.Counters? && ExpressionValid(Print(e))
    requires forall h :: h in hosts ==> PresentIn(e, h, m)
    ensures forall h :: h in hosts ==> At(SideOf(Print(e)), h, m).Some?
    ensures SumOver(SideOf(Print(e)), hosts, m) == MeaningOver(e, hosts, m)
  {
    if hosts != [] {
      var before, last := hosts[..|hosts| - 1], hosts[|hosts| - 1];
      assert PresentIn(e, last, m);
      SideMeans(e, last, m);
      SumIsMeaning(e, before, m);
      forall h | h in hosts ensures At(SideOf(Print(e)), h, m).Some? {
        assert h in before || h == last;
      }
    }
  }

  lemma ResultIsValue(e: Expr, hosts: seq<string>, m: map<string, real>)
    requires Clear(e) && ExpressionValid(Print(e)) && forall h :: h in hosts ==> PresentIn(e, h, m)
    ensures forall h :: h in hosts ==> At(SideOf(Print(e)), h, m).Some?
    ensures Result(Print(e), hosts, m) == Value(e, hosts, m)
  {
    SideMeans(e, "", m);
    if e.Counters? {
      SumIsMeaning(e, hosts, m);
    } else if e.Number? {
      assert e.digits[0] != '$';
    }
  }

  /**
   * What is pushed for two printed expressions: the ratio of their values over exactly the hosts that have every
   * counter of both, and nothing when there is no such host, the denominator is 0, or neither side has a counter.
   */
  lemma PushedIsRatio(n: Expr, d: Expr, hosts: seq<string>, m: map<string, real>)
    requires Clear(n) && Clear(d)
    ensures var having := Having(n, d, hosts, m);
            Pushed(Print(n), Print(d), hosts, m)
            == if !n.Counters? && !d.Counters? then None
               else Ratio(Value(n, having, m), Value(d, having, m), |having|)
  {
    SideMeans(n, "", m);
    SideMeans(d, "", m);
    CompleteIsHaving(n, d, hosts, m);
    var having := Having(n, d, hosts, m);
    ResultIsValue(n, having, m);
    ResultIsValue(d, having, m);
  }

  /** The constant or the count of a side that is not computed always has a value, so only three things stop a push. */
  lemma ValueIsThere(e: Expr, hosts: seq<string>, m: map<string, real>)
    requires WellFormed(e) && forall h :: h in hosts ==> PresentIn(e, h, m)
    ensures Value(e, hosts, m).Some?
  {
    if e.Number? { DecimalParses(e.digits); }
  }
}
