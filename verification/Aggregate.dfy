/** The aggregator's evaluation of expressions over the hosts of a cluster. */
module Aggregate {
  import opened Model
  import opened Strings
  import opened Arithmetic
  import opened Expression

  // ---------- strconv.ParseFloat on plain decimals ----------

  function ParseFloat(s: string): Option<real> {
    var (whole, part) := match Cut(s, '.')
                         case None => (s, "")
                         case Some(cut) => cut;
    if whole + part == "" then None
    else
      match ParseDigits(whole + part)
      case None => None
      case Some(v) =>
        PowPositive(|part|);
        Some(v as real / Pow(10, |part|) as real)
  }

  lemma {:induction false} PowPositive(n: nat)
    ensures Pow(10, n) > 0
  {
    if n > 0 { PowPositive(n - 1); }
  }

  lemma {:induction false} DigitsParse(s: string)
    requires forall k :: 0 <= k < |s| ==> '0' <= s[k] <= '9'
    ensures ParseDigits(s).Some?
  {
    if s != "" { DigitsParse(s[..|s| - 1]); }
  }

  lemma WholeParses(s: string)
    requires IsDigits(s)
    ensures ParseFloat(s).Some?
  {
    assert Free(s, '.');
    assert s + "" == s;
    DigitsParse(s);
  }

  lemma PartParses(whole: string, part: string)
    requires IsDigits(whole) && IsDigits(part)
    ensures ParseFloat(whole + ['.'] + part).Some?
  {
    assert Free(whole, '.');
    CutAt(whole, '.', part);
    var all := whole + part;
    assert forall k :: 0 <= k < |all| ==> all[k] == if k < |whole| then whole[k] else part[k - |whole|];
    DigitsParse(all);
  }

  /** The number of an accepted expression always has a value. */
  lemma DecimalParses(s: string)
    requires IsDecimal(s)
    ensures ParseFloat(s).Some?
  {
    if IsDigits(s) {
      WholeParses(s);
    } else {
      var whole, part := DecimalParts(s);
      PartParses(whole, part);
    }
  }

  // ---------- compareSum ----------

  predicate Mark(c: char) {
    c == '>' || c == '<' || c == '='
  }

  predicate Figure(c: char) {
    '0' <= c <= '9' || c == '.'
  }

  /** The lengths of the longest runs of either kind that a string starts with. */
  function Marks(s: string): nat {
    if s == "" || !Mark(s[0]) then 0 else 1 + Marks(s[1..])
  }

  function Figures(s: string): nat {
    if s == "" || !Figure(s[0]) then 0 else 1 + Figures(s[1..])
  }

  lemma {:induction false} MarksEnd(a: string, b: string)
    requires (forall k :: 0 <= k < |a| ==> Mark(a[k])) && b != "" && !Mark(b[0])
    ensures Marks(a + b) == |a|
  {
    if a == "" {
      assert a + b == b;
    } else {
      assert (a + b)[1..] == a[1..] + b;
      MarksEnd(a[1..], b);
    }
  }

  lemma {:induction false} FiguresEnd(s: string)
    requires forall k :: 0 <= k < |s| ==> Figure(s[k])
    ensures Figures(s) == |s|
  {
    if s != "" { FiguresEnd(s[1..]); }
  }

  lemma {:induction false} RunsFit(s: string)
    ensures Marks(s) <= |s| && Figures(s) <= |s|
  {
    if s != "" { RunsFit(s[1..]); }
  }

  /** The leftmost match of ([><=]+)([\d\.]+). */
  function FindMode(s: string): Option<(string, string)> {
    if s == "" then None
    else
      RunsFit(s);
      var n := Marks(s);
      RunsFit(s[n..]);
      var m := Figures(s[n..]);
      if n > 0 && m > 0 then Some((s[..n], s[n..n + m])) else FindMode(s[1..])
  }

  predicate Holds(op: string, sum: real, val: real) {
    if op == ">" then sum > val
    else if op == "<" then sum < val
    else if op == "=" then sum == val
    else if op == ">=" then sum >= val
    else op == "<=" && sum <= val
  }

  /** The error of ParseFloat is dropped, which leaves 0. */
  function Or0(v: Option<real>): real {
    if v.Some? then v.value else 0.0
  }

  predicate CompareSum(sum: real, mode: string)
    requires FindMode(mode).Some?
  {
    var m := FindMode(mode).value;
    Holds(m.0, sum, Or0(ParseFloat(m.1)))
  }

  lemma OperatorMarks(op: string)
    requires IsOperator(op)
    ensures op != "" && forall k :: 0 <= k < |op| ==> Mark(op[k])
  {
  }

  lemma DecimalFigures(s: string)
    requires IsDecimal(s)
    ensures s != "" && !Mark(s[0]) && Figures(s) == |s|
  {
    if !IsDigits(s) {
      var whole, part := DecimalParts(s);
      assert s[0] == whole[0];
    }
    assert forall k :: 0 <= k < |s| ==> Figure(s[k]);
    FiguresEnd(s);
  }

  /** The comparison of an accepted expression is found again in what parse calls the mode. */
  lemma ModeFound(cmp: Comparison)
    requires Compares(cmp)
    ensures FindMode(PrintComparison(cmp)) == Some((cmp.op, cmp.number))
  {
    OperatorMarks(cmp.op);
    DecimalFigures(cmp.number);
    ModeSplits(cmp.op, cmp.number);
  }

  lemma ModeSplits(op: string, number: string)
    requires op != "" && (forall k :: 0 <= k < |op| ==> Mark(op[k]))
    requires number != "" && !Mark(number[0]) && Figures(number) == |number|
    ensures FindMode(op + number) == Some((op, number))
  {
    var s := op + number;
    MarksEnd(op, number);
    assert s[|op|..] == number && s[..|op|] == op;
    assert s[|op|..|op| + |number|] == number;
  }

  // ---------- queryCounterLast and queryOperands ----------

  datatype LastPoint = LastPoint(endpoint: string, counter: string, timestamp: int, value: real)

  predicate InTime(p: LastPoint, begin: int, end: int) {
    begin <= p.timestamp <= end
  }

  function ValueMap(points: seq<LastPoint>, begin: int, end: int): map<string, real> {
    if points == [] then map[]
    else
      var before := ValueMap(points[..|points| - 1], begin, end);
      var p := points[|points| - 1];
      if InTime(p, begin, end) then before[p.endpoint + p.counter := p.value] else before
  }

  method QueryCounterLast(points: seq<LastPoint>, begin: int, end: int) returns (ret: map<string, real>)
    ensures ret == ValueMap(points, begin, end)
  {
    ret := map[];
    for i := 0 to |points|
      invariant ret == ValueMap(points[..i], begin, end)
    {
      assert points[..i + 1][..i] == points[..i];
      var p := points[i];
      if !(p.timestamp < begin || p.timestamp > end) {
        ret := ret[p.endpoint + p.counter := p.value];
      }
    }
    assert points[..|points|] == points;
  }

  /** The last point in time of one counter of one host. */
  function OwnLast(points: seq<LastPoint>, begin: int, end: int, host: string, counter: string): Option<real> {
    if points == [] then None
    else
      var p := points[|points| - 1];
      if InTime(p, begin, end) && p.endpoint == host && p.counter == counter then Some(p.value)
      else OwnLast(points[..|points| - 1], begin, end, host, counter)
  }

  /** Host and counter are joined without a separator: two hosts never share a key just when neither begins the other. */
  lemma KeysDistinct(h1: string, h2: string)
    ensures (forall c1: string, c2: string :: h1 + c1 != h2 + c2) <==> !(h1 <= h2) && !(h2 <= h1)
  {
    if h1 <= h2 {
      assert h1 + h2[|h1|..] == h2 + "";
    } else if h2 <= h1 {
      assert h1 + "" == h2 + h1[|h2|..];
    } else {
      forall c1: string, c2: string ensures h1 + c1 != h2 + c2 {
        if h1 + c1 == h2 + c2 { Begins(h1, c1, h2, c2); }
      }
    }
  }

  lemma Begins(h1: string, c1: string, h2: string, c2: string)
    requires h1 + c1 == h2 + c2
    ensures h1 <= h2 || h2 <= h1
    ensures h1 == h2 ==> c1 == c2
  {
    assert (h1 + c1)[..|h1|] == h1 && (h2 + c2)[..|h2|] == h2;
    assert (h1 + c1)[|h1|..] == c1 && (h2 + c2)[|h2|..] == c2;
  }

  /** So a host that neither begins nor is begun by another is given its own counters' last values. */
  lemma {:induction false} OwnValues(points: seq<LastPoint>, begin: int, end: int, host: string, counter: string)
    requires forall k :: 0 <= k < |points| ==>
               var h := points[k].endpoint; h == host || (!(h <= host) && !(host <= h))
    ensures var m := ValueMap(points, begin, end);
            OwnLast(points, begin, end, host, counter)
            == if host + counter in m then Some(m[host + counter]) else None
  {
    if points != [] {
      var p := points[|points| - 1];
      OwnValues(points[..|points| - 1], begin, end, host, counter);
      if p.endpoint + p.counter == host + counter {
        Begins(p.endpoint, p.counter, host, counter);
      }
    }
  }

  function Values(counters: seq<string>, endpoint: string, m: map<string, real>): seq<real> {
    if counters == [] then []
    else (if endpoint + counters[0] in m then [m[endpoint + counters[0]]] else [])
         + Values(counters[1..], endpoint, m)
  }

  method QueryOperands(counters: seq<string>, endpoint: string, m: map<string, real>) returns (ret: seq<real>)
    ensures ret == Values(counters, endpoint, m)
  {
    ret := [];
    for i := 0 to |counters|
      invariant ret + Values(counters[i..], endpoint, m) == Values(counters, endpoint, m)
    {
      assert counters[i..][1..] == counters[i + 1..];
      if endpoint + counters[i] in m {
        ret := ret + [m[endpoint + counters[i]]];
      }
    }
  }

  // ---------- compute ----------

  function Folded(sum: real, vals: seq<real>, operators: seq<string>): real
    requires |vals| <= |operators|
    decreases vals
  {
    if vals == [] then sum
    else Folded(if operators[0] == "+" then sum + vals[0] else sum - vals[0], vals[1..], operators[1..])
  }

  /** What parse leaves for compute: enough operators, and a mode that compareSum can read. */
  predicate Computable(p: Parsed) {
    |p.operands| <= |p.operators| + 1 && (p.mode != "" ==> FindMode(p.mode).Some?)
  }

  /** compute's value, or None for its errors. */
  function Computed(p: Parsed, host: string, m: map<string, real>): Option<real>
    requires Computable(p)
  {
    var vals := Values(p.operands, host, m);
    if p.operands == [] || |vals| != |p.operands| then None
    else
      var sum := Folded(vals[0], vals[1..], p.operators);
      Some(if p.mode == "" then sum else if CompareSum(sum, p.mode) then 1.0 else 0.0)
  }

  method Compute(p: Parsed, host: string, m: map<string, real>) returns (r: Option<real>)
    requires Computable(p)
    ensures r == Computed(p, host, m)
  {
    var count := |p.operands|;
    if count == 0 {
      return None;
    }
    var vals := QueryOperands(p.operands, host, m);
    if |vals| != count {
      return None;
    }
    var sum := vals[0];
    for i := 0 to |vals| - 1
      invariant Folded(sum, vals[i + 1..], p.operators[i..]) == Folded(vals[0], vals[1..], p.operators)
    {
      assert vals[i + 1..][1..] == vals[i + 2..] && p.operators[i..][1..] == p.operators[i + 1..];
      if p.operators[i] == "+" {
        sum := sum + vals[i + 1];
      } else {
        sum := sum - vals[i + 1];
      }
    }
    if p.mode != "" {
      return Some(if CompareSum(sum, p.mode) then 1.0 else 0.0);
    }
    return Some(sum);
  }

  // ---------- what an expression means ----------

  predicate Present(sum: Sum, host: string, m: map<string, real>) {
    host + sum.name in m && (sum.More? ==> Present(sum.rest, host, m))
  }

  /** The sum of the counters, each with its own sign. */
  function Total(plus: bool, sum: Sum, host: string, m: map<string, real>): real
    requires Present(sum, host, m)
    decreases sum
  {
    var v := m[host + sum.name];
    (if plus then v else -v) + if sum.More? then Total(sum.plus, sum.rest, host, m) else 0.0
  }

  /** A computed side at one host: nothing unless all its counters are there. */
  function Meaning(e: Expr, host: string, m: map<string, real>): Option<real>
    requires e.Counters?
  {
    if !Present(e.sum, host, m) then None
    else
      var total := Total(true, e.sum, host, m);
      match e.cmp
      case NoComparison => Some(total)
      case Compare(op, number) => Some(if Holds(op, total, Or0(ParseFloat(number))) then 1.0 else 0.0)
  }

  /** Every computed expression that expressionValid accepts can be computed without a panic. */
  lemma AcceptedIsComputable(s: string)
    requires ExpressionValid(s) && NeedCompute(s)
    ensures |Items(s)| >= 2 && Computable(FromItems(Items(s)))
  {
    AcceptedIsPrinted(s);
    var e :| Reads(s, e);
    ComputedExactly(e);
    ModeIsComparison(e);
    OperatorsInBounds(Items(s));
    if e.cmp.Compare? { ModeFound(e.cmp); }
  }

  lemma {:induction false} ValuesLength(counters: seq<string>, host: string, m: map<string, real>)
    ensures |Values(counters, host, m)| <= |counters|
  {
    if counters != [] { ValuesLength(counters[1..], host, m); }
  }

  lemma {:induction false} ValuesPresent(sum: Sum, host: string, m: map<string, real>)
    ensures |Values(Operands(sum), host, m)| == |Operands(sum)| <==> Present(sum, host, m)
  {
    var cs := Operands(sum);
    if sum.More? {
      assert cs[1..] == Operands(sum.rest);
      ValuesPresent(sum.rest, host, m);
      ValuesLength(cs[1..], host, m);
    } else {
      assert cs[1..] == [];
    }
  }

  lemma {:induction false} FoldIsTotal(acc: real, plus: bool, sum: Sum, host: string, m: map<string, real>)
    requires Present(sum, host, m)
    requires |Values(Operands(sum), host, m)| <= |Operators(sum)| + 1
    ensures Folded(acc, Values(Operands(sum), host, m), [Sign(plus)] + Operators(sum))
         == acc + Total(plus, sum, host, m)
    decreases sum
  {
    var vals, ops := Values(Operands(sum), host, m), [Sign(plus)] + Operators(sum);
    assert vals[0] == m[host + sum.name];
    assert ops[1..] == Operators(sum);
    var next := if plus then acc + vals[0] else acc - vals[0];
    if sum.More? {
      assert Operands(sum)[1..] == Operands(sum.rest);
      assert vals[1..] == Values(Operands(sum.rest), host, m);
      FoldIsTotal(next, sum.plus, sum.rest, host, m);
    } else {
      assert Operands(sum)[1..] == [];
      assert vals[1..] == [];
    }
  }

  /** Parsing and computing a printed expression gives its meaning. */
  lemma ComputesMeaning(e: Expr, host: string, m: map<string, real>)
    requires WellFormed(e) && e.Counters? && DollarFree(e.sum)
    ensures |Items(Print(e))| >= 2 && Computable(FromItems(Items(Print(e))))
    ensures Computed(FromItems(Items(Print(e))), host, m) == Meaning(e, host, m)
  {
    ParseInvertsPrint(e);
    SignsAreValid(e.sum);
    var p := Parsed(Operands(e.sum), Operators(e.sum), PrintComparison(e.cmp));
    if e.cmp.Compare? { ModeFound(e.cmp); }
    ValuesPresent(e.sum, host, m);
    if Present(e.sum, host, m) {
      var vals := Values(p.operands, host, m);
      FoldIsTotal(0.0, true, e.sum, host, m);
      assert ([Sign(true)] + p.operators)[1..] == p.operators;
      assert Folded(vals[0], vals[1..], p.operators) == Total(true, e.sum, host, m);
    }
  }
}
