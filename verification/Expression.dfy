/**
 * The aggregator's expressions: what expressionValid accepts, and what parse reads from an accepted string.
 * The four regular expressions of expressionValid are written out as a grammar (Expr, WellFormed, Print) and as
 * the reader that Go's matcher amounts to on them.
 */
module Expression {
  import opened Model

  // ---------- the grammar ----------

  /** One or more counters joined by + and -. */
  datatype Sum = Last(name: string) | More(name: string, plus: bool, rest: Sum)

  datatype Comparison = NoComparison | Compare(op: string, number: string)

  datatype Expr =
    | Hosts
    | Number(digits: string)
    | Counters(sum: Sum, cmp: Comparison, grouped: bool)

  predicate Paren(c: char) {
    c == '(' || c == ')'
  }

  /** [^()]+ */
  predicate IsName(n: string) {
    n != "" && forall k :: 0 <= k < |n| ==> !Paren(n[k])
  }

  predicate Named(sum: Sum) {
    IsName(sum.name) && (sum.More? ==> Named(sum.rest))
  }

  /** \d+ */
  predicate IsDigits(s: string) {
    s != "" && forall k :: 0 <= k < |s| ==> '0' <= s[k] <= '9'
  }

  /** \d+(\.\d+)? */
  predicate IsDecimal(s: string) {
    IsDigits(s) || exists k :: 0 <= k < |s| && s[k] == '.' && IsDigits(s[..k]) && IsDigits(s[k + 1..])
  }

  lemma DecimalParts(s: string) returns (whole: string, part: string)
    requires IsDecimal(s) && !IsDigits(s)
    ensures IsDigits(whole) && IsDigits(part) && s == whole + ['.'] + part
  {
    var k :| 0 <= k < |s| && s[k] == '.' && IsDigits(s[..k]) && IsDigits(s[k + 1..]);
    whole, part := s[..k], s[k + 1..];
  }

  predicate IsOperator(op: string) {
    op == ">" || op == "=" || op == "<" || op == ">=" || op == "<="
  }

  predicate Compares(cmp: Comparison) {
    cmp.Compare? && IsOperator(cmp.op) && IsDecimal(cmp.number)
  }

  /** A bare sum, one counter compared, or a sum in parentheses compared. */
  predicate WellFormed(e: Expr) {
    match e
    case Hosts => true
    case Number(digits) => IsDigits(digits)
    case Counters(sum, cmp, grouped) =>
      Named(sum) && if cmp.NoComparison? then !grouped else Compares(cmp) && (grouped || sum.Last?)
  }

  function Counter(name: string): string {
    "$(" + name + ")"
  }

  function Sign(plus: bool): string {
    if plus then "+" else "-"
  }

  function PrintSum(sum: Sum): string {
    match sum
    case Last(name) => Counter(name)
    case More(name, plus, rest) => Counter(name) + Sign(plus) + PrintSum(rest)
  }

  function PrintComparison(cmp: Comparison): string {
    if cmp.NoComparison? then "" else cmp.op + cmp.number
  }

  function Print(e: Expr): string {
    match e
    case Hosts => "$#"
    case Number(digits) => digits
    case Counters(sum, cmp, grouped) =>
      if grouped then "(" + PrintSum(sum) + ")" + PrintComparison(cmp) else PrintSum(sum) + PrintComparison(cmp)
  }

  /** The full-width parentheses that expressionValid refuses first. */
  predicate Chinese(s: string) {
    exists k :: 0 <= k < |s| && (s[k] == '\U{FF08}' || s[k] == '\U{FF09}')
  }

  // ---------- expressionValid ----------

  function NameEnd(s: string): (n: nat)
    ensures n <= |s| && (forall k :: 0 <= k < n ==> !Paren(s[k])) && (n < |s| ==> Paren(s[n]))
  {
    if s == "" || Paren(s[0]) then 0 else 1 + NameEnd(s[1..])
  }

  /** \$\([^()]+\) at the start of s, and what follows it. */
  function ReadCounter(s: string): (r: Option<(string, string)>)
    ensures r.Some? ==> IsName(r.value.0) && s == Counter(r.value.0) + r.value.1
  {
    if |s| < 2 || s[0] != '$' || s[1] != '(' then None
    else
      var n := NameEnd(s[2..]);
      if n == 0 || 2 + n == |s| || s[2 + n] != ')' then None
      else Some((s[2..2 + n], s[3 + n..]))
  }

  predicate Signed(s: string) {
    s != "" && (s[0] == '+' || s[0] == '-')
  }

  lemma MorePrinted(name: string, sum: Sum, left: string, rest: string)
    requires Signed(rest) && rest[1..] == PrintSum(sum) + left
    ensures Counter(name) + rest == PrintSum(More(name, rest[0] == '+', sum)) + left
  {
    var sign := Sign(rest[0] == '+');
    assert rest == sign + (PrintSum(sum) + left) by {
      assert rest == [rest[0]] + rest[1..];
    }
    Append3(Counter(name), sign, PrintSum(sum), left);
  }

  lemma Append3(a: string, b: string, c: string, d: string)
    ensures a + (b + (c + d)) == a + b + c + d
  {
  }

  /** (\$\([^()]+\)[+-])*\$\([^()]+\) at the start of s, not followed by a sign. */
  function ReadSum(s: string): (r: Option<(Sum, string)>)
    ensures r.Some? ==> Named(r.value.0) && s == PrintSum(r.value.0) + r.value.1 && !Signed(r.value.1)
    decreases |s|
  {
    match ReadCounter(s)
    case None => None
    case Some((name, rest)) =>
      if !Signed(rest) then Some((Last(name), rest))
      else
        match ReadSum(rest[1..])
        case None => None
        case Some((sum, left)) =>
          MorePrinted(name, sum, left, rest);
          Some((More(name, rest[0] == '+', sum), left))
  }

  /** (>|=|<|>=|<=)\d+(\.\d+)?$ */
  function ReadComparison(s: string): (r: Option<Comparison>)
    ensures r.Some? ==> Compares(r.value) && s == PrintComparison(r.value)
  {
    if s == "" || (s[0] != '>' && s[0] != '<' && s[0] != '=') then None
    else
      var n := if |s| > 1 && s[0] != '=' && s[1] == '=' then 2 else 1;
      if IsDecimal(s[n..]) then
        assert s == s[..n] + s[n..];
        Some(Compare(s[..n], s[n..]))
      else None
  }

  predicate Mode0(s: string) {
    var r := ReadSum(s);
    r.Some? && r.value.1 == ""
  }

  predicate Mode1(s: string) {
    var r := ReadCounter(s);
    r.Some? && ReadComparison(r.value.1).Some?
  }

  predicate Mode2(s: string) {
    s != "" && s[0] == '(' &&
    var r := ReadSum(s[1..]);
    r.Some? && r.value.1 != "" && r.value.1[0] == ')' && ReadComparison(r.value.1[1..]).Some?
  }

  predicate ExpressionValid(s: string) {
    !Chinese(s) && (s == "$#" || Mode0(s) || Mode1(s) || Mode2(s) || IsDigits(s))
  }

  lemma CounterRead(name: string, rest: string)
    requires IsName(name)
    ensures ReadCounter(Counter(name) + rest) == Some((name, rest))
  {
    var s := Counter(name) + rest;
    var n := NameEnd(s[2..]);
    assert forall k :: 0 <= k < |name| ==> s[2..][k] == name[k];
    assert s[2..][|name|] == ')';
    assert n == |name|;
    assert s[2..2 + n] == name && s[3 + n..] == rest;
  }

  lemma {:induction false} SumRead(sum: Sum, rest: string)
    requires Named(sum) && !Signed(rest)
    ensures ReadSum(PrintSum(sum) + rest) == Some((sum, rest))
    decreases sum
  {
    match sum
    case Last(name) => CounterRead(name, rest);
    case More(name, plus, more) =>
      SumRead(more, rest);
      MoreRead(name, plus, more, rest);
  }

  lemma MoreRead(name: string, plus: bool, more: Sum, rest: string)
    requires Named(More(name, plus, more)) && ReadSum(PrintSum(more) + rest) == Some((more, rest))
    ensures ReadSum(PrintSum(More(name, plus, more)) + rest) == Some((More(name, plus, more), rest))
  {
    var left := Sign(plus) + (PrintSum(more) + rest);
    Append3(Counter(name), Sign(plus), PrintSum(more), rest);
    CounterRead(name, left);
    assert left[1..] == PrintSum(more) + rest;
  }

  lemma ComparisonRead(cmp: Comparison)
    requires Compares(cmp)
    ensures ReadComparison(PrintComparison(cmp)) == Some(cmp)
    ensures PrintComparison(cmp) != "" && !Signed(PrintComparison(cmp))
  {
    var s := PrintComparison(cmp);
    assert '0' <= cmp.number[0] <= '9';
    assert s[|cmp.op|..] == cmp.number && s[..|cmp.op|] == cmp.op;
    assert s[|cmp.op|] == cmp.number[0];
  }

  lemma PlainAccepted(sum: Sum)
    requires Named(sum)
    ensures Mode0(Print(Counters(sum, NoComparison, false)))
  {
    SumRead(sum, "");
    assert Print(Counters(sum, NoComparison, false)) == PrintSum(sum) + "";
  }

  lemma SinglePrinted(name: string, cmp: Comparison)
    ensures Print(Counters(Last(name), cmp, false)) == Counter(name) + PrintComparison(cmp)
  {
  }

  lemma SingleAccepted(name: string, cmp: Comparison)
    requires IsName(name) && Compares(cmp)
    ensures Mode1(Print(Counters(Last(name), cmp, false)))
  {
    ComparisonRead(cmp);
    CounterRead(name, PrintComparison(cmp));
    SinglePrinted(name, cmp);
  }

  lemma GroupedPrinted(sum: Sum, cmp: Comparison)
    ensures Print(Counters(sum, cmp, true)) == ['('] + (PrintSum(sum) + ([')'] + PrintComparison(cmp)))
  {
  }

  lemma GroupedAccepted(sum: Sum, cmp: Comparison)
    requires Named(sum) && Compares(cmp)
    ensures Mode2(Print(Counters(sum, cmp, true)))
  {
    ComparisonRead(cmp);
    var after := [')'] + PrintComparison(cmp);
    SumRead(sum, after);
    GroupedPrinted(sum, cmp);
    assert Print(Counters(sum, cmp, true))[1..] == PrintSum(sum) + after;
    assert after[1..] == PrintComparison(cmp);
  }

  lemma PrintedIsAccepted(e: Expr)
    requires WellFormed(e) && !Chinese(Print(e))
    ensures ExpressionValid(Print(e))
  {
    if e.Counters? {
      if e.cmp.NoComparison? {
        PlainAccepted(e.sum);
      } else if e.grouped {
        GroupedAccepted(e.sum, e.cmp);
      } else {
        SingleAccepted(e.sum.name, e.cmp);
      }
    }
  }

  ghost predicate Reads(s: string, e: Expr) {
    WellFormed(e) && Print(e) == s
  }

  lemma Mode0Reads(s: string)
    requires Mode0(s)
    ensures Reads(s, Counters(ReadSum(s).value.0, NoComparison, false))
  {
  }

  lemma Mode1Reads(s: string)
    requires Mode1(s)
    ensures Reads(s, Counters(Last(ReadCounter(s).value.0), ReadComparison(ReadCounter(s).value.1).value, false))
  {
    var r := ReadCounter(s).value;
    SinglePrinted(r.0, ReadComparison(r.1).value);
  }

  lemma Mode2Reads(s: string)
    requires Mode2(s)
    ensures var r := ReadSum(s[1..]).value; Reads(s, Counters(r.0, ReadComparison(r.1[1..]).value, true))
  {
    var r := ReadSum(s[1..]).value;
    var cmp := ReadComparison(r.1[1..]).value;
    assert r.1 == [')'] + PrintComparison(cmp) by {
      assert r.1 == [r.1[0]] + r.1[1..];
    }
    GroupedPrinted(r.0, cmp);
    assert s == [s[0]] + s[1..];
  }

  lemma AcceptedIsPrinted(s: string)
    requires ExpressionValid(s)
    ensures exists e :: Reads(s, e)
  {
    if Mode0(s) {
      Mode0Reads(s);
    } else if Mode1(s) {
      Mode1Reads(s);
    } else if Mode2(s) {
      Mode2Reads(s);
    } else {
      assert Reads(s, if s == "$#" then Hosts else Number(s));
    }
  }

  /** expressionValid accepts exactly the printed expressions without full-width parentheses. */
  lemma AcceptsExactlyPrinted(s: string)
    ensures ExpressionValid(s) <==> !Chinese(s) && exists e :: Reads(s, e)
  {
    if ExpressionValid(s) {
      AcceptedIsPrinted(s);
    } else if !Chinese(s) {
      forall e ensures !Reads(s, e) {
        if Reads(s, e) { PrintedIsAccepted(e); }
      }
    }
  }

  // ---------- needCompute and parse ----------

  predicate NeedCompute(s: string) {
    exists k :: 0 <= k < |s| - 1 && s[k] == '$' && s[k + 1] == '('
  }

  /** Of the accepted strings, exactly the sums of counters are computed. */
  lemma ComputedExactly(e: Expr)
    requires WellFormed(e)
    ensures NeedCompute(Print(e)) <==> e.Counters?
  {
    var s := Print(e);
    match e
    case Hosts =>
    case Number(digits) =>
    case Counters(sum, cmp, grouped) =>
      var k := if grouped then 1 else 0;
      assert PrintSum(sum)[0] == '$' && PrintSum(sum)[1] == '(' by {
        assert Counter(sum.name)[0] == '$' && Counter(sum.name)[1] == '(';
      }
      assert s[k] == '$' && s[k + 1] == '(';
  }

  /** [\$\(\)] */
  predicate Separator(c: char) {
    c == '$' || c == '(' || c == ')'
  }

  predicate Solid(p: string) {
    forall k :: 0 <= k < |p| ==> !Separator(p[k])
  }

  /** Regexp.Split(s, -1) on [\$\(\)]+: the pieces between the longest runs of separators. */
  function Items(s: string): (r: seq<string>)
    ensures r != [] && forall i :: 0 <= i < |r| ==> Solid(r[i])
  {
    if s == "" then [""]
    else if !Separator(s[0]) then
      var r := Items(s[1..]);
      [[s[0]] + r[0]] + r[1..]
    else if |s| > 1 && Separator(s[1]) then Items(s[1..])
    else [""] + Items(s[1..])
  }

  /** The elements at even places, and those at odd places. */
  function Evens(s: seq<string>): seq<string> {
    if s == [] then [] else [s[0]] + Odds(s[1..])
  }

  function Odds(s: seq<string>): seq<string> {
    if s == [] then [] else Evens(s[1..])
  }

  datatype Parsed = Parsed(operands: seq<string>, operators: seq<string>, mode: string)

  /** What parse returns for the items it split the expression into. */
  function FromItems(items: seq<string>): Parsed
    requires |items| >= 2
  {
    var middle := items[1..|items| - 1];
    Parsed(Evens(middle), Odds(middle), items[|items| - 1])
  }

  lemma {:induction false} SplitHasTwo(s: string)
    requires exists k :: 0 <= k < |s| && Separator(s[k])
    ensures |Items(s)| >= 2
  {
    var k :| 0 <= k < |s| && Separator(s[k]);
    if !Separator(s[0]) {
      assert Separator(s[1..][k - 1]);
      SplitHasTwo(s[1..]);
    } else if |s| > 1 && Separator(s[1]) {
      assert Separator(s[1..][0]);
      SplitHasTwo(s[1..]);
    }
  }

  method Parse(expression: string, needCompute: bool) returns (r: Parsed)
    requires needCompute ==> NeedCompute(expression)
    ensures r == if needCompute && |Items(expression)| >= 2 then FromItems(Items(expression)) else Parsed([], [], "")
    ensures needCompute ==> |Items(expression)| >= 2
  {
    if !needCompute {
      return Parsed([], [], "");
    }
    assert |Items(expression)| >= 2 by {
      var k :| 0 <= k < |expression| - 1 && expression[k] == '$' && expression[k + 1] == '(';
      assert Separator(expression[k]);
      SplitHasTwo(expression);
    }
    var items := Items(expression);
    var count := |items|;
    var middle := items[1..count - 1];
    var operands: seq<string>, operators: seq<string> := [], [];
    for i := 0 to |middle|
      invariant i % 2 == 0 ==> operands + Evens(middle[i..]) == Evens(middle) && operators + Odds(middle[i..]) == Odds(middle)
      invariant i % 2 == 1 ==> operands + Odds(middle[i..]) == Evens(middle) && operators + Evens(middle[i..]) == Odds(middle)
    {
      assert middle[i..] == [middle[i]] + middle[i + 1..];
      if i % 2 == 0 {
        operands := operands + [middle[i]];
      } else {
        operators := operators + [middle[i]];
      }
    }
    r := Parsed(operands, operators, items[count - 1]);
  }

  predicate OperatorsValid(ops: seq<string>) {
    forall i :: 0 <= i < |ops| ==> ops[i] == "+" || ops[i] == "-"
  }

  // ---------- parse inverts printing ----------

  function Operands(sum: Sum): seq<string> {
    match sum
    case Last(name) => [name]
    case More(name, _, rest) => [name] + Operands(rest)
  }

  function Operators(sum: Sum): seq<string> {
    match sum
    case Last(_) => []
    case More(_, plus, rest) => [Sign(plus)] + Operators(rest)
  }

  function Interleaved(sum: Sum): seq<string> {
    match sum
    case Last(name) => [name]
    case More(name, plus, rest) => [name, Sign(plus)] + Interleaved(rest)
  }

  lemma {:induction false} Unzipped(sum: Sum)
    ensures Evens(Interleaved(sum)) == Operands(sum) && Odds(Interleaved(sum)) == Operators(sum)
  {
    var s := Interleaved(sum);
    match sum
    case Last(name) => assert s[1..] == [];
    case More(name, plus, rest) =>
      assert s[1..] == [Sign(plus)] + Interleaved(rest);
      assert s[1..][1..] == Interleaved(rest);
      Unzipped(rest);
  }

  lemma {:induction false} SplitSolid(p: string)
    requires Solid(p)
    ensures Items(p) == [p]
  {
    if p != "" {
      SplitSolid(p[1..]);
      assert p == [p[0]] + p[1..];
    }
  }

  lemma {:induction false} SplitPiece(p: string, run: string, rest: string)
    requires Solid(p) && run != "" && (forall k :: 0 <= k < |run| ==> Separator(run[k]))
    requires rest == "" || !Separator(rest[0])
    ensures Items(p + run + rest) == [p] + Items(rest)
    decreases |p| + |run|
  {
    var s := p + run + rest;
    if p != "" {
      assert s[1..] == p[1..] + run + rest;
      SplitPiece(p[1..], run, rest);
      assert p == [p[0]] + p[1..];
    } else if |run| > 1 {
      assert s[1] == run[1] && s[1..] == "" + run[1..] + rest;
      SplitPiece("", run[1..], rest);
    } else {
      assert s[1..] == rest;
      assert |s| > 1 ==> s[1] == rest[0];
    }
  }

  /** No name has a '$', so that a name is one piece. */
  predicate DollarFree(sum: Sum) {
    (forall k :: 0 <= k < |sum.name| ==> sum.name[k] != '$') && (sum.More? ==> DollarFree(sum.rest))
  }

  lemma {:induction false} SplitSum(x: string, open: string, sum: Sum, close: string, tail: string)
    requires Named(sum) && DollarFree(sum) && Solid(x) && Solid(tail)
    requires forall k :: 0 <= k < |open| ==> open[k] == '('
    requires forall k :: 0 <= k < |close| ==> close[k] == ')'
    ensures Items(x + open + PrintSum(sum) + close + tail) == [x] + Interleaved(sum) + [tail]
    decreases sum
  {
    var before, name := open + "$(", sum.name;
    assert Solid(name);
    assert forall k :: 0 <= k < |before| ==> Separator(before[k]);
    if sum.Last? {
      var run := ")" + close;
      SumAtLast(x, open, name, close, tail);
      SplitPiece(x, before, name + run + tail);
      SplitPiece(name, run, tail);
      SplitSolid(tail);
    } else {
      var sign := Sign(sum.plus);
      var after := sign + "" + PrintSum(sum.rest) + close + tail;
      SumAfterName(x, open, sum, close, tail);
      SplitPiece(x, before, name + ")" + after);
      SplitPiece(name, ")", after);
      SplitSum(sign, "", sum.rest, close, tail);
      Chain(x, name, sign, Interleaved(sum.rest), tail);
    }
  }

  lemma Chain(x: string, name: string, sign: string, between: seq<string>, tail: string)
    ensures [x] + ([name] + ([sign] + between + [tail])) == [x] + ([name, sign] + between) + [tail]
  {
  }

  lemma SumAtLast(x: string, open: string, name: string, close: string, tail: string)
    ensures x + open + PrintSum(Last(name)) + close + tail == x + (open + "$(") + (name + (")" + close) + tail)
  {
    Append3(x + open, "$(", name, ")");
  }

  lemma SumAfterName(x: string, open: string, sum: Sum, close: string, tail: string)
    requires sum.More?
    ensures x + open + PrintSum(sum) + close + tail
         == x + (open + "$(") + (sum.name + ")" + (Sign(sum.plus) + "" + PrintSum(sum.rest) + close + tail))
  {
    MoreIs(sum);
    Regroup(x, open, "$(", sum.name + ")", Sign(sum.plus), PrintSum(sum.rest), close + tail);
    Grouped(x + open + PrintSum(sum), close, tail);
    Grouped(Sign(sum.plus) + PrintSum(sum.rest), close, tail);
    Grouped(Sign(sum.plus), "", PrintSum(sum.rest));
  }

  lemma MoreIs(sum: Sum)
    requires sum.More?
    ensures PrintSum(sum) == "$(" + (sum.name + ")") + Sign(sum.plus) + PrintSum(sum.rest)
    ensures Sign(sum.plus) + "" == Sign(sum.plus)
  {
  }

  lemma Grouped(a: string, b: string, c: string)
    ensures a + b + c == a + (b + c)
  {
  }

  lemma Regroup(x: string, open: string, d: string, n: string, sign: string, sum: string, rest: string)
    ensures x + open + (d + n + sign + sum) + rest == x + (open + d) + (n + (sign + sum + rest))
  {
  }

  /** Whatever stands before its last separator, the last piece is what stands after. */
  lemma {:induction false} LastPiece(s: string, sep: char, tail: string)
    requires Separator(sep) && Solid(tail)
    ensures var r := Items(s + [sep] + tail); |r| >= 2 && r[|r| - 1] == tail
  {
    var all := s + [sep] + tail;
    if s == "" {
      assert all[1..] == tail;
      assert |all| > 1 ==> all[1] == tail[0];
      SplitSolid(tail);
    } else {
      assert all[1..] == s[1..] + [sep] + tail;
      LastPiece(s[1..], sep, tail);
    }
  }

  lemma DecimalSolid(s: string)
    requires IsDecimal(s)
    ensures Solid(s)
  {
    if !IsDigits(s) {
      var whole, part := DecimalParts(s);
    }
  }

  lemma ComparisonSolid(cmp: Comparison)
    requires cmp.Compare? ==> Compares(cmp)
    ensures Solid(PrintComparison(cmp))
  {
    if cmp.Compare? {
      assert forall k :: 0 <= k < |cmp.op| ==> !Separator(cmp.op[k]);
      DecimalSolid(cmp.number);
    }
  }

  lemma {:induction false} SumEnds(sum: Sum)
    ensures PrintSum(sum) != "" && PrintSum(sum)[|PrintSum(sum)| - 1] == ')'
  {
    if sum.More? { SumEnds(sum.rest); }
  }

  /** The comparison is read back from every accepted expression, whatever its counters are called. */
  lemma ModeIsComparison(e: Expr)
    requires WellFormed(e) && e.Counters?
    ensures |Items(Print(e))| >= 2 && FromItems(Items(Print(e))).mode == PrintComparison(e.cmp)
  {
    var tail := PrintComparison(e.cmp);
    var all := if e.grouped then "(" + PrintSum(e.sum) + ")" else PrintSum(e.sum);
    ComparisonSolid(e.cmp);
    SumEnds(e.sum);
    assert all[|all| - 1] == ')';
    assert all == all[..|all| - 1] + [')'];
    assert Print(e) == all[..|all| - 1] + [')'] + tail;
    LastPiece(all[..|all| - 1], ')', tail);
  }

  lemma {:induction false} EvensAreElements(s: seq<string>, k: nat)
    ensures k < |Evens(s)| ==> Evens(s)[k] in s
    ensures k < |Odds(s)| ==> Odds(s)[k] in s
    ensures |Odds(s)| <= |Evens(s)| <= |Odds(s)| + 1
  {
    if s != [] {
      assert s == [s[0]] + s[1..];
      EvensAreElements(s[1..], k);
      if k > 0 { EvensAreElements(s[1..], k - 1); }
    }
  }

  /** There is an operator before every operand but the first: compute's operators[i] is in bounds. */
  lemma OperatorsInBounds(items: seq<string>)
    requires |items| >= 2
    ensures |FromItems(items).operators| <= |FromItems(items).operands| <= |FromItems(items).operators| + 1
  {
    EvensAreElements(items[1..|items| - 1], 0);
  }

  lemma {:induction false} SolidOperands(sum: Sum)
    requires Named(sum) && forall k :: 0 <= k < |Operands(sum)| ==> Solid(Operands(sum)[k])
    ensures DollarFree(sum)
  {
    assert Solid(Operands(sum)[0]);
    if sum.More? {
      forall k | 0 <= k < |Operands(sum.rest)| ensures Solid(Operands(sum.rest)[k]) {
        assert Operands(sum)[k + 1] == Operands(sum.rest)[k];
      }
      SolidOperands(sum.rest);
    }
  }

  /** parse gives back the counters, signs and comparison that were printed exactly when no name has a '$'. */
  lemma ParseInvertsPrint(e: Expr)
    requires WellFormed(e) && e.Counters?
    ensures |Items(Print(e))| >= 2
    ensures FromItems(Items(Print(e))) == Parsed(Operands(e.sum), Operators(e.sum), PrintComparison(e.cmp))
       <==> DollarFree(e.sum)
  {
    ModeIsComparison(e);
    var items := Items(Print(e));
    var middle := items[1..|items| - 1];
    if DollarFree(e.sum) {
      var open, close := if e.grouped then "(" else "", if e.grouped then ")" else "";
      ComparisonSolid(e.cmp);
      assert Print(e) == "" + open + PrintSum(e.sum) + close + PrintComparison(e.cmp);
      SplitSum("", open, e.sum, close, PrintComparison(e.cmp));
      assert middle == Interleaved(e.sum);
      Unzipped(e.sum);
    } else if Evens(middle) == Operands(e.sum) {
      forall k | 0 <= k < |Operands(e.sum)| ensures Solid(Operands(e.sum)[k]) {
        EvensAreElements(middle, k);
        var i :| 0 <= i < |middle| && middle[i] == Evens(middle)[k];
        assert Solid(items[i + 1]);
      }
      SolidOperands(e.sum);
      assert false;
    }
  }

  lemma {:induction false} SignsAreValid(sum: Sum)
    ensures OperatorsValid(Operators(sum)) && |Operators(sum)| + 1 == |Operands(sum)|
  {
    if sum.More? { SignsAreValid(sum.rest); }
  }

  function DollarSum(): Sum {
    More("a", true, Last("$"))
  }

  lemma DollarPrinted()
    ensures PrintSum(DollarSum()) == "$(a)+$($)"
  {
    assert Counter("a") == "$(a)" && Counter("$") == "$($)";
    assert PrintSum(Last("$")) == "$($)";
    assert PrintSum(More("a", true, Last("$"))) == "$(a)" + "+" + "$($)";
  }

  lemma DollarSplit()
    ensures Items("$(a)+$($)") == ["", "a", "+", ""]
  {
    assert "$(a)+$($)" == "" + "$(" + "a)+$($)";
    SplitPiece("", "$(", "a)+$($)");
    DollarRest();
  }

  lemma DollarRest()
    ensures Items("a)+$($)") == ["a", "+", ""]
  {
    assert "a)+$($)" == "a" + ")" + "+$($)";
    SplitPiece("a", ")", "+$($)");
    DollarEnd();
  }

  lemma DollarEnd()
    ensures Items("+$($)") == ["+", ""]
  {
    assert "+$($)" == "+" + "$($)" + "";
    SplitPiece("+", "$($)", "");
  }

  lemma DollarItems(items: seq<string>)
    requires items == ["", "a", "+", ""]
    ensures FromItems(items) == Parsed(["a"], ["+"], "")
  {
    var middle := items[1..3];
    assert |middle| == 2 && middle[0] == "a" && middle[1] == "+";
    var last := middle[1..];
    assert last == ["+"] && last[1..] == [];
    assert Evens(last) == ["+"] && Odds(last) == [];
  }

  lemma DollarMode(s: string)
    requires s == "$(a)+$($)"
    ensures Mode0(s)
  {
    DollarPrinted();
    SumRead(DollarSum(), "");
    assert s == PrintSum(DollarSum()) + "";
  }

  lemma DollarAccepted(s: string)
    requires s == "$(a)+$($)"
    ensures ExpressionValid(s)
  {
    DollarMode(s);
  }

  /** An accepted expression whose second counter, named "$", is silently dropped. */
  lemma DollarDropsCounter()
    ensures var s := PrintSum(DollarSum());
            ExpressionValid(s) && |Items(s)| >= 2 && FromItems(Items(s)) == Parsed(["a"], ["+"], "")
  {
    DollarPrinted();
    DollarAccepted(PrintSum(DollarSum()));
    DollarSplit();
    DollarItems(Items(PrintSum(DollarSum())));
  }
}
