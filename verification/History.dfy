/** The bounded newest-first history (modules/graph/store/history.go) and the rate GetLast draws from it. */
module History {
  import opened Model
  import opened FlatStore
  import QueryMerge

  const DEFAULT_HISTORY_SIZE := 3

  function Newest(s: seq<GraphItem>): seq<GraphItem> {
    if |s| <= DEFAULT_HISTORY_SIZE then s else s[..DEFAULT_HISTORY_SIZE]
  }

  /** What AddItem makes of one list. */
  function Added(h: seq<GraphItem>, val: GraphItem): seq<GraphItem> {
    if h == [] || h[0].timestamp < val.timestamp then Newest([val] + h) else h
  }

  type Histories = map<string, seq<GraphItem>>

  function AddTo(m: Histories, key: string, val: GraphItem): Histories {
    m[key := Added(if key in m then m[key] else [], val)]
  }

  class HistoryCache {
    var Lists: Histories

    constructor ()
      ensures Lists == map[]
    {
      Lists := map[];
    }

    ghost predicate Valid()
      reads this
    {
      forall key :: key in Lists ==> |Lists[key]| <= DEFAULT_HISTORY_SIZE
    }

    method AddItem(key: string, val: GraphItem)
      requires Valid()
      modifies this
      ensures Valid() && Lists == AddTo(old(Lists), key, val)
    {
      if key !in Lists {
        Lists := Lists[key := []];
      }
      var slist := Lists[key];
      if |slist| == 0 || slist[0].timestamp < val.timestamp {
        slist := [val] + slist;
        if |slist| > DEFAULT_HISTORY_SIZE {
          slist := slist[..|slist| - 1];
        }
        Lists := Lists[key := slist];
      }
    }

    method GetAllItems(key: string) returns (ret: seq<GraphItem>)
      ensures ret == if key in Lists then Lists[key] else []
    {
      ret := [];
      if key !in Lists {
        return;
      }
      var all := Lists[key];
      for i := 0 to |all|
        invariant ret == all[..i]
      {
        ret := ret + [all[i]];
      }
    }
  }

  // ---------- the history is the last running maxima ----------

  /** All the AddItem calls for one key, in order. */
  function HistoryOf(stream: seq<GraphItem>): seq<GraphItem> {
    if stream == [] then [] else Added(HistoryOf(stream[..|stream| - 1]), stream[|stream| - 1])
  }

  /** Newer than everything before it. */
  ghost predicate IsRecord(stream: seq<GraphItem>, i: nat)
    requires i < |stream|
  {
    forall j :: 0 <= j < i ==> stream[j].timestamp < stream[i].timestamp
  }

  /** The strict running maxima by timestamp among the first n. */
  ghost function Records(stream: seq<GraphItem>, n: nat): seq<GraphItem>
    requires n <= |stream|
  {
    if n == 0 then []
    else Records(stream, n - 1) + if IsRecord(stream, n - 1) then [stream[n - 1]] else []
  }

  lemma {:induction false} LastRecord(stream: seq<GraphItem>, n: nat)
    requires 0 < n <= |stream|
    ensures var r := Records(stream, n);
            r != [] && r[|r| - 1] in stream[..n]
            && forall j :: 0 <= j < n ==> stream[j].timestamp <= r[|r| - 1].timestamp
  {
    if n > 1 {
      LastRecord(stream, n - 1);
      assert stream[..n] == stream[..n - 1] + [stream[n - 1]];
      var r := Records(stream, n - 1);
      if !IsRecord(stream, n - 1) {
        assert stream[n - 1].timestamp <= r[|r| - 1].timestamp;
      }
    }
  }

  lemma {:induction false} RecordsPrefix(a: seq<GraphItem>, b: seq<GraphItem>, n: nat)
    requires n <= |a| <= |b| && a == b[..|a|]
    ensures Records(a, n) == Records(b, n)
  {
    if n > 0 {
      RecordsPrefix(a, b, n - 1);
      assert IsRecord(a, n - 1) == IsRecord(b, n - 1);
    }
  }

  /** The history of a stream is its last three strict running maxima, newest first. */
  lemma {:induction false} HistoryIsLastRecords(stream: seq<GraphItem>)
    ensures HistoryOf(stream) == Newest(Reverse(Records(stream, |stream|)))
  {
    if stream != [] {
      var n := |stream| - 1;
      HistoryIsLastRecords(stream[..n]);
      RecordsPrefix(stream[..n], stream, n);
      RecordsNext(stream, n);
      AddedIsRecord(Records(stream, n), stream[n]);
    }
  }

  /** The next item is a record if it is newer than the last one. */
  function WithNext(r: seq<GraphItem>, item: GraphItem): seq<GraphItem> {
    if r == [] || r[|r| - 1].timestamp < item.timestamp then r + [item] else r
  }

  lemma RecordsNext(stream: seq<GraphItem>, n: nat)
    requires n < |stream|
    ensures Records(stream, n + 1) == WithNext(Records(stream, n), stream[n])
  {
    if n > 0 {
      LastRecord(stream, n);
      var r := Records(stream, n);
      var i :| 0 <= i < n && stream[..n][i] == r[|r| - 1];
    }
  }

  lemma AddedIsRecord(r: seq<GraphItem>, item: GraphItem)
    ensures Added(Newest(Reverse(r)), item) == Newest(Reverse(WithNext(r, item)))
  {
    assert Reverse(r + [item]) == [item] + Reverse(r);
  }

  // ---------- GetLast ----------

  const NO_DATA := RRDData(0, Num(0.0))

  /** The rate branch of GetLast, graph.go:398-418, on the history of a series. */
  method LastRate(items: seq<GraphItem>, step: int) returns (r: RRDData)
    requires step > 0
    ensures r == RateOfHistory(items, step)
  {
    if |items| < 2 {
      return NO_DATA;
    }
    var f0 := items[0];
    var f1 := items[1];
    var deltaTs := f0.timestamp - f1.timestamp;
    var deltaV := f0.value.Minus(f1.value);
    if deltaTs != step || deltaTs <= 0 {
      return NO_DATA;
    }
    if deltaV.Negative() {
      deltaV := Num(0.0);
    }
    r := RRDData(f0.timestamp, deltaV.DividedBy(deltaTs as real));
  }

  function RateOfHistory(items: seq<GraphItem>, step: int): RRDData
    requires step > 0
  {
    if |items| < 2 || items[0].timestamp != items[1].timestamp + step then NO_DATA
    else
      var d := items[0].value.Minus(items[1].value);
      RRDData(items[0].timestamp, (if d.Negative() then Num(0.0) else d).DividedBy(step as real))
  }

  /** The rate is never negative, and a non-zero timestamp means the two newest items are one step apart. */
  lemma RateNeverNegative(items: seq<GraphItem>, step: int)
    requires step > 0
    ensures !RateOfHistory(items, step).value.Negative()
    ensures RateOfHistory(items, step).timestamp != 0 ==>
              |items| >= 2 && items[0].timestamp - items[1].timestamp == step
              && RateOfHistory(items, step).timestamp == items[0].timestamp
  {
    if |items| >= 2 && items[0].timestamp == items[1].timestamp + step {
      var d := items[0].value.Minus(items[1].value);
      if d.Num? && d.r >= 0.0 { assert d.r / step as real >= 0.0; }
    }
  }

  /**
   With the two newest items one step apart and still cached, Last's rate is the rate Query shows one step
   earlier exactly when the value did not drop: on a drop Last says 0 and Query NaN.
   */
  lemma LastIsQueryRate(history: seq<GraphItem>, cached: seq<GraphItem>, step: int)
    requires step > 0 && |history| >= 2 && history[0].timestamp == history[1].timestamp + step
    requires history[0] in cached && history[1] in cached
    requires forall i, j :: 0 <= i < j < |cached| ==> cached[i].timestamp < cached[j].timestamp
    ensures RateOfHistory(history, step).value
              == QueryMerge.CachedAt(Rate, cached, |cached|, step, RateOfHistory(history, step).timestamp - step)
       <==> !history[0].value.Minus(history[1].value).Negative()
  {
    var i :| 0 <= i < |cached| && cached[i] == history[1];
    var j :| 0 <= j < |cached| && cached[j] == history[0];
    var t := history[1].timestamp;
    FindIs(cached, t, i);
    FindIs(cached, t + step, j);
    assert QueryMerge.CachedAt(Rate, cached, |cached|, step, t) == QueryMerge.RateOf(history[1], history[0], step);
    var d := history[0].value.Minus(history[1].value);
    if d.Num? { DivisionSign(d.r, step as real); }
  }

  lemma DivisionSign(x: real, d: real)
    requires d > 0.0
    ensures x / d < 0.0 <==> x < 0.0
  {
  }

  lemma FindIs(items: seq<GraphItem>, t: int, i: nat)
    requires i < |items| && items[i].timestamp == t
    requires forall i, j :: 0 <= i < j < |items| ==> items[i].timestamp < items[j].timestamp
    ensures QueryMerge.Find(Times(items), |items|, t) == Some(i)
  {
    var f := QueryMerge.Find(Times(items), |items|, t);
    assert Times(items)[i] == t;
  }
}
