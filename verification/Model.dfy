/** The values that travel through the graph module (common/model/graph.go). */
module Model {

  datatype Option<+T> = None | Some(value: T)

  /** A float64, with exact arithmetic; an operation with a NaN operand is NaN. */
  datatype Val = NaN | Num(r: real) {
    function Minus(other: Val): Val {
      if Num? && other.Num? then Num(r - other.r) else NaN
    }

    function DividedBy(d: real): Val
      requires d != 0.0
    {
      if Num? then Num(r / d) else NaN
    }

    /** `val < 0`, which is false of NaN. */
    predicate Negative() {
      Num? && r < 0.0
    }
  }

  datatype GraphItem = GraphItem(endpoint: string, metric: string, tags: map<string, string>,
                                 value: Val, timestamp: int, dsType: string, step: int)

  datatype RRDData = RRDData(timestamp: int, value: Val)

  const GAUGE := "GAUGE"
  const DERIVE := "DERIVE"
  const COUNTER := "COUNTER"

  /** The three ways the graph module treats a type name. */
  datatype Kind = Gauge | Rate | Unknown

  function KindOf(dsType: string): Kind {
    if dsType == DERIVE || dsType == COUNTER then Rate else if dsType == GAUGE then Gauge else Unknown
  }

  function RemoveAt<T>(s: seq<T>, i: nat): (r: seq<T>)
    requires i < |s|
    ensures |r| == |s| - 1 && forall k :: 0 <= k < |r| ==> r[k] == s[if k < i then k else k + 1]
  {
    s[..i] + s[i + 1..]
  }

  function Times(items: seq<GraphItem>): (ts: seq<int>)
    ensures |ts| == |items| && forall i :: 0 <= i < |items| ==> ts[i] == items[i].timestamp
  {
    seq(|items|, i requires 0 <= i < |items| => items[i].timestamp)
  }

  function PointTimes(pts: seq<RRDData>): (ts: seq<int>)
    ensures |ts| == |pts| && forall i :: 0 <= i < |pts| ==> ts[i] == pts[i].timestamp
  {
    seq(|pts|, i requires 0 <= i < |pts| => pts[i].timestamp)
  }
}
