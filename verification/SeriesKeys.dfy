/**
 The strings a series is known by: common/utils/func.go, common/utils/counter.go and modules/graph/g/utils.go.
 Tag strings depend on sort order only through Tags.Printed, so the specifications are ghost functions.
 */
module SeriesKeys {
  import opened Model
  import opened Strings
  import opened Tags

  // ---------- building ----------

  ghost function CounterOf(metric: string, tags: Tags): string {
    if |tags| == 0 then metric else metric + "/" + Printed(tags)
  }

  ghost function PkOf(endpoint: string, metric: string, tags: Tags): string {
    if |tags| == 0 then endpoint + "/" + metric else endpoint + "/" + metric + "/" + Printed(tags)
  }

  ghost function UuidOf(endpoint: string, metric: string, tags: Tags, dsType: string, step: int): string {
    PkOf(endpoint, metric, tags) + "/" + dsType + "/" + Itoa(step)
  }

  method Counter(metric: string, tags: Tags) returns (r: string)
    ensures r == CounterOf(metric, tags)
  {
    if |tags| == 0 {
      return metric;
    }
    var s := SortedTags(tags);
    r := metric + "/" + s;
  }

  method PK(endpoint: string, metric: string, tags: Tags) returns (ret: string)
    ensures ret == PkOf(endpoint, metric, tags)
  {
    ret := "";
    if |tags| == 0 {
      ret := ret + endpoint;
      ret := ret + "/";
      ret := ret + metric;
      return;
    }
    ret := ret + endpoint;
    ret := ret + "/";
    ret := ret + metric;
    ret := ret + "/";
    var s := SortedTags(tags);
    ret := ret + s;
  }

  method UUID(endpoint: string, metric: string, tags: Tags, dsType: string, step: int) returns (ret: string)
    ensures ret == UuidOf(endpoint, metric, tags, dsType, step)
  {
    ret := PK(endpoint, metric, tags);
    ret := ret + "/";
    ret := ret + dsType;
    ret := ret + "/";
    ret := ret + Itoa(step);
  }

  // ---------- taking apart ----------

  /** The metric and tags of a counter string; tags is empty when there is no '/'. */
  method ConunterToMetricAndTags(counter: string) returns (metric: string, tagM: Tags)
    ensures (metric, tagM) == CounterParts(counter)
  {
    var tmp := Cut(counter, '/');
    if tmp.None? {
      return counter, map[];
    }
    metric := tmp.value.0;
    tagM := DictedTagstring(tmp.value.1);
  }

  function CounterParts(counter: string): (string, Tags) {
    match Cut(counter, '/')
    case None => (counter, map[])
    case Some((metric, tagStr)) => (metric, Dict(tagStr))
  }

  /** Taking a counter apart gives back its parts for exactly the slash-free metrics with clean tags. */
  lemma CounterInverse(metric: string, tags: Tags)
    ensures CounterParts(CounterOf(metric, tags)) == (metric, tags) <==> Free(metric, '/') && Clean(tags)
  {
    var c := CounterOf(metric, tags);
    if |tags| == 0 {
      assert tags == map[];
    } else {
      assert c == metric + ['/'] + Printed(tags);
      if Free(metric, '/') {
        CutAt(metric, '/', Printed(tags));
        TagsRoundTrip(tags);
      }
    }
  }

  // ---------- primary keys ----------

  lemma PkIsPath(endpoint: string, metric: string, tags: Tags)
    ensures PkOf(endpoint, metric, tags) == endpoint + ['/'] + CounterOf(metric, tags)
  {
    if |tags| != 0 {
      assert endpoint + "/" + metric + "/" + Printed(tags) == endpoint + ['/'] + (metric + "/" + Printed(tags));
    }
  }

  /** Distinct series have distinct primary keys. */
  lemma PkInjective(e1: string, m1: string, t1: Tags, e2: string, m2: string, t2: Tags)
    requires Free(e1, '/') && Free(m1, '/') && Clean(t1) && Free(e2, '/') && Free(m2, '/') && Clean(t2)
    ensures PkOf(e1, m1, t1) == PkOf(e2, m2, t2) <==> e1 == e2 && m1 == m2 && t1 == t2
  {
    PkIsPath(e1, m1, t1);
    PkIsPath(e2, m2, t2);
    CutAt(e1, '/', CounterOf(m1, t1));
    CutAt(e2, '/', CounterOf(m2, t2));
    CounterInverse(m1, t1);
    CounterInverse(m2, t2);
  }

  ghost predicate SameSeries(e1: string, m1: string, t1: Tags, e2: string, m2: string, t2: Tags) {
    e1 == e2 && m1 == m2 && t1 == t2
  }

  /** No other series has the key. */
  ghost predicate HasKeyAlone(e: string, m: string, t: Tags) {
    forall e2, m2, t2 :: PkOf(e2, m2, t2) == PkOf(e, m, t) ==> SameSeries(e2, m2, t2, e, m, t)
  }

  lemma SlashSplits(s: string) returns (a: string, b: string)
    requires !Free(s, '/')
    ensures s == a + ['/'] + b
  {
    var i :| 0 <= i < |s| && s[i] == '/';
    a, b := s[..i], s[i + 1..];
  }

  /** A slash in an endpoint or a metric, or any tags at all, make another series that has the same key. */
  lemma PkCollides(e: string, m: string, t: Tags) returns (e2: string, m2: string, t2: Tags)
    requires !Free(e, '/') || !Free(m, '/') || t != map[]
    ensures PkOf(e2, m2, t2) == PkOf(e, m, t) && !SameSeries(e2, m2, t2, e, m, t)
  {
    PkIsPath(e, m, t);
    if t != map[] {
      e2, m2, t2 := e, CounterOf(m, t), map[];
    } else if !Free(e, '/') {
      var a, b := SlashSplits(e);
      e2, m2, t2 := a, b + ['/'] + m, map[];
      assert a + ['/'] + b + ['/'] + m == a + ['/'] + (b + ['/'] + m);
    } else {
      var a, b := SlashSplits(m);
      e2, m2, t2 := e + ['/'] + a, b, map[];
      assert e + ['/'] + (a + ['/'] + b) == e + ['/'] + a + ['/'] + b;
    }
    PkIsPath(e2, m2, t2);
  }

  /** A key is one series' alone exactly when that has no slash in its endpoint and metric, and no tags. */
  lemma PkExact(e: string, m: string, t: Tags)
    ensures HasKeyAlone(e, m, t) <==> Free(e, '/') && Free(m, '/') && t == map[]
  {
    if Free(e, '/') && Free(m, '/') && t == map[] {
      forall e2, m2, t2 | PkOf(e2, m2, t2) == PkOf(e, m, t) ensures SameSeries(e2, m2, t2, e, m, t) {
        PkIsPath(e, m, t);
        PkIsPath(e2, m2, t2);
        OneSlash(e2, CounterOf(m2, t2), e, m);
        TagsMakeSlash(m2, t2);
      }
    } else {
      var e2, m2, t2 := PkCollides(e, m, t);
    }
  }

  lemma TagsMakeSlash(m: string, t: Tags)
    ensures Free(CounterOf(m, t), '/') ==> t == map[]
  {
    if t != map[] { assert CounterOf(m, t)[|m|] == '/'; }
  }

  lemma OneSlash(a: string, b: string, e: string, m: string)
    requires a + ['/'] + b == e + ['/'] + m && Free(e, '/') && Free(m, '/')
    ensures a == e && b == m
  {
    var s := e + ['/'] + m;
    assert (a + ['/'] + b)[|a|] == '/';
    assert forall k :: 0 <= k < |s| && k != |e| ==> s[k] == (if k < |e| then e[k] else m[k - |e| - 1]);
    assert |a| == |e|;
    assert (a + ['/'] + b)[..|a|] == a && s[..|e|] == e;
    assert (a + ['/'] + b)[|a| + 1..] == b && s[|e| + 1..] == m;
  }

  /** After one prefix, a type and a step are told apart by the last separator. */
  lemma TypeStepInjective(p: string, c: char, d1: string, s1: int, d2: string, s2: int)
    requires c == '/' || c == '_'
    ensures p + [c] + d1 + [c] + Itoa(s1) == p + [c] + d2 + [c] + Itoa(s2) <==> d1 == d2 && s1 == s2
  {
    var q := p + [c];
    var a, b := d1 + [c] + Itoa(s1), d2 + [c] + Itoa(s2);
    assert p + [c] + d1 + [c] + Itoa(s1) == q + a && p + [c] + d2 + [c] + Itoa(s2) == q + b;
    assert (q + a)[|q|..] == a && (q + b)[|q|..] == b;
    if a == b { LastCut(d1, Itoa(s1), d2, Itoa(s2), c); ItoaInjective(s1, s2); }
  }

  lemma LastCut(a: string, x: string, b: string, y: string, c: char)
    requires a + [c] + x == b + [c] + y && Free(x, c) && Free(y, c)
    ensures a == b && x == y
  {
    var s, t := a + [c] + x, b + [c] + y;
    assert s[|a|] == c && t[|b|] == c;
    assert forall k :: |a| < k < |s| ==> s[k] == x[k - |a| - 1];
    assert forall k :: |b| < k < |t| ==> t[k] == y[k - |b| - 1];
    assert s[..|a|] == a && t[..|b|] == b && s[|a| + 1..] == x && t[|b| + 1..] == y;
  }

  // ---------- store keys and file names ----------

  function FormRrdCacheKey(md5: string, dsType: string, step: int): string {
    md5 + "_" + dsType + "_" + Itoa(step)
  }

  /** None is the source's "bad rrd cache key" or number error. */
  function SplitRrdCacheKey(ckey: string): Option<(string, string, int)> {
    var parts := Split(ckey, '_');
    if |parts| != 3 then None
    else match ParseInt32(parts[2])
         case None => None
         case Some(step) => Some((parts[0], parts[1], step))
  }

  function RrdFileName(baseDir: string, md5: string, dsType: string, step: int): string
    requires |md5| >= 2
  {
    baseDir + "/" + md5[0..2] + "/" + md5 + "_" + dsType + "_" + Itoa(step) + ".rrd"
  }

  lemma KeyParts(md5: string, dsType: string, step: int)
    requires Free(md5, '_') && Free(dsType, '_')
    ensures Split(FormRrdCacheKey(md5, dsType, step), '_') == [md5, dsType, Itoa(step)]
  {
    var parts := [md5, dsType, Itoa(step)];
    assert Join(parts[2..], '_') == Itoa(step);
    assert parts[1..][1..] == parts[2..];
    assert Join(parts[1..], '_') == dsType + "_" + Itoa(step);
    assert Join(parts, '_') == md5 + "_" + (dsType + "_" + Itoa(step)) == FormRrdCacheKey(md5, dsType, step);
    SplitJoin(parts, '_');
  }

  /** Taking a store key apart gives back its parts for exactly the '_'-free parts and 32-bit steps. */
  lemma KeyInverse(md5: string, dsType: string, step: int)
    ensures SplitRrdCacheKey(FormRrdCacheKey(md5, dsType, step)) == Some((md5, dsType, step))
       <==> Free(md5, '_') && Free(dsType, '_') && -0x8000_0000 <= step < 0x8000_0000
  {
    if Free(md5, '_') && Free(dsType, '_') {
      KeyParts(md5, dsType, step);
      ParseOfItoa(step);
    } else {
      var parts := Split(FormRrdCacheKey(md5, dsType, step), '_');
      assert |parts| == 3 ==> parts[0] in parts && parts[1] in parts;
    }
  }

  /** Distinct store keys have distinct files. */
  lemma FileInjective(base: string, m1: string, d1: string, s1: int, m2: string, d2: string, s2: int)
    requires |m1| >= 2 && |m2| >= 2 && Free(m1, '_') && Free(d1, '_') && Free(m2, '_') && Free(d2, '_')
    ensures RrdFileName(base, m1, d1, s1) == RrdFileName(base, m2, d2, s2) <==> m1 == m2 && d1 == d2 && s1 == s2
  {
    FileParts(base, m1, d1, s1);
    FileParts(base, m2, d2, s2);
    if RrdFileName(base, m1, d1, s1) == RrdFileName(base, m2, d2, s2) {
      KeyParts(m1, d1, s1);
      KeyParts(m2, d2, s2);
      ItoaInjective(s1, s2);
    }
  }

  lemma FileParts(base: string, md5: string, dsType: string, step: int)
    requires |md5| >= 2
    ensures var f := RrdFileName(base, md5, dsType, step);
            |f| >= |base| + 8 && f[|base| + 4..|f| - 4] == FormRrdCacheKey(md5, dsType, step)
  {
    var f, key := RrdFileName(base, md5, dsType, step), FormRrdCacheKey(md5, dsType, step);
    assert f == (base + "/" + md5[0..2] + "/") + key + ".rrd";
  }

  // ---------- valid names ----------

  /** isPrint stands for unicode.IsPrint. */
  predicate IsValidString(str: string, isPrint: char -> bool) {
    forall t :: t in str ==> t !in ['\r', '\n', '\'', '"', '>', 26 as char] && isPrint(t)
  }
}
