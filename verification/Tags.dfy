/** Canonical tag strings: common/utils/tags.go. */
module Tags {
  import opened Model
  import opened Strings

  type Tags = map<string, string>

  // ---------- printing ----------

  ghost predicate IsKeyOrder(ks: seq<string>, keys: set<string>) {
    Ascending(ks) && Elements(ks) == keys
  }

  lemma {:induction false} KeyOrderExists(keys: set<string>) returns (ks: seq<string>)
    ensures IsKeyOrder(ks, keys)
  {
    if keys == {} {
      ks := [];
    } else {
      var k :| k in keys;
      ks := KeyOrderExists(keys - {k});
      ks := Insert(k, ks);
    }
  }

  /** The keys of a map in the one order that sort.Strings gives them. */
  ghost function SortedKeys(keys: set<string>): (ks: seq<string>)
    ensures IsKeyOrder(ks, keys)
  {
    assert exists ks :: IsKeyOrder(ks, keys) by { var ks := KeyOrderExists(keys); }
    var ks :| IsKeyOrder(ks, keys);
    ks
  }

  function Pair(k: string, v: string): string {
    k + "=" + v
  }

  function Pairs(ks: seq<string>, tags: Tags): (r: seq<string>)
    requires forall k :: k in ks ==> k in tags
    ensures |r| == |ks|
  {
    seq(|ks|, i requires 0 <= i < |ks| => Pair(ks[i], tags[ks[i]]))
  }

  /** The canonical string of a tag map. */
  ghost function Printed(tags: Tags): string {
    var ks := SortedKeys(tags.Keys);
    assert forall k :: k in ks ==> k in Elements(ks);
    Join(Pairs(ks, tags), ',')
  }

  lemma JoinSnoc(parts: seq<string>, last: string)
    ensures Join(parts + [last], ',') == if parts == [] then last else Join(parts, ',') + "," + last
  {
    if parts != [] {
      assert (parts + [last])[1..] == parts[1..] + [last];
      JoinSnoc(parts[1..], last);
      if |parts| == 1 { assert Join(parts, ',') == parts[0]; }
    }
  }

  /** The loop of tags.go:48-53: the map hands out its keys in any order. */
  method KeysOf(tags: Tags) returns (keys: seq<string>)
    ensures Elements(keys) == tags.Keys && |keys| == |tags|
  {
    keys := [];
    var rest := tags.Keys;
    while rest != {}
      invariant rest <= tags.Keys && Elements(keys) == tags.Keys - rest && |keys| + |rest| == |tags|
      decreases rest
    {
      var k :| k in rest;
      assert Elements(keys + [k]) == Elements(keys) + {k};
      keys := keys + [k];
      rest := rest - {k};
    }
  }

  /** The loop of tags.go:57-64. */
  method WritePairs(keys: seq<string>, tags: Tags) returns (ret: string)
    requires forall k :: k in keys ==> k in tags
    ensures ret == Join(Pairs(keys, tags), ',')
  {
    ret := "";
    var size := |keys|;
    ghost var ps := Pairs(keys, tags);
    for j := 0 to size
      invariant ret == WrittenTo(ps, j)
    {
      ghost var before := ret;
      ret := ret + keys[j];
      ret := ret + "=";
      ret := ret + tags[keys[j]];
      if j != size - 1 {
        ret := ret + ",";
      }
      WritesPair(ps, j, keys[j], tags[keys[j]], before, ret);
    }
    assert ps[..size] == ps;
  }

  /** The first j pairs, with the comma that is due. */
  function WrittenTo(ps: seq<string>, j: nat): string
    requires j <= |ps|
  {
    Join(ps[..j], ',') + if 0 < j < |ps| then "," else ""
  }

  lemma WritesPair(ps: seq<string>, j: nat, key: string, value: string, before: string, after: string)
    requires j < |ps| && ps[j] == key + "=" + value && before == WrittenTo(ps, j)
    requires after == (if j != |ps| - 1 then before + key + "=" + value + "," else before + key + "=" + value)
    ensures after == WrittenTo(ps, j + 1)
  {
    JoinSnoc(ps[..j], ps[j]);
    assert ps[..j + 1] == ps[..j] + [ps[j]];
    assert before + key + "=" + value == before + ps[j];
  }

  lemma SingleKey(tags: Tags, k: string)
    requires |tags| == 1 && k in tags
    ensures tags.Keys == {k} && Printed(tags) == Pair(k, tags[k])
  {
    assert |tags.Keys - {k}| == 0;
    assert tags.Keys == {k} + (tags.Keys - {k});
    AscendingUnique(SortedKeys(tags.Keys), [k]);
    assert Pairs([k], tags) == [Pair(k, tags[k])];
  }

  /** The keys come out of the map in any order; the string does not depend on it. */
  method SortedTags(tags: Tags) returns (ret: string)
    ensures ret == Printed(tags)
  {
    if |tags| == 0 {
      AscendingUnique(SortedKeys(tags.Keys), []);
      return "";
    }
    if |tags| == 1 {
      var k :| k in tags;
      SingleKey(tags, k);
      ret := k;
      ret := ret + "=";
      ret := ret + tags[k];
      return;
    }
    var keys := KeysOf(tags);
    keys := Sorted(keys);
    AscendingUnique(SortedKeys(tags.Keys), keys);
    assert forall k :: k in keys ==> k in Elements(keys);
    ret := WritePairs(keys, tags);
  }

  // ---------- parsing ----------

  /** What a list of k=v strings means: the later wins, and a string without '=' says nothing. */
  function Meaning(parts: seq<string>): Tags {
    if parts == [] then map[]
    else
      var m := Meaning(parts[..|parts| - 1]);
      match Cut(parts[|parts| - 1], '=')
      case Some((k, v)) => m[k := v]
      case None => m
  }

  /** What DictedTagstring returns. */
  function Dict(s: string): Tags {
    if s == "" then map[] else Meaning(Split(Without(s, ' '), ','))
  }

  method DictedTagstring(s: string) returns (tagDict: Tags)
    ensures tagDict == Dict(s)
  {
    if s == "" {
      return map[];
    }
    var s' := s;
    if ' ' in s {
      s' := Without(s, ' ');
    }
    tagDict := map[];
    var tags := Split(s', ',');
    for i := 0 to |tags|
      invariant tagDict == Meaning(tags[..i])
    {
      assert tags[..i + 1][..i] == tags[..i];
      var idx := IndexOf(tags[i], '=');
      if idx.Some? {
        tagDict := tagDict[tags[i][..idx.value] := tags[i][idx.value + 1..]];
      }
    }
    assert tags[..|tags|] == tags;
  }

  predicate AllPairs(parts: seq<string>) {
    forall p :: p in parts ==> Cut(p, '=').Some?
  }

  /** Some(tags), or None for the source's "bad tag" error. */
  method SplitTagsString(s: string) returns (tags: Option<Tags>)
    ensures tags == SplitTags(s)
  {
    var m: Tags := map[];
    var s' := Without(s, ' ');
    if s' == "" {
      return Some(m);
    }
    var tagSlice := Split(s', ',');
    for i := 0 to |tagSlice|
      invariant AllPairs(tagSlice[..i]) && m == Meaning(tagSlice[..i])
    {
      assert tagSlice[..i + 1][..i] == tagSlice[..i];
      var tagPair := Cut(tagSlice[i], '=');
      if tagPair.Some? {
        m := m[tagPair.value.0 := tagPair.value.1];
      } else {
        assert tagSlice[i] in tagSlice;
        return None;
      }
    }
    assert tagSlice[..|tagSlice|] == tagSlice;
    return Some(m);
  }

  function SplitTags(s: string): Option<Tags> {
    var parts := Split(Without(s, ' '), ',');
    if Without(s, ' ') == "" then Some(map[])
    else if AllPairs(parts) then Some(Meaning(parts)) else None
  }

  // ---------- canonical and invertible ----------

  /** No key holds '=', ',' or a space; no value holds ',' or a space. */
  ghost predicate Clean(tags: Tags) {
    forall k :: k in tags ==>
      Free(k, '=') && Free(k, ',') && Free(k, ' ') && Free(tags[k], ',') && Free(tags[k], ' ')
  }

  lemma {:induction false} MeaningClean(parts: seq<string>)
    requires forall p :: p in parts ==> Free(p, ',') && Free(p, ' ')
    ensures Clean(Meaning(parts))
  {
    if parts != [] {
      MeaningClean(parts[..|parts| - 1]);
      assert parts[|parts| - 1] in parts;
    }
  }

  lemma DictClean(s: string)
    ensures Clean(Dict(s))
    ensures SplitTags(s).Some? ==> Clean(SplitTags(s).value)
  {
    var s' := Without(s, ' ');
    SplitFrom(s', ',');
    MeaningClean(Split(s', ','));
  }

  lemma {:induction false} SplitFrom(s: string, c: char)
    ensures forall p, x :: p in Split(s, c) && x in p ==> x in s
    decreases |s|
  {
    match IndexOf(s, c)
    case None =>
    case Some(i) => SplitFrom(s[i + 1..], c);
  }

  lemma {:induction false} MeaningOfPairs(ks: seq<string>, tags: Tags, n: nat)
    requires Clean(tags) && n <= |ks| && forall k :: k in ks ==> k in tags
    ensures var m := Meaning(Pairs(ks, tags)[..n]);
            m.Keys == Elements(ks[..n]) && forall k :: k in m ==> k in tags && m[k] == tags[k]
  {
    var ps := Pairs(ks, tags);
    if n > 0 {
      MeaningOfPairs(ks, tags, n - 1);
      assert ps[..n][..n - 1] == ps[..n - 1];
      CutAt(ks[n - 1], '=', tags[ks[n - 1]]);
      assert ks[..n] == ks[..n - 1] + [ks[n - 1]];
    }
  }

  lemma PairsClean(ks: seq<string>, tags: Tags)
    requires Clean(tags) && forall k :: k in ks ==> k in tags
    ensures AllPairs(Pairs(ks, tags))
    ensures forall p :: p in Pairs(ks, tags) ==> p != "" && Free(p, ',') && Free(p, ' ')
  {
    var ps := Pairs(ks, tags);
    forall p | p in ps ensures p != "" && Free(p, ',') && Free(p, ' ') && Cut(p, '=').Some? {
      var i :| 0 <= i < |ps| && ps[i] == p;
      assert ks[i] in tags;
      CutAt(ks[i], '=', tags[ks[i]]);
    }
  }

  lemma PrintedParses(tags: Tags)
    requires Clean(tags)
    ensures Dict(Printed(tags)) == tags && SplitTags(Printed(tags)) == Some(tags)
  {
    var ks := SortedKeys(tags.Keys);
    assert forall k :: k in ks ==> k in Elements(ks);
    if tags == map[] {
      AscendingUnique(ks, []);
    } else {
      var ps := Pairs(ks, tags);
      assert ks != [];
      PairsClean(ks, tags);
      JoinFree(ps, ',', ' ');
      SplitJoin(ps, ',');
      MeaningOfPairs(ks, tags, |ks|);
      assert ps[..|ks|] == ps && ks[..|ks|] == ks;
      assert ps[0] in ps && Split("", ',') == [""];
      assert Meaning(ps) == tags;
    }
  }

  /** Printing is undone by both parsers for exactly the clean maps. */
  lemma TagsRoundTrip(tags: Tags)
    ensures Dict(Printed(tags)) == tags <==> Clean(tags)
    ensures SplitTags(Printed(tags)) == Some(tags) <==> Clean(tags)
  {
    DictClean(Printed(tags));
    if Clean(tags) { PrintedParses(tags); }
  }

  /** Wherever the strict parser succeeds the lenient one gives the same map. */
  lemma ParsersAgree(s: string)
    ensures SplitTags(s).Some? ==> SplitTags(s).value == Dict(s)
  {
    assert Split("", ',') == [""];
    assert Meaning([""]) == map[] by { assert [""][..0] == []; }
  }

  lemma PrintedInjective(a: Tags, b: Tags)
    requires Clean(a) && Clean(b) && Printed(a) == Printed(b)
    ensures a == b
  {
    PrintedParses(a);
    PrintedParses(b);
  }
}
