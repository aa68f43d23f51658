/** cleanParam of modules/aggregator/cron/run.go: what is taken out of an expression before it is read. */
module CleanParam {
  import opened Strings

  /** unicode.IsSpace */
  predicate IsSpace(c: char) {
    c in "\t\n\U{0B}\U{0C}\r \U{85}\U{A0}\U{1680}\U{2028}\U{2029}\U{202F}\U{205F}\U{3000}" || '\U{2000}' <= c <= '\U{200A}'
  }

  /** The spaces that go wherever they stand. */
  predicate Blank(c: char) {
    c == ' ' || c == '\r' || c == '\n' || c == '\t'
  }

  predicate AllSpace(s: string) {
    forall c :: c in s ==> IsSpace(c)
  }

  function TrimLeft(s: string): string {
    if s != [] && IsSpace(s[0]) then TrimLeft(s[1..]) else s
  }

  function TrimRight(s: string): string {
    if s != [] && IsSpace(s[|s| - 1]) then TrimRight(s[..|s| - 1]) else s
  }

  /** strings.TrimSpace */
  function TrimSpace(s: string): string {
    TrimRight(TrimLeft(s))
  }

  function Bare(s: string): string {
    Without(Without(Without(Without(s, ' '), '\r'), '\n'), '\t')
  }

  function Cleaned(s: string): string {
    Bare(TrimSpace(s))
  }

  method Clean(val: string) returns (r: string)
    ensures r == Cleaned(val)
  {
    r := TrimSpace(val);
    r := Without(r, ' ');
    r := Without(r, '\r');
    r := Without(r, '\n');
    r := Without(r, '\t');
  }

  lemma WithoutFirst(head: char, rest: string, c: char)
    ensures Without([head] + rest, c) == (if head == c then "" else [head]) + Without(rest, c)
  {
    assert ([head] + rest)[1..] == rest;
  }

  lemma WithoutSplit(head: char, rest: string, b: string, c: char)
    requires Without(rest + b, c) == Without(rest, c) + Without(b, c)
    ensures Without([head] + (rest + b), c) == Without([head] + rest, c) + Without(b, c)
  {
    WithoutFirst(head, rest, c);
    WithoutFirst(head, rest + b, c);
    Regroup(if head == c then "" else [head], Without(rest, c), Without(b, c));
  }

  lemma Regroup(x: string, y: string, z: string)
    ensures x + y + z == x + (y + z)
  {
  }

  lemma {:induction false} WithoutConcat(a: string, b: string, c: char)
    ensures Without(a + b, c) == Without(a, c) + Without(b, c)
  {
    if a == [] {
      assert a + b == b;
    } else {
      var head, rest := a[0], a[1..];
      WithoutConcat(rest, b, c);
      assert a == [head] + rest && a + b == [head] + (rest + b);
      WithoutSplit(head, rest, b, c);
    }
  }

  lemma BareConcat(a: string, b: string)
    ensures Bare(a + b) == Bare(a) + Bare(b)
  {
    WithoutConcat(a, b, ' ');
    var a1, b1 := Without(a, ' '), Without(b, ' ');
    WithoutConcat(a1, b1, '\r');
    var a2, b2 := Without(a1, '\r'), Without(b1, '\r');
    WithoutConcat(a2, b2, '\n');
    WithoutConcat(Without(a2, '\n'), Without(b2, '\n'), '\t');
  }

  lemma WithoutOne(c: char, d: char)
    ensures Without([c], d) == if c == d then [] else [c]
  {
    assert [c][1..] == [];
  }

  lemma BareOne(c: char)
    requires Blank(c)
    ensures Bare([c]) == []
  {
    WithoutOne(c, ' ');
    WithoutOne(c, '\r');
    WithoutOne(c, '\n');
    WithoutOne(c, '\t');
  }

  lemma BareBlank(a: string, c: char, b: string)
    requires Blank(c)
    ensures Bare(a + [c] + b) == Bare(a + b)
  {
    BareConcat(a + [c], b);
    BareConcat(a, [c]);
    BareConcat(a, b);
    BareOne(c);
    assert Bare(a) + [] == Bare(a);
  }

  lemma AllSpaceConcat(a: string, b: string)
    ensures AllSpace(a + b) <==> AllSpace(a) && AllSpace(b)
  {
    assert forall c :: c in a + b <==> c in a || c in b;
  }

  lemma AllSpaceOne(c: char)
    ensures AllSpace([c]) <==> IsSpace(c)
  {
    assert c in [c];
  }

  /** Trimming from the left works on the spaces in front only. */
  lemma {:induction false} TrimLeftConcat(a: string, b: string)
    ensures TrimLeft(a + b) == if AllSpace(a) then TrimLeft(b) else TrimLeft(a) + b
  {
    if a == [] {
      assert a + b == b;
    } else {
      assert (a + b)[1..] == a[1..] + b;
      AllSpaceOne(a[0]);
      AllSpaceConcat([a[0]], a[1..]);
      assert a == [a[0]] + a[1..];
      if IsSpace(a[0]) { TrimLeftConcat(a[1..], b); }
    }
  }

  lemma TrimRightSnoc(s: string, c: char)
    ensures TrimRight(s + [c]) == if IsSpace(c) then TrimRight(s) else s + [c]
  {
    assert (s + [c])[..|s|] == s;
  }

  lemma {:induction false} TrimRightConcat(a: string, b: string)
    ensures TrimRight(a + b) == if AllSpace(b) then TrimRight(a) else a + TrimRight(b)
  {
    if b == [] {
      assert a + b == a;
    } else {
      var front, c := b[..|b| - 1], b[|b| - 1];
      assert b == front + [c] && a + b == a + front + [c];
      AllSpaceOne(c);
      AllSpaceConcat(front, [c]);
      TrimRightSnoc(a + front, c);
      TrimRightSnoc(front, c);
      if IsSpace(c) { TrimRightConcat(a, front); }
    }
  }

  /** A blank anywhere makes no difference. */
  lemma BlankIsLost(a: string, c: char, b: string)
    requires Blank(c)
    ensures Cleaned(a + [c] + b) == Cleaned(a + b)
  {
    TrimLeftConcat(a + [c], b);
    TrimLeftConcat(a, [c]);
    TrimLeftConcat(a, b);
    AllSpaceOne(c);
    AllSpaceConcat(a, [c]);
    if !AllSpace(a) {
      var x := TrimLeft(a);
      TrimRightConcat(x + [c], b);
      TrimRightConcat(x, [c]);
      TrimRightConcat(x, b);
      if !AllSpace(b) { BareBlank(x, c, TrimRight(b)); }
    }
  }

  /** What has no space in it stays as it is, and no blank is left in anything. */
  lemma SolidStays(s: string)
    ensures (forall c :: c in s ==> !IsSpace(c)) ==> Cleaned(s) == s
    ensures forall c :: c in Cleaned(s) ==> !Blank(c)
  {
    var t := TrimSpace(s);
    var t1 := Without(t, ' ');
    var t2 := Without(t1, '\r');
    var t3 := Without(t2, '\n');
    assert forall c :: c in Without(t3, '\t') ==> c in t3 && c in t2 && c in t1;
  }
}
