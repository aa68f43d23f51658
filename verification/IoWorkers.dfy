/**
 The disk workers: modules/graph/rrdtool/utils.go picks a worker from the first hex digits of a series' md5,
 modules/graph/g/cfg.go fixes their number, and modules/graph/rrdtool/sync_disk.go gives each one FIFO channel.
 */
module IoWorkers {
  import opened Model
  import opened Arithmetic

  // ---------- picking a worker ----------

  /** The value of a hex digit; strconv accepts either case. */
  function HexDigit(c: char): Option<nat> {
    if '0' <= c <= '9' then Some(c as int - '0' as int)
    else if 'a' <= c <= 'f' then Some(c as int - 'a' as int + 10)
    else if 'A' <= c <= 'F' then Some(c as int - 'A' as int + 10)
    else None
  }

  /** The value of an unsigned hex string. */
  function HexValue(s: string): (r: Option<int>)
    ensures r.Some? ==> r.value >= 0
  {
    if s == "" then Some(0)
    else match (HexValue(s[..|s| - 1]), HexDigit(s[|s| - 1]))
         case (Some(v), Some(d)) => Some(16 * v + d)
         case _ => None
  }

  /** strconv.ParseInt(s, 16, 64). */
  function ParseHex(s: string): Option<int> {
    var signed := s != "" && (s[0] == '-' || s[0] == '+');
    var digits := if signed then s[1..] else s;
    match HexValue(digits)
    case Some(v) =>
      var n: int := if signed && s[0] == '-' then -v else v;
      if digits != "" && -0x8000_0000_0000_0000 <= n < 0x8000_0000_0000_0000 then Some(n) else None
    case None => None
  }

  /** The number of hex digits of n. */
  function HexLen(n: nat): nat {
    if n < 16 then 1 else 1 + HexLen(n / 16)
  }

  function GetIndex(md5: string, ioWorkerNum: int, firstBytesSize: nat): int {
    if ioWorkerNum <= 1 || |md5| < firstBytesSize || firstBytesSize == 0 then 0
    else match ParseHex(md5[0..firstBytesSize])
         case None => 0
         case Some(m) => GoMod(m, ioWorkerNum)
  }

  predicate LowerHex(s: string) {
    forall i :: 0 <= i < |s| ==> '0' <= s[i] <= '9' || 'a' <= s[i] <= 'f'
  }

  lemma {:induction false} HexBound(s: string)
    requires LowerHex(s)
    ensures HexValue(s).Some? && HexValue(s).value < Pow(16, |s|)
  {
    if s != "" { HexBound(s[..|s| - 1]); }
  }

  /** Every lower-case hex checksum, of any length, names an existing worker, and the same one each time. */
  lemma IndexInRange(md5: string, ioWorkerNum: int, firstBytesSize: nat)
    requires ioWorkerNum > 0 && LowerHex(md5)
    ensures 0 <= GetIndex(md5, ioWorkerNum, firstBytesSize) < ioWorkerNum
  {
    if ioWorkerNum > 1 && firstBytesSize <= |md5| && firstBytesSize > 0 {
      var p := md5[0..firstBytesSize];
      HexBound(p);
    }
  }

  // ---------- the load is even ----------

  function DigitChar(d: nat): (c: char)
    requires d < 16
    ensures HexDigit(c) == Some(d) && ('0' <= c <= '9' || 'a' <= c <= 'f')
  {
    if d < 10 then ('0' as int + d) as char else ('a' as int + d - 10) as char
  }

  lemma DivBelow(v: nat, p: nat)
    requires v < 16 * p
    ensures v / 16 < p && 0 <= v % 16 < 16 && v == 16 * (v / 16) + v % 16
  {
  }

  lemma HexAppend(a: string, u: nat, d: nat)
    requires LowerHex(a) && HexValue(a) == Some(u) && d < 16
    ensures LowerHex(a + [DigitChar(d)]) && HexValue(a + [DigitChar(d)]) == Some(16 * u + d)
  {
    assert (a + [DigitChar(d)])[..|a|] == a;
  }

  /** The lower-case hex string of the given length with the given value. */
  function Hex(v: nat, len: nat): (s: string)
    requires v < Pow(16, len)
    ensures |s| == len
  {
    if len == 0 then ""
    else
      DivBelow(v, Pow(16, len - 1));
      Hex(v / 16, len - 1) + [DigitChar(v % 16)]
  }

  lemma {:induction false} HexIs(v: nat, len: nat)
    requires v < Pow(16, len)
    ensures LowerHex(Hex(v, len)) && HexValue(Hex(v, len)) == Some(v)
  {
    if len > 0 {
      DivBelow(v, Pow(16, len - 1));
      HexIs(v / 16, len - 1);
      HexAppend(Hex(v / 16, len - 1), v / 16, v % 16);
    }
  }

  lemma Shifted(u: nat, d: nat)
    requires d < 16
    ensures (16 * u + d) / 16 == u && (16 * u + d) % 16 == d
  {
  }

  lemma {:induction false} HexUnique(s: string, v: nat)
    requires LowerHex(s) && HexValue(s) == Some(v)
    ensures v < Pow(16, |s|) && s == Hex(v, |s|)
  {
    HexBound(s);
    if s != "" {
      var n := |s| - 1;
      HexBound(s[..n]);
      var u := HexValue(s[..n]).value;
      HexUnique(s[..n], u);
      var d := HexDigit(s[n]).value;
      Shifted(u, d);
      assert s[n] == DigitChar(d);
      assert s == s[..n] + [s[n]];
    }
  }

  /** How many of the first n prefix values go to worker i. */
  function Load(i: nat, workers: nat, n: nat): nat
    requires workers > 0
  {
    if n == 0 then 0 else Load(i, workers, n - 1) + if (n - 1) % workers == i then 1 else 0
  }

  lemma {:induction false} LoadBlock(i: nat, workers: nat, q: nat, r: nat)
    requires i < workers && r <= workers
    ensures Load(i, workers, q * workers + r) == q + if r > i then 1 else 0
    decreases q, r
  {
    if r > 0 {
      LoadBlock(i, workers, q, r - 1);
      DivUnique(q * workers + r - 1, workers, q, r - 1);
    } else if q > 0 {
      LoadBlock(i, workers, q - 1, workers);
      assert q * workers == (q - 1) * workers + workers;
    }
  }

  lemma {:induction false} PowerLen(n: nat)
    ensures Pow(2, n) > 0 && HexLen(Pow(2, n)) == n / 4 + 1
  {
    if n < 4 {
      assert Pow(2, 1) == 2 && Pow(2, 2) == 4 && Pow(2, 3) == 8;
    } else {
      PowerLen(n - 4);
      PowAdd(2, 4, n - 4);
      assert Pow(2, 2) == 4 && Pow(2, 3) == 8 && Pow(2, 4) == 16;
      Shifted(Pow(2, n - 4), 0);
    }
  }

  /** With 2^n workers and the prefix length of the configuration the residues of the prefix values are even. */
  lemma LoadIsEven(n: nat, i: nat)
    requires i < Pow(2, n)
    ensures var workers, prefixes := Pow(2, n), Pow(16, HexLen(Pow(2, n)));
            Load(i, workers, prefixes) == prefixes / workers && prefixes % workers == 0
  {
    var size := HexLen(Pow(2, n));
    PowerLen(n);
    Pow16(size);
    PowAdd(2, 4 * size - n, n);
    var q := Pow(2, 4 * size - n);
    LoadBlock(i, Pow(2, n), q, 0);
    DivUnique(q * Pow(2, n), Pow(2, n), q, 0);
  }

  /** A prefix of fewer than 16 lower-case hex digits parses as its value. */
  lemma ParsesPrefix(p: string)
    requires LowerHex(p) && 0 < |p| < 16
    ensures HexValue(p).Some? && ParseHex(p) == HexValue(p)
  {
    HexBound(p);
    PowMonotone(16, |p|, 15);
    Pow16Values();
  }

  lemma IndexOfPrefix(p: string, rest: string, workers: nat)
    requires LowerHex(p) && 0 < |p| < 16 && workers > 0
    ensures HexValue(p).Some? && GetIndex(p + rest, workers, |p|) == HexValue(p).value % workers
  {
    assert (p + rest)[0..|p|] == p;
    ParsesPrefix(p);
    if workers == 1 { DivUnique(HexValue(p).value, 1, HexValue(p).value, 0); }
  }

  /** The prefix with value v names worker v mod 2^n. */
  lemma PrefixIndex(n: nat, v: nat, size: nat, rest: string)
    requires size == HexLen(Pow(2, n)) < 16 && v < Pow(16, size)
    ensures Pow(2, n) > 0 && GetIndex(Hex(v, size) + rest, Pow(2, n), size) == v % Pow(2, n)
  {
    PowerLen(n);
    HexIs(v, size);
    IndexOfPrefix(Hex(v, size), rest, Pow(2, n));
  }

  // ---------- the prefixes a worker serves ----------

  /** The prefix values that getIndex sends to worker i when these digits follow. */
  ghost function To(i: nat, workers: nat, size: nat, rest: string): nat -> bool {
    (u: nat) => u < Pow(16, size) && GetIndex(Hex(u, size) + rest, workers, size) == i
  }

  /** The prefixes of the chosen values below v. */
  ghost function Prefixes(chosen: nat -> bool, size: nat, v: nat): set<string>
    requires v <= Pow(16, size)
  {
    set u: nat | u < v && chosen(u) :: Hex(u, size)
  }

  function Chosen(chosen: nat -> bool, v: nat): nat {
    if v == 0 then 0 else Chosen(chosen, v - 1) + if chosen(v - 1) then 1 else 0
  }

  /** Worker i serves exactly the lower-case hex prefixes of that length which getIndex sends there. */
  lemma ServedAre(i: nat, workers: nat, size: nat, rest: string, p: string)
    ensures p in Prefixes(To(i, workers, size, rest), size, Pow(16, size))
       <==> LowerHex(p) && |p| == size && GetIndex(p + rest, workers, size) == i
  {
    if LowerHex(p) && |p| == size {
      HexBound(p);
      HexUnique(p, HexValue(p).value);
    }
    forall u: nat | u < Pow(16, size) ensures LowerHex(Hex(u, size)) { HexIs(u, size); }
  }

  lemma HexDiffers(u: nat, v: nat, size: nat)
    requires u < Pow(16, size) && v < Pow(16, size) && u != v
    ensures Hex(u, size) != Hex(v, size)
  {
    HexIs(u, size);
    HexIs(v, size);
  }

  lemma PrefixIsNew(chosen: nat -> bool, size: nat, v: nat)
    requires v < Pow(16, size)
    ensures Hex(v, size) !in Prefixes(chosen, size, v)
  {
    forall u: nat | u < v ensures Hex(u, size) != Hex(v, size) { HexDiffers(u, v, size); }
  }

  lemma PrefixNext(chosen: nat -> bool, size: nat, v: nat)
    requires v < Pow(16, size)
    ensures Prefixes(chosen, size, v + 1) == Prefixes(chosen, size, v) + if chosen(v) then {Hex(v, size)} else {}
  {
  }

  lemma PrefixesGrow(chosen: nat -> bool, size: nat, v: nat)
    requires v < Pow(16, size)
    ensures |Prefixes(chosen, size, v + 1)| == |Prefixes(chosen, size, v)| + if chosen(v) then 1 else 0
  {
    PrefixNext(chosen, size, v);
    PrefixIsNew(chosen, size, v);
    var before, p := Prefixes(chosen, size, v), Hex(v, size);
    assert |before + {p}| == |before| + 1;
    assert before + {} == before;
  }

  lemma {:induction false} PrefixCount(chosen: nat -> bool, size: nat, v: nat)
    requires v <= Pow(16, size)
    ensures |Prefixes(chosen, size, v)| == Chosen(chosen, v)
  {
    if v > 0 {
      PrefixCount(chosen, size, v - 1);
      PrefixesGrow(chosen, size, v - 1);
    }
  }

  lemma {:induction false} ChosenIsLoad(chosen: nat -> bool, i: nat, workers: nat, v: nat)
    requires workers > 0 && forall u: nat :: u < v ==> (chosen(u) <==> u % workers == i)
    ensures Chosen(chosen, v) == Load(i, workers, v)
  {
    if v > 0 { ChosenIsLoad(chosen, i, workers, v - 1); }
  }

  lemma DivTimes(a: nat, b: nat)
    requires b > 0 && a % b == 0
    ensures a / b * b == a
  {
  }

  /** With 2^n workers, fewer than 2^60, each of them serves the same number of the 16^size prefixes. */
  lemma EachServesAsMany(n: nat, i: nat, rest: string)
    requires i < Pow(2, n) && HexLen(Pow(2, n)) < 16
    ensures var workers, size := Pow(2, n), HexLen(Pow(2, n));
            |Prefixes(To(i, workers, size, rest), size, Pow(16, size))| * workers == Pow(16, size)
  {
    var workers, size := Pow(2, n), HexLen(Pow(2, n));
    var to, all := To(i, workers, size, rest), Pow(16, size);
    PrefixCount(to, size, all);
    forall u: nat | u < all ensures to(u) <==> u % workers == i { PrefixIndex(n, u, size, rest); }
    ChosenIsLoad(to, i, workers, all);
    LoadIsEven(n, i);
    DivTimes(all, workers);
  }

  lemma Pow16Values()
    ensures Pow(16, 15) == 0x1000_0000_0000_0000
  {
    assert Pow(16, 1) == 0x10 && Pow(16, 2) == 0x100 && Pow(16, 3) == 0x1000 && Pow(16, 4) == 0x1_0000;
    PowAdd(16, 4, 4);
    PowAdd(16, 8, 4);
    PowAdd(16, 12, 3);
  }
}
