/** Decimal numerals, comma-separated fields and the scans that the Lua scripts and the
    Rust side run over them. */
module Text {
  import opened Wrappers

  const U64_MAX: nat := 0xFFFF_FFFF_FFFF_FFFF

  predicate IsDigit(c: char) { '0' <= c <= '9' }

  // Recursive rather than quantified, so that these facts stay out of proofs that do not need them.
  predicate AllDigits(s: string) { s == [] || (IsDigit(s[|s| - 1]) && AllDigits(s[..|s| - 1])) }

  predicate Avoids(s: string, c: char) { s == [] || (s[0] != c && Avoids(s[1..], c)) }

  predicate CommaFree(s: string) { Avoids(s, ',') }

  predicate ColonFree(s: string) { Avoids(s, ':') }

  lemma {:induction false} AvoidsEverywhere(s: string, c: char)
    ensures Avoids(s, c) <==> forall i :: 0 <= i < |s| ==> s[i] != c
  {
    if s != [] {
      AvoidsEverywhere(s[1..], c);
      assert forall i :: 1 <= i < |s| ==> s[i] == s[1..][i - 1];
    }
  }

  lemma {:induction false} DigitsEverywhere(s: string)
    ensures AllDigits(s) <==> forall i :: 0 <= i < |s| ==> IsDigit(s[i])
  {
    if s != [] {
      DigitsEverywhere(s[..|s| - 1]);
      assert forall i :: 0 <= i < |s| - 1 ==> s[i] == s[..|s| - 1][i];
    }
  }

  function DigitsValue(s: string): nat
    requires AllDigits(s)
  {
    if s == [] then 0
    else DigitsValue(s[..|s| - 1]) * 10 + (s[|s| - 1] as int - '0' as int)
  }

  /** The decimal numeral of n. */
  function Dec(n: nat): string
  {
    var last := ('0' as int + n % 10) as char;
    if n < 10 then [last] else Dec(n / 10) + [last]
  }

  /** Reading the digits back gives n, so no two numbers share a numeral. */
  lemma {:induction false} DecReadsBack(n: nat)
    ensures |Dec(n)| > 0 && AllDigits(Dec(n))
    ensures DigitsValue(Dec(n)) == n
    ensures |Dec(n)| == 1 <==> n < 10
  {
    if n >= 10 {
      DecReadsBack(n / 10);
      assert Dec(n)[..|Dec(n)| - 1] == Dec(n / 10);
    }
  }

  /** `str::parse::<u64>`: an optional plus sign, at least one digit, and no overflow. */
  function ParseU64(s: string): (r: Option<nat>)
    ensures r.Some? ==> r.value <= U64_MAX
  {
    var body := if |s| > 1 && s[0] == '+' then s[1..] else s;
    if body != [] && AllDigits(body) && DigitsValue(body) <= U64_MAX then Some(DigitsValue(body)) else None
  }

  /** How Redis stores an integer written by a script, and how a script reads it back. */
  function IntText(n: int): string { if n < 0 then "-" + Dec(-n) else Dec(n) }

  function ToNumber(s: string): Option<int>
  {
    if s != [] && AllDigits(s) then Some(DigitsValue(s))
    else if |s| > 1 && s[0] == '-' && AllDigits(s[1..]) then var n: int := DigitsValue(s[1..]); Some(-n)
    else None
  }

  lemma NumberRoundTrip(n: int)
    ensures ToNumber(IntText(n)) == Some(n)
    ensures n >= 0 ==> ParseU64(IntText(n)) == if n < 0x1_0000_0000_0000_0000 then Some(n) else None
  {
    DecReadsBack(if n < 0 then -n else n);
    if n < 0 {
      assert IntText(n)[1..] == Dec(-n);
      DigitsEverywhere(IntText(n));
      assert !IsDigit(IntText(n)[0]);
    } else {
      DigitsEverywhere(Dec(n));
      assert IsDigit(Dec(n)[0]);
    }
  }

  /** The first comma of s at or after `from`. */
  function FirstComma(s: string, from: nat): (r: Option<nat>)
    requires from <= |s|
    ensures r.Some? ==> from <= r.value < |s| && s[r.value] == ',' && forall j :: from <= j < r.value ==> s[j] != ','
    ensures r.None? ==> forall j :: from <= j < |s| ==> s[j] != ','
    decreases |s| - from
  {
    if from == |s| then None
    else if s[from] == ',' then Some(from)
    else FirstComma(s, from + 1)
  }

  /** `str::split(',')`: always at least one field. */
  function Split(s: string): (fields: seq<string>)
    ensures |fields| >= 1
    ensures forall i :: 0 <= i < |fields| ==> CommaFree(fields[i])
    decreases |s|
  {
    match FirstComma(s, 0)
    case None => AvoidsEverywhere(s, ','); [s]
    case Some(i) => AvoidsEverywhere(s[..i], ','); [s[..i]] + Split(s[i + 1..])
  }

  /** `table.concat(fields, ',')`. */
  function Join(fields: seq<string>): string
  {
    if fields == [] then ""
    else if |fields| == 1 then fields[0]
    else fields[0] + "," + Join(fields[1..])
  }

  /** `string.gsub(s, ',', '')` returns this number of replacements. */
  function Commas(s: string): nat
  {
    if s == [] then 0 else (if s[0] == ',' then 1 else 0) + Commas(s[1..])
  }

  lemma FirstCommaIs(s: string, from: nat, i: nat)
    requires from <= i < |s| && s[i] == ','
    requires forall j :: from <= j < i ==> s[j] != ','
    ensures FirstComma(s, from) == Some(i)
  {
  }

  lemma SplitAt(a: string, rest: string)
    requires CommaFree(a)
    ensures Split(a + "," + rest) == [a] + Split(rest)
  {
    var s := a + "," + rest;
    AvoidsEverywhere(a, ',');
    FirstCommaIs(s, 0, |a|);
    assert s[..|a|] == a;
    assert s[|a| + 1..] == rest;
  }

  lemma SplitWhole(a: string)
    requires CommaFree(a)
    ensures Split(a) == [a]
  {
    AvoidsEverywhere(a, ',');
  }

  /** Splitting undoes joining, for every non-empty list of comma-free fields. */
  lemma {:induction false} SplitOfJoin(fields: seq<string>)
    requires fields != []
    requires forall i :: 0 <= i < |fields| ==> CommaFree(fields[i])
    ensures Split(Join(fields)) == fields
  {
    if |fields| == 1 {
      SplitWhole(fields[0]);
    } else {
      SplitOfJoin(fields[1..]);
      SplitAt(fields[0], Join(fields[1..]));
    }
  }

  /** Joining undoes splitting, for every string. */
  lemma {:induction false} JoinOfSplit(s: string)
    ensures Join(Split(s)) == s
    decreases |s|
  {
    match FirstComma(s, 0)
    case None =>
    case Some(i) =>
      JoinOfSplit(s[i + 1..]);
      var fields := Split(s);
      assert fields[1..] == Split(s[i + 1..]);
      assert s == s[..i] + "," + s[i + 1..];
  }

  lemma {:induction false} CommasConcat(a: string, b: string)
    ensures Commas(a + b) == Commas(a) + Commas(b)
  {
    if a == [] {
      assert a + b == b;
    } else {
      CommasConcat(a[1..], b);
      assert (a + b)[1..] == a[1..] + b;
    }
  }

  lemma {:induction false} CommasNone(a: string)
    requires CommaFree(a)
    ensures Commas(a) == 0
  {
    if a != [] { CommasNone(a[1..]); }
  }

  /** The debug count is exact for a joined list of ids exactly when the list is not empty. */
  lemma {:induction false} CommasCountFields(fields: seq<string>)
    requires forall i :: 0 <= i < |fields| ==> CommaFree(fields[i])
    ensures Commas(Join(fields)) + 1 == |fields| <==> fields != []
    ensures fields == [] ==> Commas(Join(fields)) == 0
  {
    if |fields| == 1 {
      CommasNone(fields[0]);
    } else if |fields| > 1 {
      CommasCountFields(fields[1..]);
      CommasNone(fields[0]);
      CommasConcat(fields[0] + ",", Join(fields[1..]));
      CommasConcat(fields[0], ",");
      assert Commas(",") == 1;
    }
  }

  /** What the scripts cut out of a coin with `string.find` and `string.sub`: the text before the
      first comma, and the text between the first two. None is the Lua error on a missing comma. */
  function ScanFirst(s: string): Option<string>
  {
    match FirstComma(s, 0)
    case None => None
    case Some(i) => Some(s[..i])
  }

  function ScanSecond(s: string): Option<string>
  {
    match FirstComma(s, 0)
    case None => None
    case Some(i) =>
      match FirstComma(s, i + 1)
      case None => None
      case Some(j) => Some(s[i + 1..j])
  }

  lemma FirstCommaShift(s: string, from: nat)
    requires from <= |s|
    ensures FirstComma(s, from).None? <==> FirstComma(s[from..], 0).None?
    ensures FirstComma(s, from).Some? ==> FirstComma(s, from).value == from + FirstComma(s[from..], 0).value
  {
    var t := s[from..];
    match FirstComma(s, from)
    case Some(i) => FirstCommaIs(t, 0, i - from);
    case None =>
  }

  /** On every string the Lua scan and the Rust split see the same first two fields. */
  lemma ScanMatchesSplit(s: string)
    ensures ScanFirst(s) == if |Split(s)| >= 2 then Some(Split(s)[0]) else None
    ensures ScanSecond(s) == if |Split(s)| >= 3 then Some(Split(s)[1]) else None
  {
    match FirstComma(s, 0)
    case None =>
    case Some(i) =>
      FirstCommaShift(s, i + 1);
      var t := s[i + 1..];
      match FirstComma(t, 0)
      case None =>
      case Some(j) => assert s[i + 1..i + 1 + j] == t[..j];
  }
}
