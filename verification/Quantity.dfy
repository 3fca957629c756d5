/** Resource quantities: decimal parsing and printing of 64-bit integers, the units, the sums
    over containers, and the range constraints of a backend. */
module Quantity {
  import opened Api

  const MIN: int := -0x8000_0000_0000_0000
  const MAX: int := 0x7fff_ffff_ffff_ffff
  const RANGE: int := 0x1_0000_0000_0000_0000

  predicate Fits(n: int) {
    MIN <= n <= MAX
  }

  /** The value of a 64-bit signed computation whose exact result is `n`: the multiples of
      2^64 are taken off or put on until it fits. */
  function Wrap(n: int): (r: int)
    ensures Fits(r) && (Fits(n) ==> r == n)
    decreases if n < MIN then MIN - n else if MAX < n then n - MAX else 0
  {
    if n < MIN then Wrap(n + RANGE) else if MAX < n then Wrap(n - RANGE) else n
  }

  lemma WrapShift(n: int)
    ensures Wrap(n + RANGE) == Wrap(n)
  {
  }

  lemma {:induction false} WrapAdd(a: int, b: int)
    ensures Wrap(Wrap(a) + b) == Wrap(a + b)
    decreases if a < MIN then MIN - a else if MAX < a then a - MAX else 0
  {
    if a < MIN {
      WrapAdd(a + RANGE, b);
      WrapShift(a + b);
    } else if MAX < a {
      WrapAdd(a - RANGE, b);
      WrapShift(a - RANGE + b);
    }
  }

  // ---------------------------------------------------------------- decimal integers

  predicate IsDigit(c: char) {
    '0' <= c <= '9'
  }

  function Digit(d: nat): (c: char)
    requires d < 10
    ensures IsDigit(c) && (c - '0') as int == d
  {
    '0' + d as char
  }

  predicate AllDigits(s: string) {
    forall i :: 0 <= i < |s| ==> IsDigit(s[i])
  }

  function Number(s: string): (n: int)
    requires AllDigits(s)
    ensures n >= 0
  {
    if s == "" then 0 else 10 * Number(s[..|s| - 1]) + (s[|s| - 1] - '0') as int
  }

  function PrintNat(n: nat): (s: string)
    ensures s != "" && AllDigits(s)
  {
    if n < 10 then [Digit(n)] else PrintNat(n / 10) + [Digit(n % 10)]
  }

  function Print(n: int): string {
    if n < 0 then "-" + PrintNat(-n) else PrintNat(n)
  }

  /** The integer written in decimal with an optional sign, of any size. */
  function Decimal(s: string): Option<int> {
    if s == "" then None
    else
      var body := if s[0] == '-' || s[0] == '+' then s[1..] else s;
      if body == "" || !AllDigits(body) then None
      else Some(if s[0] == '-' then -Number(body) else Number(body))
  }

  /** Parsing into 64 bits fails on bad syntax and on overflow. */
  function ParseInt(s: string): Option<int> {
    var n := Decimal(s);
    if n.Some? && Fits(n.value) then n else None
  }

  lemma {:induction false} NumberPrint(n: nat)
    ensures Number(PrintNat(n)) == n
  {
    if n < 10 {
      assert [Digit(n)][..0] == "";
    } else {
      NumberPrint(n / 10);
      var s := PrintNat(n);
      assert s[..|s| - 1] == PrintNat(n / 10);
    }
  }

  lemma DecimalPrint(n: int)
    ensures Decimal(Print(n)) == Some(n)
  {
    var d := PrintNat(if n < 0 then -n else n);
    NumberPrint(if n < 0 then -n else n);
    assert IsDigit(d[0]);
    assert n < 0 ==> Print(n)[1..] == d;
  }

  // ---------------------------------------------------------------- units

  predicate EndsWith(s: string, t: string) {
    |t| <= |s| && s[|s| - |t|..] == t
  }

  lemma LastChar(s: string, t: string)
    requires s != "" && t != ""
    ensures EndsWith(s, t) ==> s[|s| - 1] == t[|t| - 1]
  {
    if EndsWith(s, t) {
      assert s[|s| - |t|..][|t| - 1] == s[|s| - 1];
    }
  }

  function Chop(s: string, n: nat): string
    requires n <= |s|
  {
    s[..|s| - n]
  }

  /** The number and the factor a quantity is made of. */
  function Split(q: string): (string, int) {
    if EndsWith(q, "m") then (Chop(q, 1), 1)
    else if EndsWith(q, "Mi") then (Chop(q, 2), 1024 * 1024)
    else if EndsWith(q, "Gi") then (Chop(q, 2), 1024 * 1024 * 1024)
    else (q, 1)
  }

  function ParseQuantity(q: string): Option<int> {
    if q == "" then Some(0)
    else
      var (number, factor) := Split(q);
      var n := ParseInt(number);
      if n.None? then None else Some(Wrap(n.value * factor))
  }

  /** The quantity that is written, whatever its size. */
  function Magnitude(q: string): Option<int> {
    if q == "" then Some(0)
    else
      var (number, factor) := Split(q);
      var n := Decimal(number);
      if n.None? then None else Some(n.value * factor)
  }

  predicate FitsBound(q: string) {
    Magnitude(q).Some? ==> Fits(Magnitude(q).value)
  }

  /** Exactly the numbers of each unit that fit: GiB up to 2^33, MiB up to 2^43. */
  lemma UnitsFit(n: int)
    ensures Fits(n * 1024 * 1024 * 1024) <==> -0x2_0000_0000 <= n < 0x2_0000_0000
    ensures Fits(n * 1024 * 1024) <==> -0x800_0000_0000 <= n < 0x800_0000_0000
  {
  }

  /** Which bounds fit, from the number and the unit that are written. */
  lemma BoundFits(q: string)
    requires q != "" && Decimal(Split(q).0).Some?
    ensures var n := Decimal(Split(q).0).value;
            FitsBound(q) <==>
              if EndsWith(q, "Gi") then -0x2_0000_0000 <= n < 0x2_0000_0000
              else if EndsWith(q, "Mi") then -0x800_0000_0000 <= n < 0x800_0000_0000
              else Fits(n)
  {
    UnitsFit(Decimal(Split(q).0).value);
    if EndsWith(q, "m") {
      LastChar(q, "m");
      LastChar(q, "Gi");
      LastChar(q, "Mi");
    } else if EndsWith(q, "Mi") {
      UnitChar(q, "Mi");
      UnitChar(q, "Gi");
    }
  }

  lemma UnitChar(s: string, t: string)
    requires |t| == 2
    ensures EndsWith(s, t) ==> s[|s| - 2] == t[0]
  {
    if EndsWith(s, t) {
      assert s[|s| - 2..][0] == s[|s| - 2];
    }
  }

  /** Parsing gives the quantity that is written exactly when that fits into 64 bits: too many
      digits are an error, and a number that fits may still wrap with its unit. */
  lemma ParseExact(q: string)
    ensures ParseQuantity(q) == Magnitude(q) <==> FitsBound(q)
  {
    if q != "" && Decimal(Split(q).0).Some? {
      var n := Decimal(Split(q).0).value;
      UnitsFit(n);
      BoundFits(q);
    }
  }

  /** The printed totals are read back: `<n>m` for processors, `<n>` for memory and storage. */
  lemma QuantityRoundTrip(n: int)
    requires Fits(n)
    ensures ParseQuantity(Print(n) + "m") == Some(n)
    ensures ParseQuantity(Print(n)) == Some(n)
  {
    DecimalPrint(n);
    var p := Print(n);
    assert EndsWith(p + "m", "m") && Chop(p + "m", 1) == p;
    var d := PrintNat(if n < 0 then -n else n);
    assert p[|p| - 1] == d[|d| - 1] && IsDigit(d[|d| - 1]);
    LastChar(p, "m");
    LastChar(p, "Mi");
    LastChar(p, "Gi");
  }

  // ---------------------------------------------------------------- totals

  /** The resource requests of each container, if it has any. */
  type Requests = map<string, Option<map<string, string>>>

  /** What one container asks of a resource; a request that does not parse counts nothing. */
  function Request(rs: Requests, container: string, resource: string): int
    requires container in rs
  {
    var q := Parsed(rs[container], resource);
    if q.Some? then q.value else 0
  }

  ghost function SumOver(cs: set<string>, asked: map<string, int>): int
    requires cs <= asked.Keys
  {
    if cs == {} then 0 else var c :| c in cs; asked[c] + SumOver(cs - {c}, asked)
  }

  function Asked(rs: Requests, resource: string): map<string, int> {
    map c | c in rs :: Request(rs, c, resource)
  }

  /** The exact sum over all containers. */
  ghost function Sum(rs: Requests, resource: string): int {
    SumOver(rs.Keys, Asked(rs, resource))
  }

  /** The sum does not depend on which container comes first. */
  lemma {:induction false} SumPick(cs: set<string>, asked: map<string, int>, x: string)
    requires cs <= asked.Keys && x in cs
    ensures SumOver(cs, asked) == asked[x] + SumOver(cs - {x}, asked)
    decreases |cs|
  {
    var c :| c in cs && SumOver(cs, asked) == asked[c] + SumOver(cs - {c}, asked);
    if c != x {
      SumPick(cs - {c}, asked, x);
      SumPick(cs - {x}, asked, c);
      assert cs - {c} - {x} == cs - {x} - {c};
    }
  }

  lemma SumStep(asked: map<string, int>, c: string, done: set<string>)
    requires c in asked && c !in done && done <= asked.Keys
    ensures Wrap(Wrap(SumOver(done, asked)) + asked[c]) == Wrap(SumOver(done + {c}, asked))
    ensures asked[c] == 0 ==> SumOver(done + {c}, asked) == SumOver(done, asked)
  {
    SumPick(done + {c}, asked, c);
    assert done + {c} - {c} == done;
    WrapAdd(SumOver(done, asked), asked[c]);
  }

  /** The totals of a workload, in whatever order Go visits its containers. */
  method CalculateResources(rs: Requests) returns (cpu: string, memory: string, storage: string)
    ensures cpu == Print(Wrap(Sum(rs, "cpu"))) + "m"
    ensures memory == Print(Wrap(Sum(rs, "memory")))
    ensures storage == Print(Wrap(Sum(rs, "ephemeral-storage")))
  {
    var a, b, c := 0, 0, 0;
    var todo := rs.Keys;
    ghost var done := {};
    while todo != {}
      invariant todo + done == rs.Keys && todo !! done
      invariant a == Wrap(SumOver(done, Asked(rs, "cpu")))
      invariant b == Wrap(SumOver(done, Asked(rs, "memory")))
      invariant c == Wrap(SumOver(done, Asked(rs, "ephemeral-storage")))
    {
      var container :| container in todo;
      a := AddRequest(rs, container, "cpu", a, done);
      b := AddRequest(rs, container, "memory", b, done);
      c := AddRequest(rs, container, "ephemeral-storage", c, done);
      todo := todo - {container};
      done := done + {container};
    }
    cpu, memory, storage := Print(a) + "m", Print(b), Print(c);
  }

  /** The parsed request of a container, if it has one that parses. */
  function Parsed(requests: Option<map<string, string>>, resource: string): Option<int> {
    if requests.Some? && resource in requests.value then ParseQuantity(requests.value[resource]) else None
  }

  method AddRequest(rs: Requests, container: string, resource: string, total: int, ghost done: set<string>)
    returns (t: int)
    requires container in rs && container !in done && done <= rs.Keys
    requires total == Wrap(SumOver(done, Asked(rs, resource)))
    ensures t == Wrap(SumOver(done + {container}, Asked(rs, resource)))
  {
    t := AddParsed(Parsed(rs[container], resource), total, Asked(rs, resource), container, done);
  }

  method AddParsed(q: Option<int>, total: int, ghost asked: map<string, int>, ghost c: string, ghost done: set<string>)
    returns (t: int)
    requires c in asked && c !in done && done <= asked.Keys && asked[c] == (if q.Some? then q.value else 0)
    requires total == Wrap(SumOver(done, asked))
    ensures t == Wrap(SumOver(done + {c}, asked))
  {
    SumStep(asked, c, done);
    t := total;
    if q.Some? {
      t := Wrap(t + q.value);
    }
  }

  // ---------------------------------------------------------------- constraints

  /** The parts between dashes. */
  function Parts(s: string): (ps: seq<string>)
    ensures |ps| >= 1
  {
    if s == "" then [""]
    else
      var rest := Parts(s[1..]);
      if s[0] == '-' then [""] + rest else [[s[0]] + rest[0]] + rest[1..]
  }

  predicate InRange(n: Option<int>, lo: string, hi: string) {
    && n.Some?
    && (lo != "" ==> ParseQuantity(lo).Some? && ParseQuantity(lo).value <= n.value)
    && (hi != "" ==> ParseQuantity(hi).Some? && n.value <= ParseQuantity(hi).value)
  }

  predicate Accepts(actual: string, constraint: string) {
    var ps := Parts(constraint);
    if constraint == "" then true
    else if |ps| == 1 then actual == constraint
    else if |ps| == 2 then InRange(ParseQuantity(actual), ps[0], ps[1])
    else false
  }

  predicate DashFree(s: string) {
    '-' !in s
  }

  lemma {:induction false} PartsOne(s: string)
    requires DashFree(s)
    ensures Parts(s) == [s]
  {
    if s != "" {
      PartsOne(s[1..]);
      assert [s[0]] + s[1..] == s;
    }
  }

  lemma {:induction false} PartsCons(a: string, rest: string)
    requires DashFree(a)
    ensures Parts(a + "-" + rest) == [a] + Parts(rest)
  {
    var s := a + "-" + rest;
    if a == "" {
      assert s[0] == '-' && s[1..] == rest;
    } else {
      assert s[1..] == a[1..] + "-" + rest;
      PartsCons(a[1..], rest);
      assert [a[0]] + a[1..] == a;
    }
  }

  /** The parts, joined by dashes, are the string again, and hold no dash. */
  lemma {:induction false} PartsTwo(s: string)
    ensures |Parts(s)| == 1 ==> DashFree(s) && Parts(s)[0] == s
    ensures |Parts(s)| == 2 ==> s == Parts(s)[0] + "-" + Parts(s)[1] && DashFree(Parts(s)[0]) && DashFree(Parts(s)[1])
  {
    if s != "" { PartsTwo(s[1..]); }
  }

  // ---------------------------------------------------------------- the validator's pattern

  predicate IsLetter(c: char) {
    'a' <= c <= 'z' || 'A' <= c <= 'Z'
  }

  /** Digits, at least one, then letters. */
  predicate IsQuant(s: string) {
    exists k :: 0 <= k <= |s| && QuantAt(s, k)
  }

  predicate QuantAt(s: string, k: int) {
    1 <= k <= |s| && (forall i :: 0 <= i < k ==> IsDigit(s[i])) && (forall i :: k <= i < |s| ==> IsLetter(s[i]))
  }

  predicate IsBound(s: string) {
    s == "" || IsQuant(s)
  }

  /** The regular expression of the validator: `q`, `q-q`, `-q` or `q-`. */
  predicate Pattern(c: string) {
    IsQuant(c) || (|c| > 1 && exists i :: 0 <= i < |c| && DashAt(c, i))
  }

  predicate DashAt(c: string, i: int) {
    0 <= i < |c| && c[i] == '-' && IsBound(c[..i]) && IsBound(c[i + 1..])
  }

  lemma QuantDashFree(s: string)
    requires IsBound(s)
    ensures DashFree(s)
  {
  }

  /** The validator accepts exactly the constraints that split into one quantity, or into two
      bounds that are not both missing. */
  lemma PatternExactly(c: string)
    ensures Pattern(c) <==>
            var ps := Parts(c);
            || (|ps| == 1 && IsQuant(ps[0]))
            || (|ps| == 2 && IsBound(ps[0]) && IsBound(ps[1]) && (ps[0] != "" || ps[1] != ""))
  {
    PartsTwo(c);
    if IsQuant(c) {
      QuantDashFree(c);
      PartsOne(c);
    } else if i :| |c| > 1 && DashAt(c, i) {
      PatternParts(c, i);
    } else if |Parts(c)| == 2 {
      var ps := Parts(c);
      var i := |ps[0]|;
      assert c[i] == '-' && c[..i] == ps[0] && c[i + 1..] == ps[1];
      assert IsBound(ps[0]) && IsBound(ps[1]) ==> DashAt(c, i);
    }
  }

  lemma PatternParts(c: string, i: int)
    requires DashAt(c, i)
    ensures Parts(c) == [c[..i], c[i + 1..]]
  {
    var a, b := c[..i], c[i + 1..];
    assert c == a + "-" + b;
    QuantDashFree(a);
    QuantDashFree(b);
    PartsCons(a, b);
    PartsOne(b);
  }

  predicate AllLetters(s: string) {
    forall i :: 0 <= i < |s| ==> IsLetter(s[i])
  }

  /** A quantity, as the validator sees it, is a number followed by letters. */
  lemma QuantExactly(s: string)
    ensures IsQuant(s) <==> exists d: string, u: string :: d != "" && AllDigits(d) && AllLetters(u) && s == d + u
  {
    if k :| 0 <= k <= |s| && QuantAt(s, k) {
      assert s == s[..k] + s[k..];
    }
    if d: string, u: string :| d != "" && AllDigits(d) && AllLetters(u) && s == d + u {
      assert QuantAt(s, |d|);
    }
  }

  lemma LetterLast(d: string, u: string)
    requires u != "" && AllLetters(u)
    ensures Decimal(d + u) == None
  {
    var s := d + u;
    var body := if s[0] == '-' || s[0] == '+' then s[1..] else s;
    assert s[|s| - 1] == u[|u| - 1] && IsLetter(s[|s| - 1]);
    if |s| > 1 || body == s { assert body != "" ==> body[|body| - 1] == s[|s| - 1]; }
  }

  lemma DigitsOnly(d: string)
    requires d != "" && AllDigits(d)
    ensures Decimal(d) == Some(Number(d))
  {
    assert IsDigit(d[0]);
  }

  /** Of what the validator accepts, the selector understands exactly the units `m`, `Mi` and `Gi` and
      none, with a number that fits into 64 bits. Any other bound rejects every Workload. */
  lemma ValidatedParses(d: string, u: string)
    requires d != "" && AllDigits(d) && AllLetters(u)
    ensures IsQuant(d + u)
    ensures ParseQuantity(d + u).Some? <==> u in {"", "m", "Mi", "Gi"} && Fits(Number(d))
  {
    QuantExactly(d + u);
    DigitsOnly(d);
    var q := d + u;
    if EndsWith(q, "m") {
      UnitOff(d, u, "m");
    } else if EndsWith(q, "Mi") {
      UnitOff(d, u, "Mi");
    } else if EndsWith(q, "Gi") {
      UnitOff(d, u, "Gi");
    } else if u == "" {
      assert q == d;
    } else {
      LetterLast(d, u);
      assert u == "m" ==> EndsWith(q, "m");
      assert u == "Mi" ==> EndsWith(q, "Mi");
      assert u == "Gi" ==> EndsWith(q, "Gi");
    }
  }

  lemma LetterBehind(d: string, u: string, j: nat)
    requires AllDigits(d) && j < |d + u|
    ensures j < |d| ==> !IsLetter((d + u)[j])
  {
    if j < |d| { assert (d + u)[j] == d[j] && IsDigit(d[j]); }
  }

  lemma UnitFront(q: string, unit: string)
    requires unit in {"m", "Mi", "Gi"} && EndsWith(q, unit)
    ensures IsLetter(q[|q| - |unit|])
  {
    assert q[|q| - |unit|..][0] == q[|q| - |unit|] == unit[0];
  }

  /** Without its unit a quantity is a number exactly when the unit was all there was. */
  lemma UnitOff(d: string, u: string, unit: string)
    requires d != "" && AllDigits(d) && AllLetters(u) && EndsWith(d + u, unit) && unit in {"m", "Mi", "Gi"}
    ensures Decimal(Chop(d + u, |unit|)) == if u == unit then Some(Number(d)) else None
    ensures u in {"", "m", "Mi", "Gi"} ==> u == unit
  {
    var q := d + u;
    UnitFront(q, unit);
    LetterBehind(d, u, |q| - |unit|);
    assert u[|u| - |unit|..] == q[|q| - |unit|..] == unit;
    assert Chop(q, |unit|) == d + u[..|u| - |unit|];
    if |u| == |unit| {
      assert u == unit && Chop(q, |unit|) == d;
      DigitsOnly(d);
    } else {
      LetterLast(d, u[..|u| - |unit|]);
    }
  }

  // ---------------------------------------------------------------- ranges

  /** The number lies between the bounds that are written; a missing bound does not limit. */
  predicate Within(n: int, lo: string, hi: string) {
    && (lo != "" ==> Magnitude(lo).Some? && Magnitude(lo).value <= n)
    && (hi != "" ==> Magnitude(hi).Some? && n <= Magnitude(hi).value)
  }

  predicate IsUnit(unit: string) {
    unit == "m" || unit == ""
  }

  /** A bound without a dash that fits into 64 bits. */
  predicate Usable(q: string) {
    DashFree(q) && FitsBound(q)
  }

  /** A printed total meets a range exactly when the number lies within the bounds. */
  lemma RangeExactly(n: int, unit: string, lo: string, hi: string)
    requires Fits(n) && IsUnit(unit) && Usable(lo) && Usable(hi)
    ensures Accepts(Print(n) + unit, lo + "-" + hi) <==> Within(n, lo, hi)
  {
    AcceptsTwo(Print(n) + unit, lo, hi);
    QuantityRoundTrip(n);
    assert Print(n) + "" == Print(n);
    ParseExact(lo);
    ParseExact(hi);
  }

  lemma AcceptsTwo(actual: string, lo: string, hi: string)
    requires DashFree(lo) && DashFree(hi)
    ensures Accepts(actual, lo + "-" + hi) <==> InRange(ParseQuantity(actual), lo, hi)
  {
    PartsCons(lo, hi);
    PartsOne(hi);
  }

  /** The range gives the right answer for a workload with this exact sum. */
  predicate Answers(sum: int, unit: string, lo: string, hi: string) {
    Usable(lo) && Usable(hi) ==> (Accepts(Print(Wrap(sum)) + unit, lo + "-" + hi) <==> Within(sum, lo, hi))
  }

  /** Without overflow every range accepts a workload exactly when the sum of its parsed
      requests lies within the bounds. */
  lemma SumInRange(rs: Requests, resource: string, unit: string, lo: string, hi: string)
    requires Fits(Sum(rs, resource)) && IsUnit(unit)
    ensures Answers(Sum(rs, resource), unit, lo, hi)
  {
    if Usable(lo) && Usable(hi) { RangeExactly(Sum(rs, resource), unit, lo, hi); }
  }

  lemma DashFreeNatural(q: string)
    requires DashFree(q) && Magnitude(q).Some?
    ensures Magnitude(q).value >= 0
  {
    if q != "" {
      var (number, factor) := Split(q);
      assert number <= q;
      assert number[0] in q;
    }
  }

  lemma PrintedBound(n: int)
    requires 0 <= n && Fits(n)
    ensures Usable(Print(n)) && Print(n) != "" && Magnitude(Print(n)) == Some(n)
  {
    QuantityRoundTrip(n);
    var p := PrintNat(n);
    DecimalPrint(n);
    LastChar(p, "m");
    LastChar(p, "Mi");
    LastChar(p, "Gi");
    assert IsDigit(p[|p| - 1]);
  }

  /** Some range that answers wrongly, for a sum that is too large, or so small that it wraps to
      a total that is not negative. */
  lemma WrongAnswer(sum: int, unit: string) returns (lo: string, hi: string)
    requires IsUnit(unit) && !Fits(sum) && (0 <= sum || 0 <= Wrap(sum))
    ensures !Answers(sum, unit, lo, hi)
  {
    if 0 <= sum {
      lo, hi := "", Print(MAX);
      PrintedBound(MAX);
    } else {
      lo, hi := Print(0), "";
      PrintedBound(0);
    }
    RangeExactly(Wrap(sum), unit, lo, hi);
  }

  /** Exactly the sums for which every range answers rightly: those that fit, and negative ones
      that wrap to a negative total, which no range can tell apart. */
  lemma AnswersExactly(sum: int, unit: string)
    requires IsUnit(unit)
    ensures (forall lo, hi :: Answers(sum, unit, lo, hi)) <==> Fits(sum) || (sum < 0 && Wrap(sum) < 0)
  {
    if !Fits(sum) && (0 <= sum || 0 <= Wrap(sum)) {
      var lo, hi := WrongAnswer(sum, unit);
    } else {
      forall lo, hi | Usable(lo) && Usable(hi)
        ensures Answers(sum, unit, lo, hi)
      {
        RangeExactly(Wrap(sum), unit, lo, hi);
        if Magnitude(lo).Some? { DashFreeNatural(lo); }
        if Magnitude(hi).Some? { DashFreeNatural(hi); }
      }
    }
  }

  lemma TwoAlike(resource: string, q: string, n: int) returns (rs: Requests)
    requires ParseQuantity(q) == Some(n)
    ensures rs == map["a" := Some(map[resource := q]), "b" := Some(map[resource := q])]
    ensures Sum(rs, resource) == n + n
  {
    var ask := Some(map[resource := q]);
    rs := map["a" := ask, "b" := ask];
    var asked := Asked(rs, resource);
    assert rs.Keys == {"a", "b"};
    SumPick({"a", "b"}, asked, "a");
    SumPick({"b"}, asked, "b");
    assert {"a", "b"} - {"a"} == {"b"} && {"b"} - {"b"} == {};
  }

  /** Two containers that each ask for the largest 64-bit integer pass a range that ends there. */
  lemma OverflowAccepted(resource: string, unit: string) returns (rs: Requests, hi: string)
    requires IsUnit(unit)
    ensures rs == map["a" := Some(map[resource := Print(MAX)]), "b" := Some(map[resource := Print(MAX)])]
        && hi == Print(MAX)
    ensures Accepts(Print(Wrap(Sum(rs, resource))) + unit, "" + "-" + hi) && !Within(Sum(rs, resource), "", hi)
  {
    QuantityRoundTrip(MAX);
    rs := TwoAlike(resource, Print(MAX), MAX);
    hi := Print(MAX);
    PrintedBound(MAX);
    RangeExactly(Wrap(MAX + MAX), unit, "", hi);
  }

  // ---------------------------------------------------------------- bounds beyond 64 bits

  /** The range gives the right answer for every total that fits. */
  ghost predicate RightFor(unit: string, lo: string, hi: string) {
    forall n :: Fits(n) ==> Judges(n, unit, lo, hi)
  }

  predicate Judges(n: int, unit: string, lo: string, hi: string) {
    Accepts(Print(n) + unit, lo + "-" + hi) <==> Within(n, lo, hi)
  }

  lemma JudgesExactly(n: int, unit: string, lo: string, hi: string)
    requires Fits(n) && IsUnit(unit) && DashFree(lo) && DashFree(hi)
    ensures Judges(n, unit, lo, hi) <==> (InRange(Some(n), lo, hi) <==> Within(n, lo, hi))
  {
    AcceptsTwo(Print(n) + unit, lo, hi);
    QuantityRoundTrip(n);
    assert Print(n) + "" == Print(n);
  }

  /** The number of the bound fits into 64 bits, but not with its unit. */
  predicate Wraps(q: string) {
    q != "" && ParseQuantity(q).Some? && !FitsBound(q)
  }

  /** The digits of the bound do not fit into 64 bits. */
  predicate Long(q: string) {
    q != "" && Decimal(Split(q).0).Some? && !Fits(Decimal(Split(q).0).value)
  }

  lemma {:induction false} WrapMultiple(k: int) returns (j: int)
    ensures Wrap(k * 0x10_0000) == j * 0x10_0000
    decreases if k * 0x10_0000 < MIN then MIN - k * 0x10_0000 else if MAX < k * 0x10_0000 then k * 0x10_0000 - MAX
        else 0
  {
    if k * 0x10_0000 < MIN {
      j := WrapMultiple(k + 0x1000_0000_0000);
    } else if MAX < k * 0x10_0000 {
      j := WrapMultiple(k - 0x1000_0000_0000);
    } else {
      j := k;
    }
  }

  /** A bound that does not fit is above every total; if it is parsed at all, then to less than
      the largest total. */
  lemma LargeBound(q: string)
    requires DashFree(q) && !FitsBound(q)
    ensures Magnitude(q).Some? && MAX < Magnitude(q).value && q != ""
    ensures ParseQuantity(q).Some? ==> ParseQuantity(q).value < MAX
    ensures Long(q) <==> ParseQuantity(q).None?
  {
    DashFreeNatural(q);
    var n := Decimal(Split(q).0).value;
    if Fits(n) {
      BoundFits(q);
      var j := WrapMultiple(if Split(q).1 == 1024 * 1024 then n else n * 1024);
    }
  }

  /** Exactly when a range answers rightly for all totals, for any two bounds. With a lower bound
      that fits, the upper one has to fit. A lower bound with too many digits, or one that is
      no quantity, rejects everything, which is right. One that wraps is right only if the
      range is empty all the same. */
  predicate RightBounds(lo: string, hi: string) {
    || Magnitude(lo).None? || Magnitude(hi).None? || Long(lo)
    || (FitsBound(lo) && FitsBound(hi))
    || (Wraps(lo) && hi != "" && (ParseQuantity(hi).None? || ParseQuantity(hi).value < ParseQuantity(lo).value))
  }

  lemma BoundsSuffice(n: int, unit: string, lo: string, hi: string)
    requires Fits(n) && IsUnit(unit) && DashFree(lo) && DashFree(hi) && RightBounds(lo, hi)
    ensures Judges(n, unit, lo, hi)
  {
    JudgesExactly(n, unit, lo, hi);
    ParseExact(lo);
    ParseExact(hi);
    if !FitsBound(lo) { LargeBound(lo); }
  }

  lemma BoundsNeeded(unit: string, lo: string, hi: string) returns (n: int)
    requires IsUnit(unit) && DashFree(lo) && DashFree(hi) && !RightBounds(lo, hi)
    ensures Fits(n) && !Judges(n, unit, lo, hi)
  {
    ParseExact(lo);
    ParseExact(hi);
    if FitsBound(lo) {
      n := MAX;
      LargeBound(hi);
    } else {
      LargeBound(lo);
      n := ParseQuantity(lo).value;
    }
    JudgesExactly(n, unit, lo, hi);
  }

  lemma BoundsExactly(unit: string, lo: string, hi: string)
    requires IsUnit(unit) && DashFree(lo) && DashFree(hi)
    ensures RightFor(unit, lo, hi) <==> RightBounds(lo, hi)
    ensures Long(lo) || Long(hi) ==> forall n :: Fits(n) ==> !Accepts(Print(n) + unit, lo + "-" + hi)
  {
    forall n | Long(lo) || Long(hi) ensures !Accepts(Print(n) + unit, lo + "-" + hi) {
      AcceptsTwo(Print(n) + unit, lo, hi);
    }
    if RightBounds(lo, hi) {
      forall n | Fits(n) ensures Judges(n, unit, lo, hi) {
        BoundsSuffice(n, unit, lo, hi);
      }
    } else {
      var n := BoundsNeeded(unit, lo, hi);
    }
  }

  /** With a lower bound that is missing or a quantity that fits, a range is right exactly when
      its upper bound fits. */
  lemma UpperExactly(unit: string, lo: string, hi: string)
    requires IsUnit(unit) && DashFree(hi) && Usable(lo) && ParseQuantity(lo).Some?
    ensures RightFor(unit, lo, hi) <==> FitsBound(hi)
  {
    BoundsExactly(unit, lo, hi);
    ParseExact(lo);
  }

  /** A range without upper bound is right exactly when its lower bound fits or has more digits
      than 64 bits hold. */
  lemma LowerExactly(unit: string, lo: string)
    requires IsUnit(unit) && DashFree(lo) && lo != ""
    ensures RightFor(unit, lo, "") <==> FitsBound(lo) || Long(lo)
  {
    BoundsExactly(unit, lo, "");
    if !FitsBound(lo) { LargeBound(lo); }
  }

  /** 2^34 GiB are 2^64 bytes and count as none: as a lower bound they let every total pass, as
      an upper bound only those that are not positive. The validator accepts both. */
  lemma WrappedBound(n: int, unit: string) returns (q: string)
    requires 0 <= n && Fits(n) && IsUnit(unit)
    ensures q == Print(0x4_0000_0000) + "Gi" && Magnitude(q) == Some(RANGE)
    ensures Pattern(q + "-") && Accepts(Print(n) + unit, q + "-") && !Within(n, q, "")
    ensures Pattern("-" + q) && (Accepts(Print(n) + unit, "-" + q) <==> n == 0) && Within(n, "", q)
  {
    q := WrappedText();
    OneBound(q);
    ZeroBound(n, unit, q);
  }

  lemma ZeroBound(n: int, unit: string, q: string)
    requires 0 <= n && Fits(n) && IsUnit(unit) && q != "" && DashFree(q) && ParseQuantity(q) == Some(0)
    ensures Accepts(Print(n) + unit, q + "-")
    ensures Accepts(Print(n) + unit, "-" + q) <==> n == 0
  {
    QuantityRoundTrip(n);
    assert Print(n) + "" == Print(n);
    AcceptsTwo(Print(n) + unit, q, "");
    AcceptsTwo(Print(n) + unit, "", q);
    assert q + "-" + "" == q + "-" && "" + "-" + q == "-" + q;
  }

  /** A quantity alone is a range on either side. */
  lemma OneBound(q: string)
    requires IsQuant(q)
    ensures DashFree(q) && Pattern(q + "-") && Pattern("-" + q)
  {
    QuantDashFree(q);
    assert DashAt(q + "-", |q|) by { assert (q + "-")[..|q|] == q && (q + "-")[|q| + 1..] == ""; }
    assert DashAt("-" + q, 0) by { assert ("-" + q)[..0] == "" && ("-" + q)[1..] == q; }
  }

  lemma WrappedText() returns (q: string)
    ensures q == Print(0x4_0000_0000) + "Gi" && Magnitude(q) == Some(RANGE) && ParseQuantity(q) == Some(0)
    ensures q != "" && IsQuant(q)
  {
    var p := Print(0x4_0000_0000);
    q := p + "Gi";
    DecimalPrint(0x4_0000_0000);
    LastChar(q, "m");
    UnitChar(q, "Mi");
    assert EndsWith(q, "Gi") && Chop(q, 2) == p;
    WrapShift(0);
    assert QuantAt(q, |p|);
  }

  /** The exact form compares text: a total is printed without a binary unit, so an exact
      constraint in MiB or GiB accepts no workload. */
  lemma ExactIsTextual(n: int, unit: string, c: string)
    requires IsUnit(unit) && c != "" && DashFree(c)
    ensures Accepts(Print(n) + unit, c) <==> Print(n) + unit == c
    ensures c[|c| - 1] == 'i' ==> !Accepts(Print(n) + unit, c)
  {
    PartsOne(c);
    var d, a := PrintNat(if n < 0 then -n else n), Print(n) + unit;
    assert Print(n)[|Print(n)| - 1] == d[|d| - 1];
    assert a[|a| - 1] == 'm' || a[|a| - 1] == d[|d| - 1];
  }
}
