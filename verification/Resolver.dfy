/** Placeholder resolution: `${resources.<key>.<name>}` and `${resources.<key>.outputs.<name>}`
    are found by two regular expressions and replaced one after the other in the whole string. */
module Resolver {
  import opened Api

  datatype Result<+T, +E> = Ok(value: T) | Err(error: E)

  type Available = map<string, map<string, string>>

  const OPEN := "${resources."
  const OUTPUTS := "outputs."

  /** A match of the plain pattern: the key up to the first dot, the name up to the first brace. */
  datatype Match = Match(key: string, name: string)

  /** The text of a match. */
  function Text(m: Match): string {
    OPEN + m.key + "." + m.name + "}"
  }

  /** The index of the first `c` at or after `i`, or the length. */
  function Find(s: string, c: char, i: nat): (j: nat)
    requires i <= |s|
    ensures i <= j <= |s| && (j < |s| ==> s[j] == c) && forall k :: i <= k < j ==> s[k] != c
    decreases |s| - i
  {
    if i == |s| || s[i] == c then i else Find(s, c, i + 1)
  }

  /** The match of the plain pattern at the front of `s`, if any. */
  function MatchFront(s: string): (r: Option<Match>)
    ensures r.Some? ==> Text(r.value) <= s && '.' !in r.value.key && '}' !in r.value.name
    ensures r.Some? ==> r.value.key != "" && r.value.name != ""
  {
    if !(OPEN <= s) then None
    else
      var dot := Find(s, '.', |OPEN|);
      if dot == |OPEN| || dot == |s| then None
      else
        var brace := Find(s, '}', dot + 1);
        if brace == dot + 1 || brace == |s| then None
        else
          var m := Match(s[|OPEN|..dot], s[dot + 1..brace]);
          assert s[..brace + 1] == Text(m);
          Some(m)
  }

  /** The more specific pattern matches where the plain one does with a name `outputs.<rest>`. */
  predicate IsOut(m: Match) {
    OUTPUTS <= m.name && |m.name| > |OUTPUTS|
  }

  /** All matches of a pattern from left to right without overlap. */
  function FindAll(s: string, out: bool): seq<Match>
    decreases |s|
  {
    if s == "" then []
    else
      var m := MatchFront(s);
      if m.Some? && (out ==> IsOut(m.value)) then [m.value] + FindAll(s[|Text(m.value)|..], out)
      else FindAll(s[1..], out)
  }

  /** Every occurrence of a nonempty `t` replaced, from left to right without overlap. */
  function ReplaceAll(s: string, t: string, v: string): string
    requires t != ""
    decreases |s|
  {
    if s == "" then ""
    else if t <= s then v + ReplaceAll(s[|t|..], t, v)
    else [s[0]] + ReplaceAll(s[1..], t, v)
  }

  // ---------------------------------------------------------------- resolution

  /** The output a match asks for. */
  function Wanted(m: Match): string {
    if IsOut(m) then m.name[|OUTPUTS|..] else m.name
  }

  predicate Defined(m: Match, outs: Available) {
    m.key in outs && Wanted(m) in outs[m.key]
  }

  function ValueOf(m: Match, outs: Available): string
    requires Defined(m, outs)
  {
    outs[m.key][Wanted(m)]
  }

  /** The matches that count: those of the specific pattern if there are any, else all. */
  function Relevant(value: string): seq<Match> {
    var specific := FindAll(value, true);
    if specific != [] then specific else FindAll(value, false)
  }

  /** All replacements, one match after the other. */
  function ReplaceEach(s: string, ms: seq<Match>, outs: Available): string
    requires forall m :: m in ms ==> Defined(m, outs)
    decreases |ms|
  {
    if ms == [] then s
    else ReplaceAll(ReplaceEach(s, ms[..|ms| - 1], outs), Text(ms[|ms| - 1]), ValueOf(ms[|ms| - 1], outs))
  }

  method Substitute(s: string, ms: seq<Match>, outs: Available) returns (r: Result<string, Match>)
    ensures r.Ok? <==> forall m :: m in ms ==> Defined(m, outs)
    ensures r.Ok? ==> r.value == ReplaceEach(s, ms, outs)
    ensures r.Err? ==> exists i :: 0 <= i < |ms| && r.error == ms[i] && !Defined(ms[i], outs)
                                   && forall j :: 0 <= j < i ==> Defined(ms[j], outs)
  {
    var result := s;
    for i := 0 to |ms|
      invariant forall j :: 0 <= j < i ==> Defined(ms[j], outs)
      invariant result == ReplaceEach(s, ms[..i], outs)
    {
      assert ms[..i + 1][..i] == ms[..i];
      if ms[i].key !in outs || Wanted(ms[i]) !in outs[ms[i].key] {
        assert ms[i] in ms && !Defined(ms[i], outs);
        return Err(ms[i]);
      }
      result := ReplaceAll(result, Text(ms[i]), outs[ms[i].key][Wanted(ms[i])]);
    }
    assert ms[..|ms|] == ms;
    r := Ok(result);
  }

  /** For every string: succeeds exactly when every relevant match is defined, and otherwise
      reports the first one that is not. */
  method ResolveValue(value: string, outs: Available) returns (r: Result<string, Match>)
    ensures r.Ok? <==> forall m :: m in Relevant(value) ==> Defined(m, outs)
    ensures r.Ok? ==> r.value == ReplaceEach(value, Relevant(value), outs)
    ensures r.Err? ==> r.error in Relevant(value) && !Defined(r.error, outs)
  {
    var specific := FindAll(value, true);
    r := Substitute(value, specific, outs);
    if r.Ok? && |specific| == 0 {
      var matches := FindAll(value, false);
      r := Substitute(value, matches, outs);
    }
  }

  // ---------------------------------------------------------------- templates

  /** A template is a sequence of characters other than `$` and of well-formed references. */
  datatype Token = Chr(c: char) | Ref(m: Match)

  predicate Clean(t: Token) {
    match t
    case Chr(c) => c != '$'
    case Ref(m) => m.key != "" && m.name != "" && '.' !in m.key && '}' !in m.name && '$' !in m.key && '$' !in m.name
  }

  predicate CleanAll(ts: seq<Token>) {
    forall t :: t in ts ==> Clean(t)
  }

  function TokenText(t: Token): string {
    match t case Chr(c) => [c] case Ref(m) => Text(m)
  }

  function Unparse(ts: seq<Token>): string {
    if ts == [] then "" else TokenText(ts[0]) + Unparse(ts[1..])
  }

  /** Every string as a sequence of tokens. */
  function Parse(s: string): seq<Token>
    decreases |s|
  {
    if s == "" then []
    else
      match MatchFront(s)
      case Some(m) => [Ref(m)] + Parse(s[|Text(m)|..])
      case None => [Chr(s[0])] + Parse(s[1..])
  }

  /** The references of a template, in order. */
  function Refs(ts: seq<Token>, out: bool): seq<Match> {
    if ts == [] then [] else RefOf(ts[0], out) + Refs(ts[1..], out)
  }

  function RefOf(t: Token, out: bool): seq<Match> {
    if t.Ref? && (out ==> IsOut(t.m)) then [t.m] else []
  }

  /** One pass over the template: every reference in `done` becomes its value, the rest stays. */
  function Render(ts: seq<Token>, done: set<Match>, outs: Available): string
    requires forall m :: m in done ==> Defined(m, outs)
  {
    if ts == [] then ""
    else
      RenderToken(ts[0], done, outs) + Render(ts[1..], done, outs)
  }

  function RenderToken(t: Token, done: set<Match>, outs: Available): string
    requires forall m :: m in done ==> Defined(m, outs)
  {
    if t.Ref? && t.m in done then ValueOf(t.m, outs) else TokenText(t)
  }

  predicate DollarFree(s: string) {
    '$' !in s
  }

  /** The outputs that the template refers to are `$`-free. */
  predicate CleanFor(ts: seq<Token>, outs: Available) {
    forall t :: t in ts && t.Ref? && Defined(t.m, outs) ==> DollarFree(ValueOf(t.m, outs))
  }

  /** No occurrence of the text begins in the string, whatever follows. */
  predicate Untouched(w: string, t: string) {
    forall i :: 0 <= i < |w| ==> !(t <= w[i..]) && !(w[i..] <= t)
  }

  /** Resolving `b` leaves the value of `a` alone, wherever it stands. */
  predicate Inert(a: Match, b: Match, outs: Available)
    requires Defined(a, outs) && Defined(b, outs)
  {
    ValueOf(b, outs) == Text(b) || Untouched(ValueOf(a, outs), Text(b))
  }

  /** The outputs that the template refers to leave each other alone. */
  predicate InertFor(ts: seq<Token>, outs: Available) {
    forall t, u :: t in ts && t.Ref? && Defined(t.m, outs) && u in ts && u.Ref? && Defined(u.m, outs) ==>
      Inert(t.m, u.m, outs)
  }

  lemma DollarFreeIsUntouched(w: string, t: string)
    requires DollarFree(w) && t != "" && t[0] == '$'
    ensures Untouched(w, t)
  {
    forall i | 0 <= i < |w|
      ensures !(t <= w[i..]) && !(w[i..] <= t)
    {
      assert w[i] in w && w[i..][0] == w[i];
    }
  }

  lemma CleanIsInert(ts: seq<Token>, outs: Available)
    requires CleanAll(ts) && CleanFor(ts, outs)
    ensures InertFor(ts, outs)
  {
    forall t, u | t in ts && t.Ref? && Defined(t.m, outs) && u in ts && u.Ref? && Defined(u.m, outs)
      ensures Inert(t.m, u.m, outs)
    {
      assert Text(u.m)[0] == '$';
      DollarFreeIsUntouched(ValueOf(t.m, outs), Text(u.m));
    }
  }

  // ---------------------------------------------------------------- parsing

  lemma FindUnique(s: string, c: char, i: nat, j: nat)
    requires i <= j < |s| && s[j] == c && forall k :: i <= k < j ==> s[k] != c
    ensures Find(s, c, i) == j
  {
  }

  /** A reference at the front is found whole, whatever follows. */
  lemma MatchRef(m: Match, rest: string)
    requires Clean(Ref(m))
    ensures MatchFront(Text(m) + rest) == Some(m)
  {
    var s := Text(m) + rest;
    assert s[..|OPEN|] == OPEN;
    var dot := |OPEN| + |m.key|;
    assert s[|OPEN|..dot] == m.key;
    assert s[dot] == '.';
    assert forall k :: |OPEN| <= k < dot ==> s[k] == m.key[k - |OPEN|];
    FindUnique(s, '.', |OPEN|, dot);
    var brace := dot + 1 + |m.name|;
    assert s[dot + 1..brace] == m.name;
    assert s[brace] == '}';
    assert forall k :: dot + 1 <= k < brace ==> s[k] == m.name[k - dot - 1];
    FindUnique(s, '}', dot + 1, brace);
  }

  lemma {:induction false} FindAllSkips(w: string, rest: string, out: bool)
    requires DollarFree(w)
    ensures FindAll(w + rest, out) == FindAll(rest, out)
    decreases |w|
  {
    if w == "" {
      assert w + rest == rest;
    } else {
      assert w[0] in w && (w + rest)[0] != OPEN[0];
      assert (w + rest)[1..] == w[1..] + rest;
      FindAllSkips(w[1..], rest, out);
    }
  }

  lemma TextTail(m: Match)
    requires Clean(Ref(m))
    ensures DollarFree(Text(m)[1..]) && Text(m)[0] == '$'
  {
    assert Text(m)[1..] == OPEN[1..] + m.key + "." + m.name + "}";
  }

  lemma FrontChar(c: char, rest: string)
    requires c != '$'
    ensures MatchFront([c] + rest).None?
  {
    assert ([c] + rest)[0] != OPEN[0];
  }

  /** The output pattern does not match a reference of another kind, nor anything inside it. */
  lemma FindAllOther(m: Match, rest: string)
    requires Clean(Ref(m)) && !IsOut(m)
    ensures FindAll(Text(m) + rest, true) == FindAll(rest, true)
  {
    var s := Text(m) + rest;
    MatchRef(m, rest);
    TextTail(m);
    assert s[1..] == Text(m)[1..] + rest;
    FindAllSkips(Text(m)[1..], rest, true);
  }

  lemma FindAllToken(t: Token, rest: string, out: bool)
    requires Clean(t)
    ensures FindAll(TokenText(t) + rest, out) == RefOf(t, out) + FindAll(rest, out)
  {
    var s := TokenText(t) + rest;
    match t
    case Chr(c) =>
      FrontChar(c, rest);
      assert s[1..] == rest;
    case Ref(m) =>
      MatchRef(m, rest);
      if out && !IsOut(m) {
        FindAllOther(m, rest);
      } else {
        assert s[|Text(m)|..] == rest;
      }
  }

  /** Both patterns find exactly the references of a clean template. */
  lemma {:induction false} FindAllRefs(ts: seq<Token>, out: bool)
    requires CleanAll(ts)
    ensures FindAll(Unparse(ts), out) == Refs(ts, out)
  {
    if ts != [] {
      FindAllRefs(ts[1..], out);
      FindAllToken(ts[0], Unparse(ts[1..]), out);
    }
  }

  lemma ParseToken(t: Token, rest: string)
    requires Clean(t)
    ensures Parse(TokenText(t) + rest) == [t] + Parse(rest)
  {
    var s := TokenText(t) + rest;
    match t
    case Chr(c) =>
      FrontChar(c, rest);
      assert s[1..] == rest;
    case Ref(m) =>
      MatchRef(m, rest);
      assert s[|Text(m)|..] == rest;
  }

  /** A clean template is recovered from its text. */
  lemma {:induction false} ParseUnparse(ts: seq<Token>)
    requires CleanAll(ts)
    ensures Parse(Unparse(ts)) == ts
  {
    if ts != [] {
      ParseUnparse(ts[1..]);
      ParseToken(ts[0], Unparse(ts[1..]));
    }
  }

  /** Every string is the text of its tokens. */
  lemma {:induction false} UnparseParse(s: string)
    ensures Unparse(Parse(s)) == s
    decreases |s|
  {
    if s != "" {
      match MatchFront(s)
      case Some(m) => UnparseParse(s[|Text(m)|..]);
      case None => UnparseParse(s[1..]);
    }
  }

  // ---------------------------------------------------------------- replacing

  lemma {:induction false} ReplaceUntouched(w: string, rest: string, t: string, v: string)
    requires t != "" && Untouched(w, t)
    ensures ReplaceAll(w + rest, t, v) == w + ReplaceAll(rest, t, v)
    decreases |w|
  {
    if w == "" {
      assert w + rest == rest;
    } else {
      assert w[0..] == w;
      assert t <= w + rest ==> t <= w || w <= t;
      assert (w + rest)[1..] == w[1..] + rest;
      assert forall i :: 0 <= i < |w[1..]| ==> w[1..][i..] == w[i + 1..];
      ReplaceUntouched(w[1..], rest, t, v);
    }
  }

  lemma ReplaceSkips(w: string, rest: string, t: string, v: string)
    requires DollarFree(w) && t != "" && t[0] == '$'
    ensures ReplaceAll(w + rest, t, v) == w + ReplaceAll(rest, t, v)
  {
    DollarFreeIsUntouched(w, t);
    ReplaceUntouched(w, rest, t, v);
  }

  lemma {:induction false} ReplaceSame(s: string, t: string)
    requires t != ""
    ensures ReplaceAll(s, t, t) == s
    decreases |s|
  {
    if s != "" {
      if t <= s {
        assert s == t + s[|t|..];
        ReplaceSame(s[|t|..], t);
      } else {
        assert s == [s[0]] + s[1..];
        ReplaceSame(s[1..], t);
      }
    }
  }

  lemma TextDetermines(m: Match, tail: string, other: Match, rest: string)
    requires Clean(Ref(m)) && Clean(Ref(other)) && Text(m) + tail == Text(other) + rest
    ensures m == other
  {
    MatchRef(m, tail);
    MatchRef(other, rest);
  }

  /** The text of one reference is not the beginning of another one. */
  lemma TextUnique(m: Match, other: Match, rest: string)
    requires Clean(Ref(m)) && Clean(Ref(other))
    ensures Text(m) <= Text(other) + rest <==> m == other
  {
    if Text(m) <= Text(other) + rest {
      var tail := (Text(other) + rest)[|Text(m)|..];
      assert Text(m) + tail == Text(other) + rest;
      TextDetermines(m, tail, other, rest);
    }
  }

  lemma ReplaceOther(t: string, m: Match, v: string, rest: string)
    requires Clean(Ref(m)) && t != "" && t[0] == '$' && !(t <= Text(m) + rest)
    ensures ReplaceAll(Text(m) + rest, t, v) == Text(m) + ReplaceAll(rest, t, v)
  {
    TextTail(m);
    assert (Text(m) + rest)[1..] == Text(m)[1..] + rest;
    ReplaceSkips(Text(m)[1..], rest, t, v);
    assert Text(m) == [Text(m)[0]] + Text(m)[1..];
  }

  lemma ReplaceHere(t: string, v: string, rest: string)
    requires t != ""
    ensures ReplaceAll(t + rest, t, v) == v + ReplaceAll(rest, t, v)
  {
    assert (t + rest)[|t|..] == rest;
  }

  /** Replacing a reference in a partly rendered token. */
  lemma ReplaceToken(t: Token, done: set<Match>, m: Match, rest: string, outs: Available)
    requires Clean(t) && Clean(Ref(m)) && Defined(m, outs) && ValueOf(m, outs) != Text(m)
    requires forall d :: d in done ==> Defined(d, outs) && Inert(d, m, outs)
    ensures ReplaceAll(RenderToken(t, done, outs) + rest, Text(m), ValueOf(m, outs)) ==
            RenderToken(t, done + {m}, outs) + ReplaceAll(rest, Text(m), ValueOf(m, outs))
  {
    var v := ValueOf(m, outs);
    TextTail(m);
    if t.Chr? {
      ReplaceSkips(RenderToken(t, done, outs), rest, Text(m), v);
    } else if t.m in done {
      ReplaceUntouched(ValueOf(t.m, outs), rest, Text(m), v);
    } else if t.m == m {
      ReplaceHere(Text(m), v, rest);
    } else {
      TextUnique(m, t.m, rest);
      ReplaceOther(Text(m), t.m, v, rest);
    }
  }

  lemma {:induction false} ReplaceRender(ts: seq<Token>, done: set<Match>, m: Match, outs: Available)
    requires CleanAll(ts) && Clean(Ref(m)) && Defined(m, outs)
    requires forall d :: d in done ==> Defined(d, outs) && Inert(d, m, outs)
    ensures ReplaceAll(Render(ts, done, outs), Text(m), ValueOf(m, outs)) == Render(ts, done + {m}, outs)
  {
    if ts != [] {
      ReplaceRender(ts[1..], done, m, outs);
      if ValueOf(m, outs) != Text(m) {
        ReplaceToken(ts[0], done, m, Render(ts[1..], done, outs), outs);
      } else {
        ReplaceSame(Render(ts, done, outs), Text(m));
        ReplaceSame(Render(ts[1..], done, outs), Text(m));
      }
    }
  }

  function Elements(ms: seq<Match>): set<Match> {
    set m | m in ms
  }

  lemma {:induction false} RenderNone(ts: seq<Token>, outs: Available)
    ensures Render(ts, {}, outs) == Unparse(ts)
  {
    if ts != [] { RenderNone(ts[1..], outs); }
  }

  /** The values of the references leave each other alone. */
  predicate InertAll(ms: seq<Match>, outs: Available) {
    && (forall m :: m in ms ==> Defined(m, outs) && Clean(Ref(m)))
    && (forall m, d :: m in ms && d in ms ==> Inert(d, m, outs))
  }

  lemma InertInit(ms: seq<Match>, outs: Available)
    requires ms != [] && InertAll(ms, outs)
    ensures var init, last := ms[..|ms| - 1], ms[|ms| - 1];
            && InertAll(init, outs) && Elements(ms) == Elements(init) + {last} && Clean(Ref(last))
               && Defined(last, outs)
            && forall d :: d in Elements(init) ==> Defined(d, outs) && Inert(d, last, outs)
  {
    assert ms == ms[..|ms| - 1] + [ms[|ms| - 1]];
  }

  /** Any sequence of replacements equals one pass over the template. */
  lemma {:induction false} ReplaceEachRender(ts: seq<Token>, ms: seq<Match>, outs: Available)
    requires CleanAll(ts) && InertAll(ms, outs)
    ensures ReplaceEach(Unparse(ts), ms, outs) == Render(ts, Elements(ms), outs)
    decreases |ms|
  {
    if ms == [] {
      RenderNone(ts, outs);
      assert Elements(ms) == {};
    } else {
      InertInit(ms, outs);
      ReplaceEachRender(ts, ms[..|ms| - 1], outs);
      ReplaceRender(ts, Elements(ms[..|ms| - 1]), ms[|ms| - 1], outs);
    }
  }

  // ---------------------------------------------------------------- one format

  ghost predicate Mixed(ts: seq<Token>) {
    && (exists t :: t in ts && t.Ref? && IsOut(t.m))
    && (exists t :: t in ts && t.Ref? && !IsOut(t.m))
  }

  predicate AllDefined(ts: seq<Token>, outs: Available) {
    forall t :: t in ts && t.Ref? ==> Defined(t.m, outs)
  }

  /** The template with every reference replaced at once. */
  function Simultaneous(ts: seq<Token>, outs: Available): string
    requires AllDefined(ts, outs)
  {
    if ts == [] then ""
    else (match ts[0] case Chr(c) => [c] case Ref(m) => ValueOf(m, outs)) + Simultaneous(ts[1..], outs)
  }

  lemma {:induction false} RefsAre(ts: seq<Token>, out: bool, m: Match)
    ensures m in Refs(ts, out) <==> Ref(m) in ts && (out ==> IsOut(m))
  {
    if ts != [] {
      RefsAre(ts[1..], out, m);
      assert ts == [ts[0]] + ts[1..];
    }
  }

  lemma {:induction false} RefsAgree(ts: seq<Token>)
    requires !exists t :: t in ts && t.Ref? && !IsOut(t.m)
    ensures Refs(ts, true) == Refs(ts, false)
  {
    if ts != [] {
      assert forall t :: t in ts[1..] ==> t in ts;
      RefsAgree(ts[1..]);
    }
  }

  lemma RelevantRefs(ts: seq<Token>)
    requires CleanAll(ts)
    ensures Relevant(Unparse(ts)) == if Mixed(ts) then Refs(ts, true) else Refs(ts, false)
  {
    FindAllRefs(ts, true);
    FindAllRefs(ts, false);
    forall m
      ensures m in Refs(ts, true) <==> Ref(m) in ts && IsOut(m)
    {
      RefsAre(ts, true, m);
    }
    if !exists t :: t in ts && t.Ref? && !IsOut(t.m) {
      RefsAgree(ts);
    } else if Refs(ts, true) == [] {
      assert forall t :: t in ts && t.Ref? ==> t == Ref(t.m);
    } else {
      assert Ref(Refs(ts, true)[0]) in ts && IsOut(Refs(ts, true)[0]);
    }
  }

  lemma {:induction false} RenderAll(ts: seq<Token>, done: set<Match>, outs: Available)
    requires (forall m :: m in done ==> Defined(m, outs)) && (forall t :: t in ts && t.Ref? ==> t.m in done)
    ensures AllDefined(ts, outs) && Render(ts, done, outs) == Simultaneous(ts, outs)
  {
    if ts != [] { RenderAll(ts[1..], done, outs); }
  }

  lemma RelevantAre(ts: seq<Token>, outs: Available)
    requires CleanAll(ts) && !Mixed(ts)
    ensures forall m :: m in Relevant(Unparse(ts)) <==> Ref(m) in ts
  {
    RelevantRefs(ts);
    forall m
      ensures m in Refs(ts, false) <==> Ref(m) in ts
    {
      RefsAre(ts, false, m);
    }
  }

  /** On a clean template in one format that refers to outputs that leave each other alone, the scan
      and the sequential replacements succeed exactly when every reference is defined, and then
      equal replacing all references at once. */
  lemma ResolutionIsOnePass(ts: seq<Token>, outs: Available)
    requires CleanAll(ts) && !Mixed(ts) && InertFor(ts, outs)
    ensures (forall m :: m in Relevant(Unparse(ts)) ==> Defined(m, outs)) <==> AllDefined(ts, outs)
    ensures AllDefined(ts, outs) ==> ReplaceEach(Unparse(ts), Relevant(Unparse(ts)), outs) == Simultaneous(ts, outs)
  {
    var ms := Relevant(Unparse(ts));
    RelevantAre(ts, outs);
    assert AllDefined(ts, outs) ==> forall m :: m in ms ==> Ref(m) in ts;
    if AllDefined(ts, outs) {
      assert forall m :: m in ms ==> Ref(m) in ts && Defined(m, outs) && Clean(Ref(m));
      forall m, d | m in ms && d in ms ensures Inert(d, m, outs) {
        assert Ref(m) in ts && Ref(d) in ts;
      }
      ReplaceEachRender(ts, ms, outs);
      RenderAll(ts, Elements(ms), outs);
    } else {
      var t :| t in ts && t.Ref? && !Defined(t.m, outs);
      assert t == Ref(t.m);
      assert t.m in ms;
    }
  }

  // ---------------------------------------------------------------- exactly which outputs

  /** Replacing something else for a text that occurs changes the length one way, or, with equal
      lengths, the first occurrence. */
  lemma {:induction false} ReplaceLength(s: string, t: string, v: string)
    requires t != ""
    ensures |t| <= |v| ==> |s| <= |ReplaceAll(s, t, v)|
    ensures |v| <= |t| ==> |ReplaceAll(s, t, v)| <= |s|
    decreases |s|
  {
    if s != "" {
      if t <= s { ReplaceLength(s[|t|..], t, v); } else { ReplaceLength(s[1..], t, v); }
    }
  }

  lemma DifferentFront(t: string, v: string, x: string, y: string)
    requires |t| == |v| && t != v
    ensures t + x != v + y
  {
    assert (t + x)[..|t|] == t && (v + y)[..|t|] == v;
  }

  lemma {:induction false} ReplaceChanges(p: string, t: string, q: string, v: string)
    requires t != "" && v != t
    ensures ReplaceAll(p + t + q, t, v) != p + t + q
    ensures |t| < |v| ==> |p + t + q| < |ReplaceAll(p + t + q, t, v)|
    ensures |v| < |t| ==> |ReplaceAll(p + t + q, t, v)| < |p + t + q|
    decreases |p|
  {
    var s := p + t + q;
    if t <= s {
      var rest := s[|t|..];
      assert s == t + rest;
      ReplaceLength(rest, t, v);
      if |v| == |t| { DifferentFront(t, v, rest, ReplaceAll(rest, t, v)); }
    } else {
      assert p != "" by { assert p == "" ==> s == t + q; }
      assert s[1..] == p[1..] + t + q;
      ReplaceChanges(p[1..], t, q, v);
      assert ReplaceAll(s, t, v)[1..] == ReplaceAll(s[1..], t, v);
    }
  }

  /** A reference at the end is replaced apart from what stands before it. */
  lemma {:induction false} ReplaceLast(x: string, m: Match, v: string)
    requires Clean(Ref(m))
    ensures ReplaceAll(x + Text(m), Text(m), v) == ReplaceAll(x, Text(m), v) + v
    decreases |x|
  {
    var t := Text(m);
    var s := x + t;
    if x == "" {
      assert s == t + "";
      ReplaceHere(t, v, "");
    } else if t <= s {
      assert x + Text(m) + "" == s;
      NoOverlap(m, x, m, "");
      assert t <= x && s[|t|..] == x[|t|..] + t;
      ReplaceLast(x[|t|..], m, v);
    } else {
      assert t <= x ==> t <= s;
      assert s[1..] == x[1..] + t;
      ReplaceLast(x[1..], m, v);
    }
  }

  function Chars(s: string): (ts: seq<Token>)
    ensures |ts| == |s| && forall i :: 0 <= i < |s| ==> ts[i] == Chr(s[i])
  {
    seq(|s|, i requires 0 <= i < |s| => Chr(s[i]))
  }

  /** Two references with plain text between them. */
  function Pair(a: Match, w: string, b: Match): seq<Token> {
    [Ref(a)] + (Chars(w) + [Ref(b)])
  }

  lemma CharsTail(w: string, b: Match)
    requires w != ""
    ensures var ts := Chars(w) + [Ref(b)]; ts != [] && ts[0] == Chr(w[0]) && ts[1..] == Chars(w[1..]) + [Ref(b)]
  {
  }

  lemma {:induction false} UnparseChars(w: string, b: Match)
    ensures Unparse(Chars(w) + [Ref(b)]) == w + Text(b)
    decreases |w|
  {
    if w == "" {
      assert Chars(w) + [Ref(b)] == [Ref(b)];
      assert Text(b) + "" == Text(b);
    } else {
      CharsTail(w, b);
      UnparseChars(w[1..], b);
      assert w + Text(b) == [w[0]] + (w[1..] + Text(b));
    }
  }

  lemma {:induction false} RefsChars(w: string, b: Match)
    ensures Refs(Chars(w) + [Ref(b)], false) == [b]
    decreases |w|
  {
    if w == "" {
      assert Chars(w) + [Ref(b)] == [Ref(b)];
    } else {
      CharsTail(w, b);
      RefsChars(w[1..], b);
    }
  }

  lemma {:induction false} SimultaneousChars(w: string, b: Match, outs: Available)
    requires Defined(b, outs)
    ensures AllDefined(Chars(w) + [Ref(b)], outs)
    ensures Simultaneous(Chars(w) + [Ref(b)], outs) == w + ValueOf(b, outs)
    decreases |w|
  {
    if w == "" {
      assert Chars(w) + [Ref(b)] == [Ref(b)];
      assert ValueOf(b, outs) + "" == ValueOf(b, outs);
    } else {
      CharsTail(w, b);
      SimultaneousChars(w[1..], b, outs);
      assert w + ValueOf(b, outs) == [w[0]] + (w[1..] + ValueOf(b, outs));
    }
  }

  lemma Associates(a: string, b: string, c: string)
    ensures a + (b + c) == a + b + c
  {
  }

  lemma PairIs(a: Match, w: string, b: Match, outs: Available)
    requires Clean(Ref(a)) && Clean(Ref(b)) && IsOut(a) == IsOut(b) && DollarFree(w)
    requires Defined(a, outs) && Defined(b, outs)
    ensures var ts := Pair(a, w, b);
            && CleanAll(ts) && !Mixed(ts) && AllDefined(ts, outs)
            && Unparse(ts) == Text(a) + (w + Text(b)) && Relevant(Unparse(ts)) == [a, b]
            && Simultaneous(ts, outs) == ValueOf(a, outs) + w + ValueOf(b, outs)
  {
    var ts := Pair(a, w, b);
    UnparseChars(w, b);
    RefsChars(w, b);
    SimultaneousChars(w, b, outs);
    Associates(ValueOf(a, outs), w, ValueOf(b, outs));
    assert ts[0] == Ref(a) && ts[1..] == Chars(w) + [Ref(b)];
    assert forall t :: t in ts ==> t == Ref(a) || t == Ref(b) || (t.Chr? && t.c in w);
    RelevantRefs(ts);
  }

  /** What the two replacements make of such a template. */
  function PairResolved(a: Match, w: string, b: Match, outs: Available): string
    requires Defined(a, outs) && Defined(b, outs)
  {
    var s := ReplaceAll(Text(a) + (w + Text(b)), Text(a), ValueOf(a, outs));
    ReplaceAll(s, Text(b), ValueOf(b, outs))
  }

  lemma PairEach(a: Match, w: string, b: Match, outs: Available)
    requires Defined(a, outs) && Defined(b, outs)
    ensures ReplaceEach(Text(a) + (w + Text(b)), [a, b], outs) == PairResolved(a, w, b, outs)
  {
    assert [a, b][..1] == [a] && [a][..0] == [];
    assert ReplaceEach(Text(a) + (w + Text(b)), [], outs) == Text(a) + (w + Text(b));
  }

  lemma PairSplit(a: Match, w: string, b: Match, outs: Available)
    requires Clean(Ref(a)) && Clean(Ref(b)) && DollarFree(w) && Defined(a, outs) && Defined(b, outs)
    ensures var s := ReplaceAll(Text(a) + (w + Text(b)), Text(a), ValueOf(a, outs));
            s == ValueOf(a, outs) + w + if a == b then ValueOf(b, outs) else Text(b)
  {
    var t, v := Text(a), ValueOf(a, outs);
    TextTail(a);
    ReplaceHere(t, v, w + Text(b));
    ReplaceSkips(w, Text(b), t, v);
    assert Text(b) + "" == Text(b);
    if a == b {
      ReplaceHere(t, v, "");
      Associates(v, w, v);
    } else {
      TextUnique(a, b, "");
      ReplaceOther(t, b, v, "");
      Associates(v, w, Text(b));
    }
  }

  /** Replacing in a string with an occurrence before its end is not appending. */
  lemma ReplaceBefore(x: string, end: string, p: string, m: Match, q: string, v: string)
    requires Clean(Ref(m)) && x == p + Text(m) + q && v != Text(m) && (end == v || end == Text(m))
    ensures ReplaceAll(x + end, Text(m), v) != x + v
  {
    var t := Text(m);
    if end == v {
      assert x + v == p + t + (q + v);
      ReplaceChanges(p, t, q + v, v);
    } else {
      ReplaceLast(x, m, v);
      ReplaceChanges(p, t, q, v);
      if ReplaceAll(x, t, v) + v == x + v { Cancel(ReplaceAll(x, t, v), x, v); }
    }
  }

  /** A reference that one value begins, and the text behind it completes, is resolved again. */
  lemma PairRescanned(a: Match, w: string, b: Match, p: string, q: string, outs: Available)
    requires Clean(Ref(a)) && Clean(Ref(b)) && DollarFree(w) && Defined(a, outs) && Defined(b, outs)
    requires ValueOf(a, outs) + w == p + Text(b) + q && ValueOf(b, outs) != Text(b)
    ensures PairResolved(a, w, b, outs) != ValueOf(a, outs) + w + ValueOf(b, outs)
  {
    var v := ValueOf(b, outs);
    PairSplit(a, w, b, outs);
    ReplaceBefore(ValueOf(a, outs) + w, if a == b then v else Text(b), p, b, q, v);
  }

  lemma Cancel(a: string, b: string, c: string)
    requires a + c == b + c
    ensures a == b
  {
    assert |a + c| == |b + c|;
    assert a == (a + c)[..|a|] && b == (b + c)[..|b|];
  }

  /** The code renders the template in one pass. */
  ghost predicate OnePass(ts: seq<Token>, outs: Available) {
    && AllDefined(ts, outs) && (forall m :: m in Relevant(Unparse(ts)) ==> Defined(m, outs))
    && ReplaceEach(Unparse(ts), Relevant(Unparse(ts)), outs) == Simultaneous(ts, outs)
  }

  /** The text that completes a reference which the value begins at `i`, or ends the value. */
  lemma Completed(va: string, i: nat, b: Match) returns (w: string, q: string)
    requires Clean(Ref(b)) && i < |va| && (Text(b) <= va[i..] || va[i..] <= Text(b))
    ensures DollarFree(w) && va + w == va[..i] + Text(b) + q
  {
    var t := Text(b);
    if t <= va[i..] {
      w, q := "", va[i..][|t|..];
      assert va[i..] == t + q;
    } else {
      w, q := t[|va| - i..], "";
      TextTail(b);
      assert w == t[1..][|va| - i - 1..];
      assert va[i..] + w == t;
    }
    assert va == va[..i] + va[i..];
  }

  /** Outputs that do not leave each other alone are not rendered in one pass by some template. */
  lemma OutputsAreRescanned(a: Match, b: Match, i: nat, outs: Available) returns (ts: seq<Token>)
    requires Clean(Ref(a)) && Clean(Ref(b)) && IsOut(a) == IsOut(b) && Defined(a, outs) && Defined(b, outs)
    requires ValueOf(b, outs) != Text(b) && i < |ValueOf(a, outs)|
    requires Text(b) <= ValueOf(a, outs)[i..] || ValueOf(a, outs)[i..] <= Text(b)
    ensures CleanAll(ts) && !Mixed(ts) && AllDefined(ts, outs) && !OnePass(ts, outs)
  {
    var w, q := Completed(ValueOf(a, outs), i, b);
    ts := Pair(a, w, b);
    PairIs(a, w, b, outs);
    PairEach(a, w, b, outs);
    PairRescanned(a, w, b, ValueOf(a, outs)[..i], q, outs);
  }

  /** All outputs that references of one format can ask for leave each other alone. */
  ghost predicate InertOutputs(outs: Available) {
    forall a, b :: Clean(Ref(a)) && Clean(Ref(b)) && IsOut(a) == IsOut(b) && Defined(a, outs) && Defined(b, outs) ==>
      Inert(a, b, outs)
  }

  /** Exactly the outputs with which every clean template in one format is rendered in one pass. */
  lemma OnePassExactly(outs: Available)
    ensures (forall ts :: CleanAll(ts) && !Mixed(ts) && AllDefined(ts, outs) ==> OnePass(ts, outs)) <==>
        InertOutputs(outs)
  {
    if InertOutputs(outs) {
      forall ts | CleanAll(ts) && !Mixed(ts) && AllDefined(ts, outs) ensures OnePass(ts, outs) {
        OneFormatInert(ts, outs);
        ResolutionIsOnePass(ts, outs);
      }
    } else {
      var a, b :| Clean(Ref(a)) && Clean(Ref(b)) && IsOut(a) == IsOut(b) && Defined(a, outs) && Defined(b, outs)
        && !Inert(a, b, outs);
      var i :| 0 <= i < |ValueOf(a, outs)| && (Text(b) <= ValueOf(a, outs)[i..] || ValueOf(a, outs)[i..] <= Text(b));
      var ts := OutputsAreRescanned(a, b, i, outs);
    }
  }

  lemma OneFormatInert(ts: seq<Token>, outs: Available)
    requires CleanAll(ts) && !Mixed(ts) && InertOutputs(outs)
    ensures InertFor(ts, outs)
  {
    forall t, u | t in ts && t.Ref? && Defined(t.m, outs) && u in ts && u.Ref? && Defined(u.m, outs)
      ensures Inert(t.m, u.m, outs)
    {
      assert IsOut(t.m) == IsOut(u.m);
      assert Clean(t) && Clean(u) && t == Ref(t.m) && u == Ref(u.m);
    }
  }

  /** Concrete outputs with which the code does not render in one pass: one is a single dollar
      sign, which the text behind it completes to a reference. */
  lemma RescannedExample() returns (ts: seq<Token>, outs: Available)
    ensures outs == map["db" := map["uri" := "$"], "mq" := map["url" := ""]]
    ensures CleanAll(ts) && !Mixed(ts) && AllDefined(ts, outs) && !OnePass(ts, outs)
  {
    var a, b := Match("db", "uri"), Match("mq", "url");
    outs := map["db" := map["uri" := "$"], "mq" := map["url" := ""]];
    assert a.key[0] == 'd' && b.key[0] == 'm';
    assert !IsOut(a) && !IsOut(b) && Defined(a, outs) && Defined(b, outs);
    assert |Text(b)| > 0 && Text(b)[0] == '$' && ValueOf(a, outs)[0..] <= Text(b);
    ts := OutputsAreRescanned(a, b, 0, outs);
  }

  // ---------------------------------------------------------------- the gate

  /** Some `${...}` with at least one character inside remains. */
  predicate Unresolved(s: string) {
    exists i, j :: 0 <= i && i + 2 < j < |s| && s[i] == '$' && s[i + 1] == '{' && s[i + 2] != '}' && s[j] == '}'
  }

  /** What the test looks for, as the pattern says it: something other than a closing brace, at least
      once, between `${` and `}`. */
  lemma UnresolvedExactly(s: string)
    ensures Unresolved(s) <==>
            exists a: string, x: string, c: string :: x != "" && '}' !in x && s == a + "${" + x + "}" + c
  {
    if Unresolved(s) {
      var a, x, c := PlaceholderSplit(s);
    } else if a: string, x: string, c: string :| x != "" && '}' !in x && s == a + "${" + x + "}" + c {
      PlaceholderFound(a, x, c);
    }
  }

  lemma BraceFree(s: string, i: nat, k: nat)
    requires i <= k <= |s| && forall l :: i <= l < k ==> s[l] != '}'
    ensures '}' !in s[i..k]
  {
  }

  lemma PlaceholderSplit(s: string) returns (a: string, x: string, c: string)
    requires Unresolved(s)
    ensures x != "" && '}' !in x && s == a + "${" + x + "}" + c
  {
    var i, j :| 0 <= i && i + 2 < j < |s| && s[i] == '$' && s[i + 1] == '{' && s[i + 2] != '}' && s[j] == '}';
    var k := Find(s, '}', i + 2);
    a, x, c := s[..i], s[i + 2..k], s[k + 1..];
    assert k < |s| && k > i + 2;
    BraceFree(s, i + 2, k);
    assert s[i..i + 2] == "${" && s[k..k + 1] == "}";
    assert s == s[..i] + s[i..i + 2] + s[i + 2..k] + s[k..k + 1] + s[k + 1..];
  }

  lemma PlaceholderFound(a: string, x: string, c: string)
    requires x != "" && '}' !in x
    ensures Unresolved(a + "${" + x + "}" + c)
  {
    var s, i, j := a + "${" + x + "}" + c, |a|, |a| + 2 + |x|;
    assert s[i] == '$' && s[i + 1] == '{' && s[i + 2] == x[0] && x[0] in x && s[j] == '}';
  }

  lemma UnresolvedInside(a: string, b: string, c: string)
    requires Unresolved(b)
    ensures Unresolved(a + b + c)
  {
    var i, j :| 0 <= i && i + 2 < j < |b| && b[i] == '$' && b[i + 1] == '{' && b[i + 2] != '}' && b[j] == '}';
    var s := a + b + c;
    assert s[|a| + i] == '$' && s[|a| + i + 1] == '{' && s[|a| + i + 2] != '}' && s[|a| + j] == '}';
  }

  lemma TextUnresolved(m: Match)
    ensures Unresolved(Text(m))
  {
    var s := Text(m);
    assert s[0] == '$' && s[0 + 1] == '{' && s[0 + 2] == 'r' && s[|s| - 1] == '}';
  }

  /** The text of a reference stands somewhere in the string. */
  ghost predicate Holds(s: string, p: Match) {
    exists a: string, c: string :: s == a + Text(p) + c
  }

  /** An occurrence of one reference does not reach into another one: it would have to contain
      the other one's `$`. */
  lemma NoOverlap(m: Match, pre: string, p: Match, post: string)
    requires Clean(Ref(m)) && Clean(Ref(p)) && pre != "" && Text(m) <= pre + Text(p) + post
    ensures |Text(m)| <= |pre|
  {
    TextTail(p);
    assert (pre + Text(p) + post)[|pre|] == '$';
    if |pre| < |Text(m)| {
      InnerChar(m, |pre|);
    }
  }

  lemma InnerChar(m: Match, i: nat)
    requires Clean(Ref(m)) && 0 < i < |Text(m)|
    ensures Text(m)[i] != '$'
  {
    TextTail(m);
    assert Text(m)[i] == Text(m)[1..][i - 1];
  }

  lemma FrontHolds(p: Match, post: string, m: Match, v: string)
    requires Clean(Ref(m)) && Clean(Ref(p)) && m != p
    ensures Holds(ReplaceAll(Text(p) + post, Text(m), v), p)
  {
    TextTail(m);
    TextUnique(m, p, post);
    ReplaceOther(Text(m), p, v, post);
    assert Text(p) + ReplaceAll(post, Text(m), v) == "" + Text(p) + ReplaceAll(post, Text(m), v);
  }

  /** Replacing another reference, by any value, leaves the text of this one. */
  lemma {:induction false} ReplaceHolds(pre: string, p: Match, post: string, m: Match, v: string)
    requires Clean(Ref(m)) && Clean(Ref(p)) && m != p
    ensures Holds(ReplaceAll(pre + Text(p) + post, Text(m), v), p)
    decreases |pre|
  {
    var s, t := pre + Text(p) + post, Text(m);
    TextTail(m);
    if pre == "" {
      assert s == Text(p) + post;
      FrontHolds(p, post, m, v);
    } else if t <= s {
      NoOverlap(m, pre, p, post);
      assert s[|t|..] == pre[|t|..] + Text(p) + post;
      ReplaceHolds(pre[|t|..], p, post, m, v);
      HoldsAfter(v, ReplaceAll(s[|t|..], t, v), p);
    } else {
      assert s[1..] == pre[1..] + Text(p) + post;
      ReplaceHolds(pre[1..], p, post, m, v);
      HoldsAfter([s[0]], ReplaceAll(s[1..], t, v), p);
    }
  }

  lemma HoldsAfter(x: string, s: string, p: Match)
    requires Holds(s, p)
    ensures Holds(x + s, p)
  {
    var a: string, c: string :| s == a + Text(p) + c;
    assert x + s == (x + a) + Text(p) + c;
  }

  lemma {:induction false} ReplaceEachHolds(s: string, ms: seq<Match>, outs: Available, p: Match)
    requires Holds(s, p) && Clean(Ref(p)) && forall m :: m in ms ==> Defined(m, outs) && Clean(Ref(m)) && m != p
    ensures Holds(ReplaceEach(s, ms, outs), p)
    decreases |ms|
  {
    if ms != [] {
      var init, last := ms[..|ms| - 1], ms[|ms| - 1];
      ReplaceEachHolds(s, init, outs, p);
      var a: string, c: string :| ReplaceEach(s, init, outs) == a + Text(p) + c;
      ReplaceHolds(a, p, c, last, ValueOf(last, outs));
    }
  }

  lemma {:induction false} UnparseHolds(ts: seq<Token>, p: Match)
    requires Ref(p) in ts
    ensures Holds(Unparse(ts), p)
  {
    if ts[0] == Ref(p) {
      assert Unparse(ts) == "" + Text(p) + Unparse(ts[1..]);
    } else {
      UnparseHolds(ts[1..], p);
      HoldsAfter(TokenText(ts[0]), Unparse(ts[1..]), p);
    }
  }

  /** Whatever the outputs are, a clean template that mixes both formats keeps a placeholder. */
  lemma MixedIsBlocked(ts: seq<Token>, outs: Available)
    requires CleanAll(ts) && Mixed(ts)
    requires forall m :: m in Relevant(Unparse(ts)) ==> Defined(m, outs)
    ensures Unresolved(ReplaceEach(Unparse(ts), Relevant(Unparse(ts)), outs))
  {
    var ms := Relevant(Unparse(ts));
    var t :| t in ts && t.Ref? && !IsOut(t.m);
    RelevantRefs(ts);
    forall m | m in ms
      ensures Clean(Ref(m)) && m != t.m
    {
      RefsAre(ts, true, m);
    }
    assert t == Ref(t.m);
    UnparseHolds(ts, t.m);
    ReplaceEachHolds(Unparse(ts), ms, outs, t.m);
    var a: string, c: string :| ReplaceEach(Unparse(ts), ms, outs) == a + Text(t.m) + c;
    TextUnresolved(t.m);
    UnresolvedInside(a, Text(t.m), c);
  }

  lemma {:induction false} SimultaneousDollarFree(ts: seq<Token>, outs: Available)
    requires CleanAll(ts) && AllDefined(ts, outs) && CleanFor(ts, outs)
    ensures DollarFree(Simultaneous(ts, outs))
  {
    if ts != [] {
      SimultaneousDollarFree(ts[1..], outs);
      assert Clean(ts[0]);
      if ts[0].Ref? { assert DollarFree(ValueOf(ts[0].m, outs)); }
    }
  }

  /** With `$`-free outputs the gate stops a clean template exactly when it mixes formats. */
  lemma BlockedExactly(ts: seq<Token>, outs: Available)
    requires CleanAll(ts) && CleanFor(ts, outs)
    requires forall m :: m in Relevant(Unparse(ts)) ==> Defined(m, outs)
    ensures Unresolved(ReplaceEach(Unparse(ts), Relevant(Unparse(ts)), outs)) <==> Mixed(ts)
  {
    if Mixed(ts) {
      MixedIsBlocked(ts, outs);
    } else {
      CleanIsInert(ts, outs);
      ResolutionIsOnePass(ts, outs);
      SimultaneousDollarFree(ts, outs);
      var r := Simultaneous(ts, outs);
      assert forall i :: 0 <= i < |r| ==> r[i] in r;
    }
  }
}
