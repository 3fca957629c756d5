/** The selection of a backend: a profile, the backends of the profile that pass all filters,
    and the best of these by priority, version and id. */
module Selection {
  import opened Api
  import opened Config
  import opened Quantity
  import opened Resolver
  import opened Version

  /** What selection reads of a Workload; an empty hint stands for no hint. */
  datatype Work = Work(
    hint: string, exposed: bool, labels: map<string, string>, features: set<string>, requests: Requests)

  /** Label matching and version parsing belong to libraries. */
  type Matcher = (Selector, map<string, string>) -> bool
  type Parser = string -> Option<SemVer>

  // ---------------------------------------------------------------- the order of backends

  /** The comparison handed to the sort: higher priority, then newer version, a version that
      does not parse last, then smaller id. */
  predicate Better(a: Backend, b: Backend, parse: Parser) {
    var va, vb := parse(a.version), parse(b.version);
    if a.priority != b.priority then a.priority > b.priority
    else if va.Some? && vb.Some? && CompareVersion(va.value, vb.value) != Eq then
        CompareVersion(va.value, vb.value) == Gt
    else if va.Some? && vb.None? then true
    else if va.None? && vb.Some? then false
    else CompareText(a.id, b.id) == Lt
  }

  /** Backends with different ids are strictly ordered one way. */
  lemma BetterTotal(a: Backend, b: Backend, parse: Parser)
    ensures a.id != b.id ==> (Better(a, b, parse) <==> !Better(b, a, parse))
    ensures a.id == b.id ==> !(Better(a, b, parse) && Better(b, a, parse))
  {
    TextTotal();
    VersionTotal();
  }

  lemma BetterTransitive(a: Backend, b: Backend, c: Backend, parse: Parser)
    requires Better(a, b, parse) && Better(b, c, parse)
    ensures Better(a, c, parse)
  {
    TextTotal();
    VersionTotal();
  }

  /** The result of any sort, stable or not: a rearrangement without an inversion. */
  ghost predicate SortOutcome(cs: seq<Backend>, sorted: seq<Backend>, parse: Parser) {
    && multiset(cs) == multiset(sorted)
    && forall i, j :: 0 <= i < j < |sorted| ==> !Better(sorted[j], sorted[i], parse)
  }

  /** `b` is the unique best of a collection. */
  ghost predicate Best(b: Backend, cs: multiset<Backend>, parse: Parser) {
    b in cs && forall c :: c in cs && c != b ==> Better(b, c, parse) && !Better(c, b, parse)
  }

  ghost predicate UniqueIds(cs: seq<Backend>) {
    forall i, j :: 0 <= i < j < |cs| ==> cs[i].id != cs[j].id
  }

  lemma IdsIdentify(cs: seq<Backend>, a: Backend, b: Backend)
    requires UniqueIds(cs) && a in cs && b in cs && a.id == b.id
    ensures a == b
  {
    var i :| 0 <= i < |cs| && cs[i] == a;
    var j :| 0 <= j < |cs| && cs[j] == b;
  }

  /** Whatever the sort, the first element is the unique best candidate. */
  lemma HeadIsBest(cs: seq<Backend>, sorted: seq<Backend>, parse: Parser)
    requires cs != [] && UniqueIds(cs) && SortOutcome(cs, sorted, parse)
    ensures sorted != [] && Best(sorted[0], multiset(cs), parse)
  {
    assert cs[0] in multiset(sorted);
    var b := sorted[0];
    assert b in multiset(cs);
    forall c | c in multiset(cs) && c != b
      ensures Better(b, c, parse) && !Better(c, b, parse)
    {
      assert c in sorted;
      var j :| 0 <= j < |sorted| && sorted[j] == c;
      if c.id == b.id { IdsIdentify(cs, b, c); }
      BetterTotal(b, c, parse);
    }
  }

  lemma BestUnique(a: Backend, b: Backend, cs: multiset<Backend>, parse: Parser)
    requires Best(a, cs, parse) && Best(b, cs, parse)
    ensures a == b
  {
  }

  // ---------------------------------------------------------------- filters

  predicate SelectorsMatch(ss: seq<Selector>, labels: map<string, string>, matches: Matcher) {
    ss == [] || exists s :: s in ss && matches(s, labels)
  }

  ghost predicate ResourcesFit(r: Resources, rs: Requests) {
    && (r.cpu != "" ==> Accepts(Print(Wrap(Sum(rs, "cpu"))) + "m", r.cpu))
    && (r.memory != "" ==> Accepts(Print(Wrap(Sum(rs, "memory"))), r.memory))
    && (r.storage != "" ==> Accepts(Print(Wrap(Sum(rs, "ephemeral-storage"))), r.storage))
  }

  /** The range, if there is one, accepts the total. */
  predicate RangeMet(total: string, range: string) {
    range == "" || Accepts(total, range)
  }

  /** Some selector matches unless there is none, every feature asked for is there, and every range
      accepts the total of its own resource. */
  ghost predicate Met(c: Constraints, w: Work, matches: Matcher) {
    && (|c.selectors| > 0 ==> exists i :: 0 <= i < |c.selectors| && matches(c.selectors[i], w.labels))
    && (forall i :: 0 <= i < |c.features| ==> c.features[i] in w.features)
    && (c.resources.Some? ==>
          && RangeMet(Print(Wrap(Sum(w.requests, "cpu"))) + "m", c.resources.value.cpu)
          && RangeMet(Print(Wrap(Sum(w.requests, "memory"))), c.resources.value.memory)
          && RangeMet(Print(Wrap(Sum(w.requests, "ephemeral-storage"))), c.resources.value.storage))
  }

  lemma PassesMet(b: Backend, w: Work, matches: Matcher)
    ensures Passes(b, w, matches) <==> b.constraints.None? || Met(b.constraints.value, w, matches)
  {
    if b.constraints.Some? {
      var c := b.constraints.value;
      if s :| s in c.selectors && matches(s, w.labels) {
        var i :| 0 <= i < |c.selectors| && c.selectors[i] == s;
        assert matches(c.selectors[i], w.labels);
      }
    }
  }

  ghost predicate Passes(b: Backend, w: Work, matches: Matcher) {
    b.constraints.Some? ==>
      var c := b.constraints.value;
      && SelectorsMatch(c.selectors, w.labels, matches)
      && (forall f :: f in c.features ==> f in w.features)
      && (c.resources.Some? ==> ResourcesFit(c.resources.value, w.requests))
  }

  /** The backends that pass, in their order. */
  ghost function Passing(bs: seq<Backend>, w: Work, matches: Matcher): (r: seq<Backend>)
    ensures forall b :: b in r <==> b in bs && Passes(b, w, matches)
  {
    if bs == [] then []
    else Passing(bs[..|bs| - 1], w, matches) + if Passes(bs[|bs| - 1], w, matches) then [bs[|bs| - 1]] else []
  }

  lemma {:induction false} PassingUnique(bs: seq<Backend>, w: Work, matches: Matcher)
    requires UniqueIds(bs)
    ensures UniqueIds(Passing(bs, w, matches))
  {
    if bs != [] {
      var init, last := bs[..|bs| - 1], bs[|bs| - 1];
      PassingUnique(init, w, matches);
      var r := Passing(init, w, matches);
      forall i | 0 <= i < |r|
        ensures r[i].id != last.id
      {
        assert r[i] in init;
      }
    }
  }

  lemma {:induction false} PassingMultiset(bs: seq<Backend>, w: Work, matches: Matcher, b: Backend)
    ensures multiset(Passing(bs, w, matches))[b] == if Passes(b, w, matches) then multiset(bs)[b] else 0
  {
    if bs != [] {
      var init, last := bs[..|bs| - 1], bs[|bs| - 1];
      PassingMultiset(init, w, matches, b);
      assert bs == init + [last];
    }
  }

  method SelectorsHold(ss: seq<Selector>, labels: map<string, string>, matches: Matcher) returns (ok: bool)
    ensures ok <==> SelectorsMatch(ss, labels, matches)
  {
    if |ss| == 0 { return true; }
    for i := 0 to |ss|
      invariant forall j :: 0 <= j < i ==> !matches(ss[j], labels)
    {
      if matches(ss[i], labels) { return true; }
    }
    ok := false;
  }

  method FeaturesHold(required: seq<string>, features: set<string>) returns (ok: bool)
    ensures ok <==> forall f :: f in required ==> f in features
  {
    for i := 0 to |required|
      invariant forall j :: 0 <= j < i ==> required[j] in features
    {
      if required[i] !in features { return false; }
    }
    ok := true;
  }

  method ResourcesHold(r: Resources, rs: Requests) returns (ok: bool)
    ensures ok <==> ResourcesFit(r, rs)
  {
    var cpu, memory, storage := CalculateResources(rs);
    if r.cpu != "" && !Accepts(cpu, r.cpu) { return false; }
    if r.memory != "" && !Accepts(memory, r.memory) { return false; }
    if r.storage != "" && !Accepts(storage, r.storage) { return false; }
    ok := true;
  }

  method FilterBackends(bs: seq<Backend>, w: Work, matches: Matcher) returns (candidates: seq<Backend>)
    ensures candidates == Passing(bs, w, matches)
  {
    candidates := [];
    for i := 0 to |bs|
      invariant candidates == Passing(bs[..i], w, matches)
    {
      assert bs[..i + 1][..i] == bs[..i];
      var passes := true;
      if bs[i].constraints.Some? {
        var c := bs[i].constraints.value;
        passes := SelectorsHold(c.selectors, w.labels, matches);
        if passes { passes := FeaturesHold(c.features, w.features); }
        if passes && c.resources.Some? { passes := ResourcesHold(c.resources.value, w.requests); }
      }
      if passes { candidates := candidates + [bs[i]]; }
    }
    assert bs[..|bs|] == bs;
  }

  // ---------------------------------------------------------------- profiles

  function Lower(s: string): string {
    seq(|s|, i requires 0 <= i < |s| => if 'A' <= s[i] <= 'Z' then s[i] - 'A' + 'a' else s[i])
  }

  predicate Contains(s: string, t: string) {
    exists i :: 0 <= i <= |s| - |t| && OccursAt(s, t, i)
  }

  predicate OccursAt(s: string, t: string, i: nat)
    requires i + |t| <= |s|
  {
    s[i..i + |t|] == t
  }

  /** Whether a profile's name suits a workload with, or without, service ports. */
  predicate Suits(name: string, exposed: bool) {
    if exposed then Contains(Lower(name), "web") || Contains(Lower(name), "service")
    else Contains(Lower(name), "batch") || Contains(Lower(name), "job")
  }

  /** The words that make a profile suit. */
  function Words(exposed: bool): set<string> {
    if exposed then {"web", "service"} else {"batch", "job"}
  }

  /** A name suits exactly when one of the words stands somewhere in it, in whatever case. */
  lemma SuitsExactly(name: string, exposed: bool)
    ensures Suits(name, exposed) <==>
            exists a: string, x: string, b: string :: x in Words(exposed) && Lower(name) == a + x + b
  {
    var s := Lower(name);
    forall x: string
      ensures Contains(s, x) <==> exists a: string, b: string :: s == a + x + b
    {
      ContainsExactly(s, x);
    }
    if Suits(name, exposed) {
      var x :| x in Words(exposed) && Contains(s, x);
    }
  }

  lemma ContainsExactly(s: string, t: string)
    ensures Contains(s, t) <==> exists a: string, b: string :: s == a + t + b
  {
    if i :| 0 <= i <= |s| - |t| && OccursAt(s, t, i) {
      assert s == s[..i] + t + s[i + |t|..];
    }
    if a: string, b: string :| s == a + t + b {
      assert OccursAt(s, t, |a|);
    }
  }

  /** `p` is the first profile whose name suits. */
  predicate FirstSuited(c: Config, exposed: bool, i: int) {
    0 <= i < |c.profiles| && Suits(c.profiles[i].name, exposed) && forall j :: 0 <= j < i ==>
        !Suits(c.profiles[j].name, exposed)
  }

  predicate Chosen(s: Selector, w: Work, matches: Matcher) {
    matches(s, w.labels) && s.profile != ""
  }

  predicate FirstChosen(c: Config, w: Work, matches: Matcher, i: int) {
    0 <= i < |c.selectors| && Chosen(c.selectors[i], w, matches) && forall j :: 0 <= j < i ==>
        !Chosen(c.selectors[j], w, matches)
  }

  /** The steps of profile selection in their order: hint, derived, selectors, default. */
  ghost predicate Selected(c: Config, w: Work, matches: Matcher, name: string) {
    if w.hint != "" then name == w.hint && name in Names(c.profiles)
    else if exists i :: FirstSuited(c, w.exposed, i) then
        exists i :: FirstSuited(c, w.exposed, i) && name == c.profiles[i].name
    else if exists i :: FirstChosen(c, w, matches, i) then
        exists i :: FirstChosen(c, w, matches, i) && name == c.selectors[i].profile
    else name == c.defaultProfile && name != ""
  }

  method DeriveProfile(c: Config, exposed: bool) returns (found: Option<nat>)
    ensures found.Some? ==> FirstSuited(c, exposed, found.value)
    ensures found.None? ==> !exists i :: FirstSuited(c, exposed, i)
  {
    for i := 0 to |c.profiles|
      invariant forall j :: 0 <= j < i ==> !Suits(c.profiles[j].name, exposed)
    {
      if Suits(c.profiles[i].name, exposed) { return Some(i); }
    }
    found := None;
  }

  method MatchSelectors(c: Config, w: Work, matches: Matcher) returns (found: Option<nat>)
    ensures found.Some? ==> FirstChosen(c, w, matches, found.value)
    ensures found.None? ==> !exists i :: FirstChosen(c, w, matches, i)
  {
    for i := 0 to |c.selectors|
      invariant forall j :: 0 <= j < i ==> !Chosen(c.selectors[j], w, matches)
    {
      if matches(c.selectors[i], w.labels) && c.selectors[i].profile != "" { return Some(i); }
    }
    found := None;
  }

  method SelectProfile(c: Config, w: Work, matches: Matcher) returns (r: Result<string, string>)
    ensures r.Ok? ==> Selected(c, w, matches, r.value)
    ensures r.Err? ==> forall name :: !Selected(c, w, matches, name)
    ensures w.hint != "" ==> if exists p :: p in c.profiles && p.name == w.hint then r == Ok(w.hint) else r.Err?
    ensures forall i :: w.hint == "" && FirstSuited(c, w.exposed, i) ==> r == Ok(c.profiles[i].name)
    ensures w.hint == "" && (forall p :: p in c.profiles ==> !Suits(p.name, w.exposed)) ==>
              && (forall i :: FirstChosen(c, w, matches, i) ==> r == Ok(c.selectors[i].profile))
              && ((forall s :: s in c.selectors ==> !Chosen(s, w, matches)) ==>
                    if c.defaultProfile != "" then r == Ok(c.defaultProfile) else r.Err?)
  {
    if w.hint != "" {
      for i := 0 to |c.profiles|
        invariant forall j :: 0 <= j < i ==> c.profiles[j].name != w.hint
      {
        if c.profiles[i].name == w.hint {
          assert Names(c.profiles)[i] == w.hint;
          return Ok(w.hint);
        }
      }
      return Err("hinted profile does not exist");
    }
    var derived := DeriveProfile(c, w.exposed);
    if derived.Some? { return Ok(c.profiles[derived.value].name); }
    var chosen := MatchSelectors(c, w, matches);
    if chosen.Some? { return Ok(c.selectors[chosen.value].profile); }
    if c.defaultProfile != "" { return Ok(c.defaultProfile); }
    r := Err("no profile could be determined");
  }

  lemma SelectedUnique(c: Config, w: Work, matches: Matcher, a: string, b: string)
    requires Selected(c, w, matches, a) && Selected(c, w, matches, b)
    ensures a == b
  {
    if w.hint == "" {
      if i, j :| FirstSuited(c, w.exposed, i) && FirstSuited(c, w.exposed, j) && i < j {
        assert false;
      }
      if i, j :| FirstChosen(c, w, matches, i) && FirstChosen(c, w, matches, j) && i < j {
        assert false;
      }
    }
  }

  // ---------------------------------------------------------------- validated configurations

  ghost predicate HintOk(c: Config, w: Work) {
    w.hint == "" || w.hint in Names(c.profiles)
  }

  lemma SelectedNamed(c: Config, w: Work, matches: Matcher, name: string)
    requires Valid(c) && Selected(c, w, matches, name)
    ensures name in Names(c.profiles)
  {
    if w.hint == "" {
      if i :| FirstSuited(c, w.exposed, i) && name == c.profiles[i].name {
        assert Names(c.profiles)[i] == name;
      } else if i :| FirstChosen(c, w, matches, i) && name == c.selectors[i].profile {
        assert c.selectors[i] in c.selectors;
      }
    }
  }

  /** In a valid configuration a selected name is the name of exactly one profile, and that
      profile has backends, with pairwise different ids. */
  lemma SelectedExists(c: Config, w: Work, matches: Matcher, name: string) returns (i: nat)
    requires Valid(c) && Selected(c, w, matches, name)
    ensures i < |c.profiles| && c.profiles[i].name == name
    ensures forall j :: 0 <= j < |c.profiles| && c.profiles[j].name == name ==> j == i
    ensures c.profiles[i].backends != [] && UniqueIds(c.profiles[i].backends)
  {
    SelectedNamed(c, w, matches, name);
    var names := Names(c.profiles);
    i :| 0 <= i < |names| && names[i] == name;
    forall j | 0 <= j < |c.profiles| && c.profiles[j].name == name
      ensures j == i
    {
      assert names[j] == name;
    }
    ProfileIds(c.profiles, i);
    assert ValidProfile(c.profiles[i]);
  }

  lemma {:induction false} ProfileIds(ps: seq<Profile>, i: nat)
    requires Distinct(Ids(ps)) && i < |ps|
    ensures UniqueIds(ps[i].backends)
    decreases |ps|
  {
    var init, last := ps[..|ps| - 1], ps[|ps| - 1];
    var ids := Ids(init);
    DistinctPrefix(ids, BackendIds(last.backends));
    if i < |ps| - 1 {
      ProfileIds(init, i);
    } else {
      forall a, b | 0 <= a < b < |last.backends|
        ensures last.backends[a].id != last.backends[b].id
      {
        assert Ids(ps)[|ids| + a] == last.backends[a].id && Ids(ps)[|ids| + b] == last.backends[b].id;
      }
    }
  }

  // ---------------------------------------------------------------- the pipeline

  datatype Failure = NoProfile | UnknownProfile | NoCandidate

  /** The sort of the standard library: all that is known of it is its contract. */
  ghost predicate IsSort(sort: seq<Backend> -> seq<Backend>, parse: Parser) {
    forall cs :: SortOutcome(cs, sort(cs), parse)
  }

  method FindProfile(c: Config, name: string) returns (found: Option<nat>)
    ensures found.Some? ==> found.value < |c.profiles| && c.profiles[found.value].name == name
    ensures found.Some? <==> name in Names(c.profiles)
  {
    for i := 0 to |c.profiles|
      invariant forall j :: 0 <= j < i ==> c.profiles[j].name != name
    {
      if c.profiles[i].name == name {
        assert Names(c.profiles)[i] == name;
        return Some(i);
      }
    }
    found := None;
  }

  /** The answer of the pipeline on a valid configuration. */
  ghost predicate Answer(c: Config, w: Work, matches: Matcher, parse: Parser, r: Result<Backend, Failure>) {
    if !HintOk(c, w) then r == Err(NoProfile)
    else
      exists p :: p in c.profiles && Selected(c, w, matches, p.name) && AnswerIn(p, w, matches, parse, r)
  }

  ghost predicate AnswerIn(p: Profile, w: Work, matches: Matcher, parse: Parser, r: Result<Backend, Failure>) {
    var cs := Passing(p.backends, w, matches);
    if cs == [] then r == Err(NoCandidate) else r.Ok? && Best(r.value, multiset(cs), parse)
  }

  lemma BetterRanks(r: Backend, b: Backend, parse: Parser)
    requires r == b || Better(r, b, parse)
    ensures Ranks(r, b, parse)
  {
    TextTotal();
    VersionTotal();
  }

  /** The backend has no constraints, or they are met. */
  ghost predicate Suitable(b: Backend, w: Work, matches: Matcher) {
    b.constraints.None? || Met(b.constraints.value, w, matches)
  }

  /** The other backend has no higher priority, with equal priority no newer version nor alone one that
      parses, and with equal versions no smaller id. */
  predicate Ranks(r: Backend, b: Backend, parse: Parser) {
    && b.priority <= r.priority
    && (b.priority == r.priority && parse(b.version).Some? ==>
          parse(r.version).Some? && CompareVersion(parse(b.version).value, parse(r.version).value) != Gt)
    && (b.priority == r.priority && parse(b.version) == parse(r.version) ==> CompareText(r.id, b.id) != Gt)
  }

  /** The answer of the pipeline, in the terms of the configuration. */
  lemma AnswerRanks(c: Config, w: Work, matches: Matcher, parse: Parser, r: Result<Backend, Failure>, p: Profile,
      b: Backend)
    requires Valid(c) && Answer(c, w, matches, parse, r)
    requires p in c.profiles && Selected(c, w, matches, p.name)
    ensures r.Ok? ==> r.value in p.backends && Passes(r.value, w, matches)
    ensures b in p.backends && Passes(b, w, matches) ==> r.Ok? && Ranks(r.value, b, parse)
  {
    AnswerOf(c, w, matches, parse, r, p);
    var cs := Passing(p.backends, w, matches);
    if r.Ok? { assert r.value in multiset(cs); }
    if b in p.backends && Passes(b, w, matches) {
      assert b in cs && b in multiset(cs);
      BetterRanks(r.value, b, parse);
    }
  }

  lemma AnswerOf(c: Config, w: Work, matches: Matcher, parse: Parser, r: Result<Backend, Failure>, p: Profile)
    requires Valid(c) && Answer(c, w, matches, parse, r) && p in c.profiles && Selected(c, w, matches, p.name)
    ensures AnswerIn(p, w, matches, parse, r)
  {
    SelectionTotal(c, w, matches);
    var q :| q in c.profiles && Selected(c, w, matches, q.name) && AnswerIn(q, w, matches, parse, r);
    SelectedUnique(c, w, matches, p.name, q.name);
    var i := SelectedExists(c, w, matches, p.name);
    assert p == c.profiles[i] && q == c.profiles[i];
  }

  lemma AnswerSuits(c: Config, w: Work, matches: Matcher, parse: Parser, r: Result<Backend, Failure>, p: Profile)
    requires Valid(c) && Answer(c, w, matches, parse, r) && p in c.profiles && Selected(c, w, matches, p.name)
    ensures r.Ok? ==> r.value in p.backends && Suitable(r.value, w, matches)
    ensures forall b :: b in p.backends && Suitable(b, w, matches) ==> r.Ok? && Ranks(r.value, b, parse)
  {
    if r.Ok? {
      AnswerRanks(c, w, matches, parse, r, p, r.value);
      PassesMet(r.value, w, matches);
    }
    forall b | b in p.backends && Suitable(b, w, matches) ensures r.Ok? && Ranks(r.value, b, parse) {
      PassesMet(b, w, matches);
      AnswerRanks(c, w, matches, parse, r, p, b);
    }
  }

  /** On a valid configuration selection fails only for a hint that names no profile or when
      no backend passes, and otherwise returns the unique best passing backend. */
  method SelectBackend(c: Config, w: Work, matches: Matcher, parse: Parser, sort: seq<Backend> -> seq<Backend>)
    returns (r: Result<Backend, Failure>)
    requires IsSort(sort, parse)
    ensures Valid(c) ==> Answer(c, w, matches, parse, r)
    ensures Valid(c) ==> forall p :: p in c.profiles && Selected(c, w, matches, p.name) ==>
              && (r.Ok? ==> r.value in p.backends && Suitable(r.value, w, matches))
              && (forall b :: b in p.backends && Suitable(b, w, matches) ==> r.Ok? && Ranks(r.value, b, parse))
  {
    r := SelectAnswer(c, w, matches, parse, sort);
    if Valid(c) {
      forall p | p in c.profiles && Selected(c, w, matches, p.name)
        ensures r.Ok? ==> r.value in p.backends && Suitable(r.value, w, matches)
        ensures forall b :: b in p.backends && Suitable(b, w, matches) ==> r.Ok? && Ranks(r.value, b, parse)
      {
        AnswerSuits(c, w, matches, parse, r, p);
      }
    }
  }

  method SelectAnswer(c: Config, w: Work, matches: Matcher, parse: Parser, sort: seq<Backend> -> seq<Backend>)
    returns (r: Result<Backend, Failure>)
    requires IsSort(sort, parse)
    ensures Valid(c) ==> Answer(c, w, matches, parse, r)
  {
    var name := SelectProfile(c, w, matches);
    if name.Err? {
      SelectionTotal(c, w, matches);
      return Err(NoProfile);
    }
    var found := FindProfile(c, name.value);
    if found.None? {
      if Valid(c) { SelectedNamed(c, w, matches, name.value); }
      return Err(UnknownProfile);
    }
    var p := c.profiles[found.value];
    var candidates := FilterBackends(p.backends, w, matches);
    if |candidates| == 0 { return Err(NoCandidate); }
    var sorted := sort(candidates);
    if Valid(c) {
      ProfileIds(c.profiles, found.value);
      PassingUnique(p.backends, w, matches);
      HeadIsBest(candidates, sorted, parse);
    } else {
      assert |sorted| == |candidates| by { assert |multiset(sorted)| == |multiset(candidates)|; }
    }
    r := Ok(sorted[0]);
  }

  /** Validation makes profile selection total, except for a hint that names no profile. */
  lemma SelectionTotal(c: Config, w: Work, matches: Matcher)
    ensures Valid(c) ==> (HintOk(c, w) <==> exists name :: Selected(c, w, matches, name))
  {
    if Valid(c) && HintOk(c, w) {
      if w.hint != "" {
        assert Selected(c, w, matches, w.hint);
      } else if i :| FirstSuited(c, w.exposed, i) {
        assert Selected(c, w, matches, c.profiles[i].name);
      } else if i :| FirstChosen(c, w, matches, i) {
        assert Selected(c, w, matches, c.selectors[i].profile);
      } else {
        assert Selected(c, w, matches, c.defaultProfile);
      }
    }
  }

  /** The configuration with the backends of each profile in another order. */
  ghost predicate Reordered(c: Config, d: Config) {
    && d == c.(profiles := d.profiles) && |c.profiles| == |d.profiles|
    && forall i :: 0 <= i < |c.profiles| ==>
         c.profiles[i].name == d.profiles[i].name
             && multiset(c.profiles[i].backends) == multiset(d.profiles[i].backends)
  }

  /** Whether ids are distinct depends on their multiset only. */
  lemma DistinctCount(s: seq<string>)
    ensures Distinct(s) <==> forall x :: multiset(s)[x] <= 1
  {
    if Distinct(s) {
      forall x ensures multiset(s)[x] <= 1 {
        CountAtMostOne(s, x);
      }
    } else {
      var i, j :| 0 <= i < j < |s| && s[i] == s[j];
      assert s == s[..i] + [s[i]] + s[i + 1..j] + [s[j]] + s[j + 1..];
      assert multiset(s)[s[i]] >= 2;
    }
  }

  lemma {:induction false} CountAtMostOne(s: seq<string>, x: string)
    requires Distinct(s)
    ensures multiset(s)[x] <= 1
  {
    if s != [] {
      var init, last := s[..|s| - 1], s[|s| - 1];
      assert s == init + [last];
      CountAtMostOne(init, x);
      if x == last {
        assert x !in init;
        assert x !in multiset(init);
      }
    }
  }

  lemma WithoutOne(ds: seq<Backend>, j: nat)
    requires j < |ds|
    ensures multiset(ds) == multiset(ds[..j] + ds[j + 1..]) + multiset{ds[j]}
  {
    assert ds == ds[..j] + [ds[j]] + ds[j + 1..];
  }

  lemma IdsWithoutOne(ds: seq<Backend>, j: nat)
    requires j < |ds|
    ensures multiset(BackendIds(ds)) == multiset(BackendIds(ds[..j] + ds[j + 1..])) + multiset{ds[j].id}
  {
    var ids := BackendIds(ds);
    assert ids == ids[..j] + [ids[j]] + ids[j + 1..];
    assert BackendIds(ds[..j] + ds[j + 1..]) == ids[..j] + ids[j + 1..];
  }

  lemma Pull(ds: seq<Backend>, b: Backend) returns (rest: seq<Backend>)
    requires b in ds
    ensures |rest| < |ds| && multiset(ds) == multiset(rest) + multiset{b}
    ensures multiset(BackendIds(ds)) == multiset(BackendIds(rest)) + multiset{b.id}
  {
    var j :| 0 <= j < |ds| && ds[j] == b;
    rest := ds[..j] + ds[j + 1..];
    WithoutOne(ds, j);
    IdsWithoutOne(ds, j);
  }

  lemma {:induction false} IdsReordered(bs: seq<Backend>, ds: seq<Backend>)
    requires multiset(bs) == multiset(ds)
    ensures multiset(BackendIds(bs)) == multiset(BackendIds(ds))
    decreases |bs|
  {
    if bs == [] {
      assert |multiset(ds)| == 0;
    } else {
      assert bs[0] in multiset(ds);
      var bs' := Pull(bs, bs[0]);
      var ds' := Pull(ds, bs[0]);
      assert multiset(bs') == multiset(bs) - multiset{bs[0]} == multiset(ds');
      IdsReordered(bs', ds');
    }
  }

  ghost predicate SameProfiles(ps: seq<Profile>, qs: seq<Profile>) {
    |ps| == |qs| && forall i :: 0 <= i < |ps| ==>
        ps[i].name == qs[i].name && multiset(ps[i].backends) == multiset(qs[i].backends)
  }

  lemma {:induction false} AllIdsReordered(ps: seq<Profile>, qs: seq<Profile>)
    requires SameProfiles(ps, qs)
    ensures multiset(Ids(ps)) == multiset(Ids(qs))
    decreases |ps|
  {
    if ps != [] {
      AllIdsReordered(ps[..|ps| - 1], qs[..|qs| - 1]);
      IdsReordered(ps[|ps| - 1].backends, qs[|qs| - 1].backends);
    }
  }

  lemma ReorderedProfile(p: Profile, q: Profile)
    requires ValidProfile(p) && p.name == q.name && multiset(p.backends) == multiset(q.backends)
    ensures ValidProfile(q)
  {
    assert |multiset(p.backends)| == |multiset(q.backends)|;
    forall b | b in q.backends ensures ValidBackend(b) {
      assert b in multiset(q.backends);
      assert b in p.backends;
    }
  }

  /** Reordering backends keeps a configuration valid. */
  lemma ReorderedValid(c: Config, d: Config)
    requires Valid(c) && Reordered(c, d)
    ensures Valid(d)
  {
    assert Names(c.profiles) == Names(d.profiles);
    AllIdsReordered(c.profiles, d.profiles);
    DistinctCount(Ids(c.profiles));
    DistinctCount(Ids(d.profiles));
    forall p | p in d.profiles ensures ValidProfile(p) {
      var i :| 0 <= i < |d.profiles| && d.profiles[i] == p;
      assert c.profiles[i] in c.profiles;
      ReorderedProfile(c.profiles[i], p);
    }
  }

  lemma PassingReordered(bs: seq<Backend>, ds: seq<Backend>, w: Work, matches: Matcher)
    requires multiset(bs) == multiset(ds)
    ensures multiset(Passing(bs, w, matches)) == multiset(Passing(ds, w, matches))
  {
    forall b
      ensures multiset(Passing(bs, w, matches))[b] == multiset(Passing(ds, w, matches))[b]
    {
      PassingMultiset(bs, w, matches, b);
      PassingMultiset(ds, w, matches, b);
    }
  }

  lemma NamesReordered(c: Config, d: Config, w: Work, matches: Matcher, name: string)
    requires Reordered(c, d) && Selected(c, w, matches, name)
    ensures Selected(d, w, matches, name)
  {
    assert Names(c.profiles) == Names(d.profiles);
    assert forall i :: 0 <= i < |c.profiles| ==> Names(c.profiles)[i] == c.profiles[i].name == d.profiles[i].name;
    assert forall i :: FirstSuited(c, w.exposed, i) <==> FirstSuited(d, w.exposed, i);
    assert forall i :: FirstChosen(c, w, matches, i) <==> FirstChosen(d, w, matches, i);
  }

  lemma SameProfile(c: Config, d: Config, p: Profile, q: Profile)
    requires Distinct(Names(c.profiles)) && Reordered(c, d) && p in c.profiles && q in d.profiles && p.name == q.name
    ensures multiset(p.backends) == multiset(q.backends)
  {
    var i :| 0 <= i < |c.profiles| && c.profiles[i] == p;
    var j :| 0 <= j < |d.profiles| && d.profiles[j] == q;
    assert Names(c.profiles)[i] == Names(c.profiles)[j];
  }

  /** One answer only: it does not depend on the order of the backends in the configuration,
      on the order in which Go visits the containers, or on the sort. */
  lemma Deterministic(c: Config, d: Config, w: Work, matches: Matcher, parse: Parser, r: Result<Backend, Failure>,
      r': Result<Backend, Failure>)
    requires Valid(c) && Reordered(c, d)
    requires Answer(c, w, matches, parse, r) && Answer(d, w, matches, parse, r')
    ensures r == r'
  {
    SameHint(c, d, w);
    if HintOk(c, w) {
      SameVerdict(c, d, w, matches, parse, r, r');
    } else {
      BadHint(c, w, matches, parse, r);
      BadHint(d, w, matches, parse, r');
    }
  }

  lemma SameHint(c: Config, d: Config, w: Work)
    requires Reordered(c, d)
    ensures HintOk(c, w) <==> HintOk(d, w)
  {
    assert Names(c.profiles) == Names(d.profiles);
  }

  lemma BadHint(c: Config, w: Work, matches: Matcher, parse: Parser, r: Result<Backend, Failure>)
    requires Answer(c, w, matches, parse, r) && !HintOk(c, w)
    ensures r == Err(NoProfile)
  {
  }

  lemma SameVerdict(c: Config, d: Config, w: Work, matches: Matcher, parse: Parser, r: Result<Backend, Failure>,
      r': Result<Backend, Failure>)
    requires Valid(c) && Reordered(c, d) && HintOk(c, w) && HintOk(d, w)
    requires Answer(c, w, matches, parse, r) && Answer(d, w, matches, parse, r')
    ensures r == r'
  {
    var p := AnswerProfile(c, w, matches, parse, r);
    var q := AnswerProfile(d, w, matches, parse, r');
    SameSelection(c, d, w, matches, p, q);
    SameAnswer(p, q, w, matches, parse, r, r');
  }

  lemma SameSelection(c: Config, d: Config, w: Work, matches: Matcher, p: Profile, q: Profile)
    requires Distinct(Names(c.profiles)) && Reordered(c, d)
    requires p in c.profiles && Selected(c, w, matches, p.name) && q in d.profiles && Selected(d, w, matches, q.name)
    ensures multiset(p.backends) == multiset(q.backends)
  {
    NamesReordered(c, d, w, matches, p.name);
    SelectedUnique(d, w, matches, p.name, q.name);
    SameProfile(c, d, p, q);
  }

  lemma AnswerProfile(c: Config, w: Work, matches: Matcher, parse: Parser, r: Result<Backend, Failure>)
    returns (p: Profile)
    requires Answer(c, w, matches, parse, r) && HintOk(c, w)
    ensures p in c.profiles && Selected(c, w, matches, p.name) && AnswerIn(p, w, matches, parse, r)
  {
    p :| p in c.profiles && Selected(c, w, matches, p.name) && AnswerIn(p, w, matches, parse, r);
  }

  lemma SameAnswer(p: Profile, q: Profile, w: Work, matches: Matcher, parse: Parser, r: Result<Backend, Failure>,
      r': Result<Backend, Failure>)
    requires multiset(p.backends) == multiset(q.backends)
    requires AnswerIn(p, w, matches, parse, r) && AnswerIn(q, w, matches, parse, r')
    ensures r == r'
  {
    PassingReordered(p.backends, q.backends, w, matches);
    var a, b := Passing(p.backends, w, matches), Passing(q.backends, w, matches);
    assert |a| == |multiset(a)| == |multiset(b)| == |b|;
    if a != [] {
      BestUnique(r.value, r'.value, multiset(a), parse);
    }
  }
}
