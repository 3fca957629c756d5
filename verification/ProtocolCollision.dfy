/** The hypothesis on names is needed: any two resources of different Workloads whose claims would
    have the same name allow a run in which the garbage collector takes a claim in use. */
module ProtocolCollision {
  import opened Api
  import opened Protocol
  import opened ProtocolNames
  import opened ProtocolTheorems

  /** A run so far: its events, the state they lead to, and what they declare. */
  ghost predicate Leads(s0: Cluster, es: seq<Event>, s: Cluster, ps: set<Pair>) {
    Run(s0, es) == s && SettledRun(s0, es) && AllDeclared(es) <= ps
  }

  lemma {:induction false} RunSnoc(s: Cluster, es: seq<Event>, e: Event)
    ensures Run(s, es + [e]) == Apply(Run(s, es), e)
    ensures SettledRun(s, es + [e]) <==> SettledRun(s, es) && !LatePolicy(Run(s, es), e)
    decreases |es|
  {
    if es == [] {
      assert [] + [e] == [e] && [e][1..] == [];
      assert Run(s, [e]) == Run(Apply(s, e), []);
    } else {
      assert (es + [e])[1..] == es[1..] + [e];
      RunSnoc(Apply(s, es[0]), es[1..], e);
    }
  }

  /** One more event that edits no policy. */
  lemma Extend(s0: Cluster, es: seq<Event>, s: Cluster, ps: set<Pair>, e: Event)
    requires Leads(s0, es, s, ps) && !e.UserPolicy? && Declared(e) <= ps
    ensures Leads(s0, es + [e], Apply(s, e), ps)
  {
    RunSnoc(s0, es, e);
    assert (es + [e])[..|es|] == es;
  }

  lemma Follow2(s0: Cluster, es: seq<Event>, s: Cluster, ps: set<Pair>, e: Event, f: Event)
    requires Leads(s0, es, s, ps) && !e.UserPolicy? && !f.UserPolicy? && Declared(e) <= ps && Declared(f) <= ps
    ensures Leads(s0, es + [e] + [f], Apply(Apply(s, e), f), ps)
  {
    Extend(s0, es, s, ps, e);
    Extend(s0, es + [e], Apply(s, e), ps, f);
  }

  // ---------------------------------------------------------------- one pass of the claim phase

  function Resources(key: string, r: ResourceSpec): map<string, ResourceSpec> {
    map[key := r]
  }

  /** A new Workload with one resource, and the finalizer on it. */
  function Made(st: Store, n: string, key: string, r: ResourceSpec): Workload {
    Workload(st.nextUid, st.nextRv + 1, 1, false, [WORKLOAD_FINALIZER], Resources(key, r))
  }

  function Opened(s: Cluster, n: string, key: string, r: ResourceSpec): Cluster {
    var w := Made(s.store, n, key, r);
    s.(store := s.store.(workloads := s.store.workloads[n := w], nextUid := s.store.nextUid + 1,
        nextRv := s.store.nextRv + 2),
       pipe := Upsert(n, w, {key}), held := s.held + {(n, w.uid)})
  }

  lemma HoldStep(s: Cluster, n: string, key: string, r: ResourceSpec)
    requires s.pipe.Idle? && n !in s.store.workloads
    ensures var s1 := Apply(s, UserCreate(n, Resources(key, r)));
            Apply(Apply(s1, PipeGet(n)), PipeStep("")) == Opened(s, n, key, r)
  {
    var s1 := Apply(s, UserCreate(n, Resources(key, r)));
    var w0, w := s1.store.workloads[n], Made(s.store, n, key, r);
    assert Resources(key, r).Keys == {key} && w0.finalizers + [WORKLOAD_FINALIZER] == w.finalizers;
    assert s.store.workloads[n := w0][n := w] == s.store.workloads[n := w];
  }

  /** The user creates a Workload and the pipeline puts its finalizer on it. */
  lemma OpenWorkload(s0: Cluster, before: seq<Event>, s: Cluster, ps: set<Pair>, n: string, key: string,
      r: ResourceSpec)
    returns (es: seq<Event>)
    requires Leads(s0, before, s, ps) && s.pipe.Idle? && n !in s.store.workloads && (n, key) in ps
    ensures Leads(s0, es, Opened(s, n, key, r), ps)
  {
    var e := UserCreate(n, Resources(key, r));
    assert Declared(e) <= ps;
    Extend(s0, before, s, ps, e);
    var s1 := Apply(s, e);
    Extend(s0, before + [e], s1, ps, PipeGet(n));
    Extend(s0, before + [e] + [PipeGet(n)], Apply(s1, PipeGet(n)), ps, PipeStep(""));
    es := before + [e] + [PipeGet(n)] + [PipeStep("")];
    HoldStep(s, n, key, r);
  }

  /** The pipeline upserts the one claim and ends its pass. */
  lemma CloseWorkload(s0: Cluster, before: seq<Event>, s: Cluster, ps: set<Pair>, n: string, w: Workload, key: string)
    returns (es: seq<Event>)
    requires Leads(s0, before, s, ps) && s.pipe == Upsert(n, w, {key}) && key in w.resources && (n, w.uid) in s.held
    requires var name := ClaimName(n, key);
             UpsertClaim(s.store, n, w, key, w.resources[key], if name in s.store.claims then
                 Some(s.store.claims[name]) else None).ok
    ensures var name := ClaimName(n, key);
            var found := if name in s.store.claims then Some(s.store.claims[name]) else None;
            Leads(s0, es, s.(store := UpsertClaim(s.store, n, w, key, w.resources[key], found).store, pipe := Idle), ps)
  {
    Extend(s0, before, s, ps, PipeStep(key));
    var s1 := Apply(s, PipeStep(key));
    Extend(s0, before + [PipeStep(key)], s1, ps, PipeStep(""));
    var s2 := Apply(s1, PipeStep(""));
    assert {key} - {key} == {};
    assert s2.held == s.held;
    Extend(s0, before + [PipeStep(key)] + [PipeStep("")], s2, ps, PipeStep(""));
    es := before + [PipeStep(key)] + [PipeStep("")] + [PipeStep("")];
  }

  /** A marked Workload without claims is released. */
  lemma ReleaseSteps(s: Cluster, n: string)
    requires s.pipe.Idle? && n in s.store.workloads && s.store.workloads[n].marked
    requires s.store.workloads[n].finalizers == [WORKLOAD_FINALIZER] && ClaimsOf(s.store, n) == map[]
    ensures var s1 := Apply(Apply(s, PipeGet(n)), PipeStep(""));
            var s' := Apply(Apply(s1, PipeStep("")), PipeStep(""));
            s'.pipe.Idle? && s'.store.claims == s.store.claims && s'.store.workloads == s.store.workloads - {n}
  {
    var w := s.store.workloads[n];
    var s1 := Apply(Apply(s, PipeGet(n)), PipeStep(""));
    assert s1 == s.(pipe := Dispose(n, w, map[]));
    var s2 := Apply(s1, PipeStep(""));
    assert s2 == s.(pipe := Release(n, w));
    assert Without([WORKLOAD_FINALIZER], WORKLOAD_FINALIZER) == [];
  }

  lemma MarkStep(s: Cluster, n: string)
    requires s.pipe.Idle? && n in s.store.workloads && !s.store.workloads[n].marked
    requires s.store.workloads[n].finalizers == [WORKLOAD_FINALIZER] && ClaimsOf(s.store, n) == map[]
    ensures var s' := Apply(s, UserDelete(n));
            && s'.pipe.Idle? && s'.store.claims == s.store.claims && s'.store.workloads - {n} == s.store.workloads - {n}
            && n in s'.store.workloads && s'.store.workloads[n].marked
            && s'.store.workloads[n].finalizers == [WORKLOAD_FINALIZER] && ClaimsOf(s'.store, n) == map[]
  {
    assert ClaimsOf(Apply(s, UserDelete(n)).store, n) == ClaimsOf(s.store, n);
  }

  lemma DeleteWorkload(s0: Cluster, before: seq<Event>, s: Cluster, ps: set<Pair>, n: string)
    returns (es: seq<Event>, s': Cluster)
    requires Leads(s0, before, s, ps) && s.pipe.Idle? && n in s.store.workloads && !s.store.workloads[n].marked
    requires s.store.workloads[n].finalizers == [WORKLOAD_FINALIZER] && ClaimsOf(s.store, n) == map[]
    ensures Leads(s0, es, s', ps) && s'.pipe.Idle? && s'.store.claims == s.store.claims
    ensures s'.store.workloads == s.store.workloads - {n}
  {
    MarkStep(s, n);
    Extend(s0, before, s, ps, UserDelete(n));
    es, s' := before + [UserDelete(n)], Apply(s, UserDelete(n));
    ReleaseSteps(s', n);
    Extend(s0, es, s', ps, PipeGet(n));
    es, s' := es + [PipeGet(n)], Apply(s', PipeGet(n));
    Extend(s0, es, s', ps, PipeStep(""));
    es, s' := es + [PipeStep("")], Apply(s', PipeStep(""));
    Extend(s0, es, s', ps, PipeStep(""));
    es, s' := es + [PipeStep("")], Apply(s', PipeStep(""));
    Extend(s0, es, s', ps, PipeStep(""));
    es, s' := es + [PipeStep("")], Apply(s', PipeStep(""));
  }

  // ---------------------------------------------------------------- the collision

  /** The claim is in use by a Workload that is neither marked nor gone, and is collected. */
  ghost predicate Robbed(s: Cluster, claim: string) {
    && claim in s.store.claims && claim !in Apply(s, Collect(claim)).store.claims
    && var n := s.store.claims[claim].spec.ref;
       n in s.store.workloads && !s.store.workloads[n].marked
           && s.store.claims[claim].spec.key in s.store.workloads[n].resources
  }

  /** One Workload, unmarked, under its finalizer alone. */
  predicate Plain(s: Cluster, n: string) {
    n in s.store.workloads && !s.store.workloads[n].marked && s.store.workloads[n].finalizers == [WORKLOAD_FINALIZER]
  }

  /** The only claim, owned by the first Workload, refers to the Workload `n` and the key. */
  predicate OneClaim(s: Cluster, name: string, owner: OwnerRef, n: string, key: string) {
    && s.store.claims.Keys == {name}
    && var c := s.store.claims[name];
       c.owners == [owner] && c.finalizers == [] && !c.marked && c.spec.ref == n && c.spec.key == key
  }

  lemma FirstClaims(s0: Cluster, n: string, key: string, r: ResourceSpec, ps: set<Pair>)
    returns (es: seq<Event>, s: Cluster)
    requires s0.pipe.Idle? && s0.store.workloads == map[] && s0.store.claims == map[] && (n, key) in ps
    ensures Leads(s0, es, s, ps) && s.pipe.Idle? && s.store.workloads.Keys == {n} && Plain(s, n)
    ensures OneClaim(s, ClaimName(n, key), OwnerRef("Workload", n, s.store.workloads[n].uid), n, key)
    ensures var c := s.store.claims[ClaimName(n, key)]; c.spec == DesiredSpec(n, key, r) && c.status == NO_STATUS
    ensures s.prov == s0.prov && s.live == s0.live && s.strategies == s0.strategies
  {
    assert Leads(s0, [], s0, ps);
    es := OpenWorkload(s0, [], s0, ps, n, key, r);
    var s1 := Opened(s0, n, key, r);
    es := CloseWorkload(s0, es, s1, ps, n, s1.pipe.w, key);
    s := Run(s0, es);
  }

  lemma SecondTakes(s0: Cluster, before: seq<Event>, s: Cluster, ps: set<Pair>, n: string, key: string, r: ResourceSpec,
      owner: OwnerRef, n0: string, key0: string)
    returns (es: seq<Event>, s': Cluster)
    requires Leads(s0, before, s, ps) && s.pipe.Idle? && n !in s.store.workloads && (n, key) in ps
    requires OneClaim(s, ClaimName(n, key), owner, n0, key0) && n0 != n && Plain(s, n0)
    ensures Leads(s0, es, s', ps) && s'.pipe.Idle? && Plain(s', n0) && Plain(s', n)
    ensures s'.store.workloads[n0] == s.store.workloads[n0] && key in s'.store.workloads[n].resources
    ensures OneClaim(s', ClaimName(n, key), owner, n, key)
  {
    es := OpenWorkload(s0, before, s, ps, n, key, r);
    var s1 := Opened(s, n, key, r);
    es := CloseWorkload(s0, es, s1, ps, n, s1.pipe.w, key);
    s' := Run(s0, es);
  }

  lemma CollisionRobs(strategies: set<string>, n: string, key: string, n': string, key': string, r: ResourceSpec)
    returns (es: seq<Event>)
    requires n != n' && ClaimName(n, key) == ClaimName(n', key')
    ensures AllDeclared(es) <= {(n, key), (n', key')} && SettledRun(Init(strategies), es)
    ensures Robbed(Run(Init(strategies), es), ClaimName(n, key))
  {
    var ps, s0, name := {(n, key), (n', key')}, Init(strategies), ClaimName(n, key);
    var s;
    es, s := FirstClaims(s0, n, key, r, ps);
    var owner := OwnerRef("Workload", n, s.store.workloads[n].uid);
    es, s := SecondTakes(s0, es, s, ps, n', key', r, owner, n, key);
    assert ClaimsOf(s.store, n) == map[];
    var s';
    es, s' := DeleteWorkload(s0, es, s, ps, n);
    CollectRobs(s', name, owner, n', key');
  }

  lemma CollectRobs(s: Cluster, name: string, owner: OwnerRef, n: string, key: string)
    requires OneClaim(s, name, owner, n, key) && owner.name !in s.store.workloads
    requires n in s.store.workloads && !s.store.workloads[n].marked && key in s.store.workloads[n].resources
    ensures Robbed(s, name)
  {
    assert Collectable(s.store, name);
  }

  /** In no run that declares only these resources does the collector take a claim in use. */
  ghost predicate Safe(strategies: set<string>, ps: set<Pair>) {
    forall es, claim :: AllDeclared(es) <= ps && SettledRun(Init(strategies), es) ==>
        !Robbed(Run(Init(strategies), es), claim)
  }

  lemma ApartIsSafe(strategies: set<string>, ps: set<Pair>, es: seq<Event>, claim: string)
    requires Apart(ps) && AllDeclared(es) <= ps && SettledRun(Init(strategies), es)
    ensures !Robbed(Run(Init(strategies), es), claim)
  {
    CollectorIdle(strategies, es, claim);
  }

  /** Exactly the sets of resources with names apart are safe to declare. */
  lemma ApartExactly(strategies: set<string>, ps: set<Pair>)
    ensures Apart(ps) <==> Safe(strategies, ps)
  {
    if Apart(ps) {
      forall es, claim | AllDeclared(es) <= ps && SettledRun(Init(strategies), es)
        ensures !Robbed(Run(Init(strategies), es), claim)
      {
        ApartIsSafe(strategies, ps, es, claim);
      }
    } else {
      var p, q :| p in ps && q in ps && ClaimName(p.0, p.1) == ClaimName(q.0, q.1) && p.0 != q.0;
      var es := CollisionRobs(strategies, p.0, p.1, q.0, q.1, ResourceSpec("", None, None));
      assert {(p.0, p.1), (q.0, q.1)} <= ps;
      assert Robbed(Run(Init(strategies), es), ClaimName(p.0, p.1));
    }
  }

  /** Resources that users may well declare: Workload "a" with key "b-c", Workload "a-b" with key "c". */
  lemma CollisionExample(strategies: set<string>) returns (es: seq<Event>)
    ensures AllDeclared(es) <= {("a", "b-c"), ("a-b", "c")} && SettledRun(Init(strategies), es)
    ensures Robbed(Run(Init(strategies), es), "a-b-c")
  {
    assert |"a"| != |"a-b"| && ClaimName("a", "b-c") == "a-b-c" == ClaimName("a-b", "c");
    es := CollisionRobs(strategies, "a", "b-c", "a-b", "c", ResourceSpec("postgres", None, None));
  }
}
