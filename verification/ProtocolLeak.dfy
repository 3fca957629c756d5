/** The hypothesis on types is needed: exactly an accepted retyping of a claim endangers what was
    created for it. */
module ProtocolLeak {
  import opened Api
  import opened Lifecycle
  import opened Protocol
  import opened ProtocolClaims
  import opened ProtocolCollision
  import opened ProtocolLive
  import opened ProtocolNames

  /** The resource exists and its claim does not. */
  predicate Leaked(s: Cluster, r: Resource) {
    r in s.live && (r.claim in s.store.claims ==> s.store.claims[r.claim].uid != r.uid)
  }

  /** The run retypes the resource's claim nowhere and ends with the resource left behind. */
  ghost predicate LeaksBy(s: Cluster, es: seq<Event>, r: Resource) {
    TypedRun(s, es, r.claim) && Leaked(Run(s, es), r)
  }

  lemma TypedCons(s: Cluster, e: Event, es: seq<Event>, claim: string)
    requires !e.PipeStep?
    ensures Run(s, [e] + es) == Run(Apply(s, e), es)
    ensures TypedRun(s, [e] + es, claim) <==> TypedRun(Apply(s, e), es, claim)
  {
    assert ([e] + es)[1..] == es;
  }

  // ---------------------------------------------------------------- after a retyping

  /** What a deletion pass tears down is decided by the claim's present type. */
  lemma TeardownExactly(s: Cluster, claim: string, c: Claim, r: Resource, p: ProvisionResult, h: HealthResult)
    requires claim in s.prov && s.prov[claim] == Read(c) && claim in s.store.claims && s.store.claims[claim] == c
    requires c.marked && c.finalizers == [CLAIM_FINALIZER] && r in s.live && r.claim == claim && r.uid == c.uid
    ensures
      var s' := Apply(Apply(s, ProvStep(claim, p, h, true)), ProvStep(claim, p, h, true));
      claim !in s'.store.claims && (r in s'.live <==> r.typ != c.spec.typ || c.spec.typ !in s.strategies)
  {
    var s1 := Apply(s, ProvStep(claim, p, h, true));
    assert s1.prov[claim] == Drop(c) && s1.store == s.store;
    assert Without([CLAIM_FINALIZER], CLAIM_FINALIZER) == [];
  }

  /** The claim is marked and left with the provisioner's finalizer only. */
  lemma Doom(s: Cluster, claim: string)
    requires claim in s.store.claims && HasFinalizer(s.store.claims[claim])
    ensures var s' := Apply(Apply(s, UserDeleteClaim(claim)), ClaimFinalizers(claim, [CLAIM_FINALIZER]));
            && s' == s.(store := s'.store) && claim in s'.store.claims
            && var c, c' := s.store.claims[claim], s'.store.claims[claim];
               c'.marked && c'.finalizers == [CLAIM_FINALIZER] && c'.uid == c.uid && c'.spec == c.spec
  {
    var s1 := Apply(s, UserDeleteClaim(claim));
    assert claim in s1.store.claims && s1.store.claims[claim].marked;
    assert ForeignEdit(s1.store.claims[claim].finalizers, [CLAIM_FINALIZER], CLAIM_FINALIZER, true);
  }

  lemma WrongTypeLeaks(s: Cluster, r: Resource) returns (es: seq<Event>)
    requires r in s.live && r.claim in s.store.claims
    requires var c := s.store.claims[r.claim]; c.uid == r.uid && HasFinalizer(c) && c.spec.typ != r.typ
    ensures TypedRun(s, es, r.claim) && Leaked(Run(s, es), r)
  {
    var claim := r.claim;
    var e1, e2 := UserDeleteClaim(claim), ClaimFinalizers(claim, [CLAIM_FINALIZER]);
    var step := ProvStep(claim, ProvisionError(""), HealthError(""), true);
    Doom(s, claim);
    var s2 := Apply(Apply(s, e1), e2);
    var s3 := Apply(s2, ProvAbort(claim));
    var s4 := Apply(s3, ProvGet(claim));
    TeardownExactly(s4, claim, s2.store.claims[claim], r, ProvisionError(""), HealthError(""));
    TypedCons(Apply(s4, step), step, [], claim);
    TypedCons(s4, step, [step] + [], claim);
    es := [step] + ([step] + []);
    TypedCons(s3, ProvGet(claim), es, claim);
    es := [ProvGet(claim)] + es;
    TypedCons(s2, ProvAbort(claim), es, claim);
    es := [ProvAbort(claim)] + es;
    TypedCons(Apply(s, e1), e2, es, claim);
    es := [e2] + es;
    TypedCons(s, e1, es, claim);
    es := [e1] + es;
  }

  /** An accepted retyping keeps the claim's uid and finalizer. */
  lemma Retyped(s: Cluster, e: Event, r: Resource)
    requires Core(s) && LiveAt(s, r.claim) && r in s.live && Retypes(s, e, r.claim)
    ensures var s' := Apply(s, e);
            && r in s'.live && r.claim in s'.store.claims
            && var c := s'.store.claims[r.claim]; c.uid == r.uid && HasFinalizer(c) && c.spec.typ != r.typ
  {
    assert Anchored(s, r) && Snapshot(s.store, r.claim, s.pipe.found.value);
  }

  /** In every state of the invariants, an event endangers a live resource, in a run that is
      otherwise typed, exactly when it is an accepted retyping of the resource's claim. */
  lemma LeakExactly(s: Cluster, e: Event, r: Resource)
    requires Core(s) && LiveAt(s, r.claim) && r in s.live
    ensures Retypes(s, e, r.claim) <==>
            exists es :: LeaksBy(Apply(s, e), es, r)
  {
    var s' := Apply(s, e);
    if Retypes(s, e, r.claim) {
      Retyped(s, e, r);
      var es := WrongTypeLeaks(s', r);
      assert LeaksBy(s', es, r);
    } else {
      EventKeepsCore(s, e);
      LiveEvent(s, e, r.claim);
      forall es ensures !LeaksBy(s', es, r) {
        TypedNeverLeaks(s', es, r);
      }
    }
  }

  lemma TypedNeverLeaks(s: Cluster, es: seq<Event>, r: Resource)
    requires Core(s) && LiveAt(s, r.claim)
    ensures !LeaksBy(s, es, r)
  {
    if TypedRun(s, es, r.claim) {
      LiveRun(s, es, r.claim);
      assert r in Run(s, es).live ==> Anchored(Run(s, es), r);
    }
  }

  // ---------------------------------------------------------------- a run that leaks

  /** The provisioner adopts a new claim. */
  lemma Adopt(s: Cluster, name: string, r: ProvisionResult, h: HealthResult)
    requires name in s.store.claims && name !in s.prov
    requires var c := s.store.claims[name]; !c.marked && c.finalizers == [] && c.status.phase.Unset?
    ensures var e := ProvStep(name, r, h, true);
            var s' := Apply(Apply(Apply(s, ProvGet(name)), e), e);
            && s' == s.(store := s'.store) && s'.store.workloads == s.store.workloads && name in s'.store.claims
            && var c, c' := s.store.claims[name], s'.store.claims[name];
               !c'.marked && c'.finalizers == [CLAIM_FINALIZER] && c'.status.phase.Pending? && c'.uid == c.uid
                   && c'.spec == c.spec
  {
    var e := ProvStep(name, r, h, true);
    var c := s.store.claims[name];
    assert Apply(s, ProvGet(name)).prov[name] == Read(c);
    assert c.finalizers + [CLAIM_FINALIZER] == [CLAIM_FINALIZER];
    var s2 := Apply(Apply(s, ProvGet(name)), e);
    assert s2.prov[name].Armed? && s2.prov - {name} == s.prov;
  }

  /** The provisioner calls the strategy for it. */
  lemma Call(s: Cluster, name: string, r: ProvisionResult, h: HealthResult)
    requires name in s.store.claims && name !in s.prov
    requires var c := s.store.claims[name];
             !c.marked && HasFinalizer(c) && c.status.phase.Pending? && c.spec.typ in s.strategies
    ensures var e := ProvStep(name, r, h, true);
            var s' := Apply(Apply(s, ProvGet(name)), e);
            var c := s.store.claims[name];
            s'.store == s.store && s'.pipe == s.pipe && s'.live == s.live + {Resource(name, c.uid, c.spec.typ)}
  {
    assert Apply(s, ProvGet(name)).prov[name] == Read(s.store.claims[name]);
  }

  /** The user gives the resource another type, and the pipeline is about to store it. */
  lemma Edit(s: Cluster, n: string, key: string, r: ResourceSpec)
    requires s.pipe.Idle? && Plain(s, n) && ClaimName(n, key) in s.store.claims
    requires s.store.claims[ClaimName(n, key)].spec.typ != r.typ
    ensures var s' := Apply(Apply(Apply(Apply(s, UserEdit(n, Resources(key, r))), PipeGet(n)), PipeStep("")),
        PipeStep(key));
            s'.store.claims == s.store.claims && s'.live == s.live && Retypes(s', PipeStep(""), ClaimName(n, key))
            && s'.pipe.found == Some(s.store.claims[ClaimName(n, key)])
  {
    var s1 := Apply(s, UserEdit(n, Resources(key, r)));
    var w := s1.store.workloads[n];
    var s3 := Apply(Apply(s1, PipeGet(n)), PipeStep(""));
    assert s3.pipe == Upsert(n, w, {key}) && s3.store == s1.store;
  }

  /** A claim is created and its strategy called. */
  lemma ProvisionedReachable(s0: Cluster, n: string, key: string, r: ResourceSpec) returns (es: seq<Event>, s: Cluster)
    requires s0 == Init(s0.strategies) && r.typ in s0.strategies
    ensures Leads(s0, es, s, {(n, key)}) && s.pipe.Idle? && Plain(s, n)
    ensures var name := ClaimName(n, key);
            && name in s.store.claims && s.store.claims[name].spec.typ == r.typ && HasFinalizer(s.store.claims[name])
            && Resource(name, s.store.claims[name].uid, r.typ) in s.live
  {
    var name, ps, q, h := ClaimName(n, key), {(n, key)}, ProvisionError(""), HealthError("");
    var e := ProvStep(name, q, h, true);
    es, s := FirstClaims(s0, n, key, r, ps);
    Adopt(s, name, q, h);
    Follow2(s0, es, s, ps, ProvGet(name), e);
    es, s := es + [ProvGet(name)] + [e], Apply(Apply(s, ProvGet(name)), e);
    Extend(s0, es, s, ps, e);
    es, s := es + [e], Apply(s, e);
    Call(s, name, q, h);
    Follow2(s0, es, s, ps, ProvGet(name), e);
    es, s := es + [ProvGet(name)] + [e], Apply(Apply(s, ProvGet(name)), e);
  }

  /** From the beginning: a claim is created and provisioned, its resource is retyped, and the
      claim's disappearance leaves the infrastructure behind. */
  lemma LeakReachable(strategies: set<string>, n: string, key: string, typ: string, other: string)
    returns (es: seq<Event>, r: Resource)
    requires typ in strategies && typ != other
    ensures Leaked(Run(Init(strategies), es), r)
  {
    var s0, s, ps, other := Init(strategies), Init(strategies), {(n, key)}, ResourceSpec(other, None, None);
    es, s := ProvisionedReachable(s0, n, key, ResourceSpec(typ, None, None));
    r := Resource(ClaimName(n, key), s.store.claims[ClaimName(n, key)].uid, typ);
    Edit(s, n, key, other);
    var e := UserEdit(n, Resources(key, other));
    assert Declared(e) <= ps;
    Follow2(s0, es, s, ps, e, PipeGet(n));
    es, s := es + [e] + [PipeGet(n)], Apply(Apply(s, e), PipeGet(n));
    Follow2(s0, es, s, ps, PipeStep(""), PipeStep(key));
    es, s := es + [PipeStep("")] + [PipeStep(key)], Apply(Apply(s, PipeStep("")), PipeStep(key));
    Extend(s0, es, s, ps, PipeStep(""));
    RetypeStep(s, n, key, r);
    var rest := WrongTypeLeaks(Apply(s, PipeStep("")), r);
    es := es + [PipeStep("")];
    RunAppend(s0, es, rest);
    es := es + rest;
  }

  lemma RetypeStep(s: Cluster, n: string, key: string, r: Resource)
    requires Retypes(s, PipeStep(""), ClaimName(n, key)) && r in s.live && r.claim == ClaimName(n, key)
    requires var c := s.store.claims[r.claim]; c.uid == r.uid && HasFinalizer(c) && c.spec.typ == r.typ
    requires s.pipe.found == Some(s.store.claims[r.claim])
    ensures var s' := Apply(s, PipeStep(""));
            && r in s'.live && r.claim in s'.store.claims
            && var c := s'.store.claims[r.claim]; c.uid == r.uid && HasFinalizer(c) && c.spec.typ != r.typ
  {
  }
}
