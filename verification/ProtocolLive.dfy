/** No claim leaves its infrastructure behind: whatever a strategy created for a claim is torn
    down before the claim disappears, as long as the claim keeps its resource type. */
module ProtocolLive {
  import opened Api
  import opened Lifecycle
  import opened Protocol
  import opened ProtocolClaims

  /** The claim that the resource belongs to is stored, finalized and of the resource's type. */
  predicate Anchored(s: Cluster, r: Resource) {
    && r.typ in s.strategies
    && r.claim in s.store.claims && s.store.claims[r.claim].uid == r.uid
    && HasFinalizer(s.store.claims[r.claim])
    && s.store.claims[r.claim].spec.typ == r.typ
  }

  /** A pass works on a copy of the right type, and is about to let go only of a claim without resources. */
  predicate PassTyped(s: Cluster, name: string, p: Prov) {
    && (name in s.store.claims && s.store.claims[name].uid == p.c.uid ==> s.store.claims[name].spec.typ == p.c.spec.typ)
    && (p.Recover? ==> p.c.spec.typ in s.strategies)
    && (p.Drop? ==> forall r :: r in s.live ==> r.claim != name || r.uid != p.c.uid)
  }

  /** Nothing of this claim is out of its reach. */
  predicate LiveAt(s: Cluster, claim: string) {
    && (forall r :: r in s.live && r.claim == claim ==> Anchored(s, r))
    && (claim in s.prov ==> PassTyped(s, claim, s.prov[claim]))
  }

  // ---------------------------------------------------------------- everybody else

  /** The claim keeps its type, and with the finalizer it stays. */
  ghost predicate TypeKept(st: Store, st': Store, name: string) {
    && (name in st'.claims ==>
          (name in st.claims && st'.claims[name].uid == st.claims[name].uid
              && st'.claims[name].spec.typ == st.claims[name].spec.typ)
          || st'.claims[name].uid >= st.nextUid)
    && Guarded(st, st', name)
  }

  /** Neither the pass on the claim nor its resources changed. */
  ghost predicate Aside(s: Cluster, s': Cluster, claim: string) {
    && s'.strategies == s.strategies && (claim in s'.prov <==> claim in s.prov)
    && (claim in s.prov && claim in s'.prov ==> s'.prov[claim] == s.prov[claim])
    && (forall r: Resource :: r.claim == claim ==> (r in s'.live <==> r in s.live))
  }

  lemma LiveFrame(s: Cluster, s': Cluster, claim: string)
    requires Core(s) && LiveAt(s, claim) && Aside(s, s', claim) && TypeKept(s.store, s'.store, claim)
    ensures LiveAt(s', claim)
  {
    forall r | r in s'.live && r.claim == claim ensures Anchored(s', r) {
      assert Anchored(s, r);
    }
    if claim in s'.prov {
      assert ProvOk(s, claim, s.prov[claim]);
    }
  }

  lemma UserTypeKept(st: Store, e: Event, name: string)
    requires ClaimsOk(st)
    ensures TypeKept(st, User(st, e), name)
  {
  }

  lemma DeleteTypeKept(st: Store, claim: string, name: string)
    requires ClaimsOk(st)
    ensures TypeKept(st, DeleteClaim(st, claim).store, name)
  {
  }

  lemma UpsertTypeKept(st: Store, n: string, w: Workload, key: string, r: ResourceSpec, found: Option<Claim>,
      name: string)
    requires ClaimsOk(st) && (found.Some? ==> Snapshot(st, ClaimName(n, key), found.value))
    requires found.Some? && ClaimName(n, key) == name && name in st.claims && st.claims[name].rv == found.value.rv ==>
        found.value.spec.typ == r.typ
    ensures TypeKept(st, UpsertClaim(st, n, w, key, r, found).store, name)
  {
  }

  lemma DisposeTypeKept(st: Store, n: string, claim: string, c: Claim, name: string)
    requires ClaimsOk(st) && Snapshot(st, claim, c)
    ensures TypeKept(st, DisposeClaim(st, n, claim, c).store, name)
  {
  }

  lemma PipeTypeKept(s: Cluster, choice: string, name: string)
    requires Core(s) && !Retypes(s, PipeStep(choice), name)
    ensures TypeKept(s.store, PipeNext(s.store, s.pipe, choice).store, name)
  {
    var p := s.pipe;
    if p.Found? {
      if p.key in p.w.resources { UpsertTypeKept(s.store, p.n, p.w, p.key, p.w.resources[p.key], p.found, name); }
    } else if p.Dispose? && choice in p.rem {
      DisposeTypeKept(s.store, p.n, choice, p.rem[choice], name);
    }
  }

  /** The stored claim is the same. */
  predicate SameStored(st: Store, st': Store, claim: string) {
    && (claim in st'.claims <==> claim in st.claims)
    && (claim in st.claims && claim in st'.claims ==> st'.claims[claim] == st.claims[claim])
  }

  lemma OtherProvision(s: Cluster, name: string, c: Claim, r: ProvisionResult, h: HealthResult, claim: string)
    requires name != claim
    ensures Aside(s, Provision(s, name, c, r, h), claim) && Provision(s, name, c, r, h).store == s.store
  {
  }

  lemma OtherRead(s: Cluster, name: string, c: Claim, r: ProvisionResult, h: HealthResult, d: bool, claim: string)
    requires name != claim
    ensures Aside(s, ProvNext(s, name, Read(c), r, h, d), claim)
    ensures SameStored(s.store, ProvNext(s, name, Read(c), r, h, d).store, claim)
  {
    OtherProvision(s, name, c, r, h, claim);
  }

  lemma OtherStep(s: Cluster, name: string, p: Prov, r: ProvisionResult, h: HealthResult, d: bool, claim: string)
    requires name != claim && !p.Read?
    ensures Aside(s, ProvNext(s, name, p, r, h, d), claim)
    ensures SameStored(s.store, ProvNext(s, name, p, r, h, d).store, claim)
  {
  }

  /** A step of a pass on another claim. */
  lemma OtherAside(s: Cluster, e: Event, claim: string)
    requires (e.ProvGet? || e.ProvStep? || e.ProvAbort?) && e.claim != claim
    ensures Aside(s, Apply(s, e), claim) && SameStored(s.store, Apply(s, e).store, claim)
  {
    if e.ProvStep? && e.claim in s.prov {
      var p := s.prov[e.claim];
      if p.Read? {
        OtherRead(s, e.claim, p.c, e.provision, e.health, e.deprovisioned, claim);
      } else {
        OtherStep(s, e.claim, p, e.provision, e.health, e.deprovisioned, claim);
      }
    }
  }

  // ---------------------------------------------------------------- the pass on the claim

  lemma LiveStatus(s: Cluster, name: string, c: Claim, status: ClaimStatus)
    requires LiveAt(s, name) && name in s.prov && Kept(s.store, name, c)
    ensures LiveAt(EndProv(s.(store := UpdateClaimStatus(s.store, name, c.rv, status).store), name), name)
  {
    var s' := EndProv(s.(store := UpdateClaimStatus(s.store, name, c.rv, status).store), name);
    forall r | r in s'.live && r.claim == name ensures Anchored(s', r) {
      assert Anchored(s, r);
    }
  }

  lemma LiveDrop(s: Cluster, name: string, c: Claim)
    requires Core(s) && LiveAt(s, name) && name in s.prov && s.prov[name] == Drop(c)
    ensures
      var st' := UpdateClaim(s.store, name, c.(finalizers := Without(c.finalizers, CLAIM_FINALIZER))).store;
      LiveAt(EndProv(s.(store := st'), name), name)
  {
    assert ProvOk(s, name, Drop(c)) && PassTyped(s, name, Drop(c));
    if s.store.claims[name].rv == c.rv {
      forall r | r in s.live ensures r.claim != name {
        assert r.claim == name ==> Anchored(s, r);
      }
    }
  }

  lemma LiveProvision(s: Cluster, name: string, c: Claim, r: ProvisionResult)
    requires LiveAt(s, name) && name in s.prov && s.prov[name].c == c
    requires Kept(s.store, name, c) && c.spec.typ in s.strategies
    ensures LiveAt(CallProvision(s, name, c, r), name)
  {
    assert PassTyped(s, name, s.prov[name]);
    var s' := CallProvision(s, name, c, r);
    forall x | x in s'.live && x.claim == name ensures Anchored(s', x) {
      assert x in s.live ==> Anchored(s, x);
    }
  }

  /** The pass moved on without a call that changes anything. */
  lemma LiveMoves(s: Cluster, name: string, p: Prov)
    requires LiveAt(s, name) && PassTyped(s, name, p)
    ensures LiveAt(SetProv(s, name, p), name)
  {
    forall r | r in s.live && r.claim == name ensures Anchored(SetProv(s, name, p), r) {
      assert Anchored(s, r);
    }
  }

  lemma LiveHandler(s: Cluster, name: string, c: Claim, r: ProvisionResult, h: HealthResult)
    requires LiveAt(s, name) && name in s.prov && s.prov[name] == Read(c) && Kept(s.store, name, c)
    ensures LiveAt(Provision(s, name, c, r, h), name)
  {
    assert PassTyped(s, name, s.prov[name]);
    if c.spec.typ in s.strategies && (c.status.phase.Unset? || c.status.phase.Pending?) {
      LiveProvision(s, name, c, r);
    } else {
      LiveMoves(s, name, Provision(s, name, c, r, h).prov[name]);
    }
  }

  lemma LiveDeletion(s: Cluster, name: string, c: Claim, r: ProvisionResult, h: HealthResult, d: bool)
    requires LiveAt(s, name) && name in s.prov && s.prov[name] == Read(c) && Kept(s.store, name, c) && c.marked
        && HasFinalizer(c)
    ensures LiveAt(ProvNext(s, name, Read(c), r, h, d), name)
  {
    assert PassTyped(s, name, s.prov[name]);
    forall x | x in s.live && x.claim == name
      ensures x == Resource(name, c.uid, c.spec.typ) && c.spec.typ in s.strategies
          && Anchored(ProvNext(s, name, Read(c), r, h, d), x)
    {
      assert Anchored(s, x);
    }
  }

  lemma LiveArm(s: Cluster, name: string, c: Claim)
    requires LiveAt(s, name) && name in s.prov && s.prov[name] == Read(c) && !c.marked && Snapshot(s.store, name, c)
    requires name in s.store.claims && s.store.claims[name].rv == c.rv
    ensures
      var st' := UpdateClaim(s.store, name, c.(finalizers := c.finalizers + [CLAIM_FINALIZER])).store;
      name in st'.claims && LiveAt(SetProv(s.(store := st'), name, Armed(st'.claims[name])), name)
  {
    var st' := UpdateClaim(s.store, name, c.(finalizers := c.finalizers + [CLAIM_FINALIZER])).store;
    forall r | r in s.live && r.claim == name
      ensures Anchored(SetProv(s.(store := st'), name, Armed(st'.claims[name])), r)
    {
      assert Anchored(s, r);
    }
  }

  /** The pass is over without a further write. */
  lemma LiveEnds(s: Cluster, name: string)
    requires LiveAt(s, name)
    ensures LiveAt(EndProv(s, name), name)
  {
    forall r | r in s.live && r.claim == name ensures Anchored(EndProv(s, name), r) {
      assert Anchored(s, r);
    }
  }

  lemma LiveRead(s: Cluster, name: string, c: Claim, r: ProvisionResult, h: HealthResult, d: bool)
    requires Core(s) && LiveAt(s, name) && name in s.prov && s.prov[name] == Read(c)
    ensures LiveAt(ProvNext(s, name, Read(c), r, h, d), name)
  {
    assert ProvOk(s, name, Read(c));
    LiveEnds(s, name);
    if ShouldReconcile(c) {
      if c.marked {
        LiveDeletion(s, name, c, r, h, d);
      } else if HasFinalizer(c) {
        LiveHandler(s, name, c, r, h);
      } else if name in s.store.claims && s.store.claims[name].rv == c.rv {
        LiveArm(s, name, c);
      }
    }
  }

  lemma LiveProv(s: Cluster, name: string, r: ProvisionResult, h: HealthResult, d: bool)
    requires Core(s) && LiveAt(s, name) && name in s.prov
    ensures LiveAt(ProvNext(s, name, s.prov[name], r, h, d), name)
  {
    var p := s.prov[name];
    assert ProvOk(s, name, p) && PassTyped(s, name, p);
    if p.Read? {
      LiveRead(s, name, p.c, r, h, d);
    } else if p.Armed? {
      LiveStatus(s, name, p.c, Unbound(p.c, Pending, "ClaimPending", "Initializing resource claim"));
    } else if p.Recover? {
      LiveProvision(s, name, p.c, r);
    } else if p.Write? {
      LiveStatus(s, name, p.c, p.status);
    } else {
      LiveDrop(s, name, p.c);
    }
  }

  lemma LiveOwn(s: Cluster, e: Event)
    requires (e.ProvGet? || e.ProvStep? || e.ProvAbort?) && Core(s) && LiveAt(s, e.claim)
    ensures LiveAt(Apply(s, e), e.claim)
  {
    if e.ProvStep? {
      if e.claim in s.prov { LiveProv(s, e.claim, e.provision, e.health, e.deprovisioned); }
    } else if e.ProvAbort? {
      LiveEnds(s, e.claim);
    } else if e.claim !in s.prov && e.claim in s.store.claims {
      LiveMoves(s, e.claim, Read(s.store.claims[e.claim]));
    }
  }

  // ---------------------------------------------------------------- every event, every run

  lemma LiveEvent(s: Cluster, e: Event, claim: string)
    requires Core(s) && LiveAt(s, claim) && !Retypes(s, e, claim)
    ensures LiveAt(Apply(s, e), claim)
  {
    if e.ProvGet? || e.ProvStep? || e.ProvAbort? {
      if e.claim == claim {
        LiveOwn(s, e);
      } else {
        OtherAside(s, e, claim);
        LiveFrame(s, Apply(s, e), claim);
      }
    } else {
      if e.PipeStep? {
        PipeTypeKept(s, e.choice, claim);
      } else if e.Collect? {
        DeleteTypeKept(s.store, e.claim, claim);
      } else {
        UserTypeKept(s.store, e, claim);
      }
      LiveFrame(s, Apply(s, e), claim);
    }
  }

  lemma {:induction false} LiveRun(s: Cluster, es: seq<Event>, claim: string)
    requires Core(s) && LiveAt(s, claim) && TypedRun(s, es, claim)
    ensures LiveAt(Run(s, es), claim)
    decreases |es|
  {
    if es != [] {
      EventKeepsCore(s, es[0]);
      LiveEvent(s, es[0], claim);
      LiveRun(Apply(s, es[0]), es[1..], claim);
    }
  }

  /** Whatever Provision was called for and Deprovision has not yet succeeded for belongs to a
      claim that is still stored and still carries the provisioner's finalizer, in every run
      that does not retype this claim. */
  lemma NothingLeaks(strategies: set<string>, es: seq<Event>, r: Resource)
    requires TypedRun(Init(strategies), es, r.claim)
    requires r in Run(Init(strategies), es).live
    ensures
      var st := Run(Init(strategies), es).store;
      && r.claim in st.claims && st.claims[r.claim].uid == r.uid
      && HasFinalizer(st.claims[r.claim]) && st.claims[r.claim].spec.typ == r.typ
  {
    LiveRun(Init(strategies), es, r.claim);
    assert Anchored(Run(Init(strategies), es), r);
  }
}
