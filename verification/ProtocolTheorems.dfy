/** Safety of whole runs: how Workloads leave, what the garbage collector may touch, and what
    the status of a claim means. */
module ProtocolTheorems {
  import opened Api
  import opened Lifecycle
  import opened Protocol
  import opened ProtocolClaims
  import opened ProtocolNames
  import opened ProtocolSafety

  /** Runs in which the resources that users declare have names apart and no policy is edited
      while its Workload is being deleted. */
  ghost predicate Orderly(strategies: set<string>, es: seq<Event>) {
    Apart(AllDeclared(es)) && SettledRun(Init(strategies), es)
  }

  lemma Reachable(strategies: set<string>, es: seq<Event>)
    requires Orderly(strategies, es)
    ensures Inv(Run(Init(strategies), es))
  {
    TameByNames(strategies, es);
    RunKeeps(Init(strategies), es);
  }

  // ---------------------------------------------------------------- leaving

  /** The Workload with this name and uid is in the store. */
  predicate Present(st: Store, n: string, uid: nat) {
    n in st.workloads && st.workloads[n].uid == uid
  }

  lemma ProvLeavesWorkloads(s: Cluster, e: Event)
    requires e.ProvStep?
    ensures Apply(s, e).store.workloads == s.store.workloads
  {
  }

  lemma PassLeavesWorkloads(st: Store, p: Pipe, choice: string)
    requires p.Upsert? || p.Found? || p.Dispose?
    ensures PipeNext(st, p, choice).store.workloads == st.workloads
  {
  }

  lemma PipeRemoves(st: Store, p: Pipe, choice: string, n: string, uid: nat)
    requires PipeOk(st, p) && Present(st, n, uid) && !Present(PipeNext(st, p, choice).store, n, uid)
    ensures p.Release? && p.n == n && PipeNext(st, p, choice).store.claims == st.claims
  {
    if p.Upsert? || p.Found? || p.Dispose? { PassLeavesWorkloads(st, p, choice); }
  }

  lemma UserRemoves(st: Store, e: Event, n: string, uid: nat)
    requires StoreOk(st) && Present(st, n, uid) && !Present(User(st, e), n, uid)
    ensures User(st, e).claims == st.claims
    ensures WORKLOAD_FINALIZER !in st.workloads[n].finalizers
  {
  }

  /** Only a user, the owner of a foreign finalizer, or the last step of the deletion phase
      makes a Workload disappear, and none of them touches a claim. */
  lemma WhoRemoves(s: Cluster, e: Event, n: string, uid: nat)
    requires Inv(s) && Present(s.store, n, uid) && !Present(Apply(s, e).store, n, uid)
    ensures Apply(s, e).store.claims == s.store.claims
    ensures WORKLOAD_FINALIZER in s.store.workloads[n].finalizers ==> e.PipeStep? && s.pipe.Release? && s.pipe.n == n
  {
    if e.PipeStep? {
      PipeRemoves(s.store, s.pipe, e.choice, n, uid);
    } else if e.ProvStep? {
      ProvLeavesWorkloads(s, e);
    } else {
      UserRemoves(s.store, e, n, uid);
    }
  }

  /** A Workload that ever carried the finalizer leaves the store only when none of its claims
      with effective policy Delete remains and none of its claims has an owner any more. */
  lemma LeavesClean(strategies: set<string>, es: seq<Event>, e: Event, n: string, uid: nat)
    requires Orderly(strategies, es)
    requires
      var s := Run(Init(strategies), es);
      && Present(s.store, n, uid) && (n, uid) in s.held
      && !Present(Apply(s, e).store, n, uid)
    ensures Clear(Apply(Run(Init(strategies), es), e).store, n)
    ensures var claims := Apply(Run(Init(strategies), es), e).store.claims;
            forall name :: name in claims && claims[name].spec.ref == n ==>
              && claims[name].owners == []
              && (claims[name].spec.policy == Some(Retain) || claims[name].spec.policy == Some(Orphan))
  {
    var s := Run(Init(strategies), es);
    Reachable(strategies, es);
    WhoRemoves(s, e, n, uid);
  }

  /** Garbage collection never changes anything: a claim that lost its owner reference is no
      dependent, and a claim that has one has a living owner. */
  lemma CollectorIdle(strategies: set<string>, es: seq<Event>, claim: string)
    requires Orderly(strategies, es)
    ensures
      var s := Run(Init(strategies), es);
      Apply(s, Collect(claim)) == s
  {
    Reachable(strategies, es);
    NothingToCollect(Run(Init(strategies), es), claim);
  }

  /** A claim that has an owner has exactly the Workload it refers to, stored and finalized. */
  lemma OwnerStays(strategies: set<string>, es: seq<Event>, claim: string, o: OwnerRef)
    requires Orderly(strategies, es)
    requires
      var st := Run(Init(strategies), es).store;
      claim in st.claims && o in st.claims[claim].owners
    ensures
      var st := Run(Init(strategies), es).store;
      && o.name == st.claims[claim].spec.ref && Present(st, o.name, o.uid)
      && WORKLOAD_FINALIZER in st.workloads[o.name].finalizers
  {
    Reachable(strategies, es);
  }

  // ---------------------------------------------------------------- spared claims

  /** The claim is there and is not to be removed. */
  predicate Standing(st: Store, claim: string, uid: nat) {
    claim in st.claims && st.claims[claim].uid == uid && !st.claims[claim].marked
  }

  lemma UserSpares(st: Store, e: Event, claim: string, uid: nat)
    requires Standing(st, claim, uid) && e != UserDeleteClaim(claim)
    ensures Standing(User(st, e), claim, uid)
  {
  }

  lemma DisposeSpares(st: Store, n: string, name: string, c: Claim, claim: string, uid: nat)
    requires Standing(st, claim, uid) && Snapshot(st, name, c)
    requires name == claim ==> EffectivePolicy(c.spec) != Delete
    ensures Standing(DisposeClaim(st, n, name, c).store, claim, uid)
  {
  }

  lemma PipeSpares(st: Store, p: Pipe, choice: string, claim: string, uid: nat)
    requires PipeOk(st, p) && Standing(st, claim, uid) && EffectivePolicy(st.claims[claim].spec) != Delete
    ensures Standing(PipeNext(st, p, choice).store, claim, uid)
  {
    if p.Dispose? && choice in p.rem { DisposeSpares(st, p.n, choice, p.rem[choice], claim, uid); }
  }

  lemma ProvSpares(s: Cluster, name: string, r: ProvisionResult, h: HealthResult, d: bool, claim: string, uid: nat)
    requires name in s.prov && ProvOk(s, name, s.prov[name]) && Standing(s.store, claim, uid)
    ensures Standing(ProvNext(s, name, s.prov[name], r, h, d).store, claim, uid)
  {
    ProvStores(s, name, s.prov[name], r, h, d);
    if name == claim { ProvSparesOwn(s, name, s.prov[name], r, h, d); }
  }

  lemma ProvSparesOwn(s: Cluster, name: string, p: Prov, r: ProvisionResult, h: HealthResult, d: bool)
    requires ProvOk(s, name, p) && name in s.store.claims && !s.store.claims[name].marked
    ensures Standing(ProvNext(s, name, p, r, h, d).store, name, s.store.claims[name].uid)
  {
  }

  /** In every run: a claim that is to be retained or orphaned is neither removed nor marked by
      anybody but the user who deletes it, whatever becomes of its Workload. */
  lemma SparedSurvives(strategies: set<string>, es: seq<Event>, e: Event, claim: string, uid: nat)
    requires Orderly(strategies, es) && e != UserDeleteClaim(claim)
    requires var st := Run(Init(strategies), es).store;
             && Standing(st, claim, uid)
             && (st.claims[claim].spec.policy == Some(Retain) || st.claims[claim].spec.policy == Some(Orphan))
    ensures Standing(Apply(Run(Init(strategies), es), e).store, claim, uid)
  {
    var s := Run(Init(strategies), es);
    Reachable(strategies, es);
    if e.PipeStep? {
      PipeSpares(s.store, s.pipe, e.choice, claim, uid);
    } else if e.ProvStep? {
      if e.claim in s.prov { ProvSpares(s, e.claim, e.provision, e.health, e.deprovisioned, claim, uid); }
    } else if e.Collect? {
      NothingToCollect(s, e.claim);
    } else if !e.PipeGet? && !e.PipeAbort? && !e.ProvGet? && !e.ProvAbort? {
      UserSpares(s.store, e, claim, uid);
    }
  }

  // ---------------------------------------------------------------- claim status

  /** In every reachable state a claim is Bound exactly when its outputs are available, present
      and valid, and then they are outputs that a Provision call returned for this very claim. */
  lemma BoundMeansGranted(strategies: set<string>, es: seq<Event>, claim: string)
    requires claim in Run(Init(strategies), es).store.claims
    ensures
      var s := Run(Init(strategies), es);
      var c := s.store.claims[claim];
      && StatusOk(c.status)
      && (c.status.phase == Bound <==> c.status.available) && (c.status.available <==> c.status.outputs.Some?)
      && (c.status.outputs.Some? ==> ValidOutputs(c.status.outputs))
      && (c.status.phase.Bound? ==> Grant(claim, c.uid, c.status.outputs.value) in s.granted)
  {
    CoreReachable(strategies, es);
    var s := Run(Init(strategies), es);
    assert Granted(s, claim, s.store.claims[claim].uid, s.store.claims[claim].status);
  }

  predicate SameClaim(st: Store, st': Store, claim: string) {
    claim in st.claims && claim in st'.claims && st.claims[claim].uid == st'.claims[claim].uid
  }

  lemma ReadKeepsStatus(s: Cluster, name: string, c: Claim, r: ProvisionResult, h: HealthResult, d: bool, claim: string)
    requires SameClaim(s.store, ProvNext(s, name, Read(c), r, h, d).store, claim)
    ensures ProvNext(s, name, Read(c), r, h, d).store.claims[claim].status == s.store.claims[claim].status
  {
  }

  lemma ProvPhaseStep(s: Cluster, name: string, p: Prov, r: ProvisionResult, h: HealthResult, d: bool, claim: string)
    requires ProvOk(s, name, p) && SameClaim(s.store, ProvNext(s, name, p, r, h, d).store, claim)
    ensures PhaseStep(s.store.claims[claim].status.phase,
        ProvNext(s, name, p, r, h, d).store.claims[claim].status.phase)
  {
    match p
    case Read(c) => ReadKeepsStatus(s, name, c, r, h, d, claim);
    case _ =>
  }

  lemma UserKeepsStatus(st: Store, e: Event, claim: string)
    requires ClaimsOk(st) && SameClaim(st, User(st, e), claim)
    ensures User(st, e).claims[claim].status == st.claims[claim].status
  {
  }

  lemma PipeKeepsStatus(st: Store, p: Pipe, choice: string, claim: string)
    requires ClaimsOk(st) && SameClaim(st, PipeNext(st, p, choice).store, claim)
    ensures PipeNext(st, p, choice).store.claims[claim].status == st.claims[claim].status
  {
  }

  lemma ProvEventPhase(s: Cluster, e: Event, claim: string)
    requires Core(s) && e.ProvStep? && SameClaim(s.store, Apply(s, e).store, claim)
    ensures PhaseStep(s.store.claims[claim].status.phase, Apply(s, e).store.claims[claim].status.phase)
  {
    if e.claim in s.prov {
      ProvPhaseStep(s, e.claim, s.prov[e.claim], e.provision, e.health, e.deprovisioned, claim);
    }
  }

  lemma OtherEventPhase(s: Cluster, e: Event, claim: string)
    requires Core(s) && !e.ProvStep? && SameClaim(s.store, Apply(s, e).store, claim)
    ensures Apply(s, e).store.claims[claim].status == s.store.claims[claim].status
  {
    if e.PipeStep? {
      PipeKeepsStatus(s.store, s.pipe, e.choice, claim);
    } else {
      UserKeepsStatus(s.store, e, claim);
    }
  }

  /** No event moves a stored claim along any other phase change; in particular a Failed claim
      never becomes Bound without passing through Claiming. */
  lemma PhasesMove(strategies: set<string>, es: seq<Event>, e: Event, claim: string)
    requires SameClaim(Run(Init(strategies), es).store, Apply(Run(Init(strategies), es), e).store, claim)
    ensures
      var s := Run(Init(strategies), es);
      PhaseStep(s.store.claims[claim].status.phase, Apply(s, e).store.claims[claim].status.phase)
  {
    CoreReachable(strategies, es);
    if e.ProvStep? {
      ProvEventPhase(Run(Init(strategies), es), e, claim);
    } else {
      OtherEventPhase(Run(Init(strategies), es), e, claim);
    }
  }
}
