/** The claims and the provisioner's passes on them, in every run whatever users do: statuses
    mean what they say, and nobody but the provisioner takes its finalizer away. */
module ProtocolClaims {
  import opened Api
  import opened Lifecycle
  import opened Protocol

  /** Fresh numbers, a meaningful status, deletion still waiting for something, and no phase
      before the provisioner has put its finalizer on the claim. */
  predicate ClaimOk(st: Store, c: Claim) {
    && c.uid < st.nextUid && c.rv < st.nextRv
    && StatusOk(c.status)
    && (c.marked ==> c.finalizers != [])
    && (HasFinalizer(c) || c.marked || c.status.phase.Unset?)
  }

  /** With the resource version still current, the copy is the stored claim. */
  predicate Snapshot(st: Store, name: string, c: Claim) {
    && ClaimOk(st, c)
    && (name in st.claims && st.claims[name].rv == c.rv ==> st.claims[name] == c)
  }

  predicate Granted(s: Cluster, name: string, uid: nat, status: ClaimStatus) {
    status.phase.Bound? ==> status.outputs.Some? && Grant(name, uid, status.outputs.value) in s.granted
  }

  /** The claim of a running pass is stored and carries the provisioner's finalizer. */
  predicate Kept(st: Store, name: string, c: Claim) {
    && name in st.claims && st.claims[name].uid == c.uid
    && HasFinalizer(st.claims[name])
    && (c.marked ==> st.claims[name].marked)
  }

  predicate ProvOk(s: Cluster, name: string, p: Prov) {
    && Snapshot(s.store, name, p.c)
    && Granted(s, name, p.c.uid, p.c.status)
    && match p
       case Read(c) => HasFinalizer(c) ==> Kept(s.store, name, c)
       case Armed(c) => Kept(s.store, name, c) && c.status.phase.Unset? && HasFinalizer(c)
       case Recover(c) => Kept(s.store, name, c) && c.status.phase.Claiming? && HasFinalizer(c)
       case Write(c, status) =>
         && Kept(s.store, name, c) && StatusOk(status) && HasFinalizer(c)
         && PhaseStep(c.status.phase, status.phase) && Granted(s, name, c.uid, status)
       case Drop(c) => Kept(s.store, name, c) && c.marked
  }

  /** What a pass relies on about a claim it holds a copy of: any write gives a new resource
      version. */
  ghost predicate Versioned(st: Store, st': Store, name: string) {
    name in st'.claims ==>
      (name in st.claims && st'.claims[name] == st.claims[name]) || st'.claims[name].rv >= st.nextRv
  }

  /** What a provisioner pass relies on: nobody else takes its finalizer away. */
  ghost predicate Guarded(st: Store, st': Store, name: string) {
    name in st.claims && HasFinalizer(st.claims[name]) ==> Kept(st', name, st.claims[name])
  }

  ghost predicate Grows(st: Store, st': Store) {
    st.nextUid <= st'.nextUid && st.nextRv <= st'.nextRv
  }

  lemma ProvFrame(s: Cluster, s': Cluster, name: string, p: Prov)
    requires ProvOk(s, name, p)
    requires Grows(s.store, s'.store) && s.granted <= s'.granted
    requires Versioned(s.store, s'.store, name) && Guarded(s.store, s'.store, name)
    ensures ProvOk(s', name, p)
  {
  }

  // ---------------------------------------------------------------- the invariant

  /** The copies of claims that a pipeline pass will write back. */
  predicate Copies(st: Store, p: Pipe) {
    && (p.Found? && p.found.Some? ==> Snapshot(st, ClaimName(p.n, p.key), p.found.value))
    && (p.Dispose? ==> forall name :: name in p.rem ==> Snapshot(st, name, p.rem[name]))
  }

  predicate Core(s: Cluster) {
    && (forall name :: name in s.store.claims ==>
          ClaimOk(s.store, s.store.claims[name]) && Granted(s, name, s.store.claims[name].uid,
              s.store.claims[name].status))
    && Copies(s.store, s.pipe)
    && (forall name :: name in s.prov ==> ProvOk(s, name, s.prov[name]))
  }

  /** What users, the pipeline and the garbage collector may do to a claim. */
  ghost predicate ClaimFrame(st: Store, st': Store, name: string) {
    && Versioned(st, st', name) && Guarded(st, st', name)
    && (name in st'.claims ==>
          && ClaimOk(st', st'.claims[name])
          && ((name in st.claims && st'.claims[name].uid == st.claims[name].uid
             && st'.claims[name].status == st.claims[name].status)
              || st'.claims[name].status == NO_STATUS))
  }

  lemma CoreFrame(s: Cluster, s': Cluster)
    requires Core(s) && s'.prov == s.prov && s'.granted == s.granted && Grows(s.store, s'.store)
    requires forall name :: ClaimFrame(s.store, s'.store, name)
    requires s'.pipe == s.pipe || Copies(s'.store, s'.pipe)
    ensures Core(s')
  {
    forall name | name in s'.prov ensures ProvOk(s', name, s'.prov[name]) {
      assert ClaimFrame(s.store, s'.store, name);
      ProvFrame(s, s', name, s.prov[name]);
    }
    forall name | name in s'.store.claims
      ensures ClaimOk(s'.store, s'.store.claims[name])
          && Granted(s', name, s'.store.claims[name].uid, s'.store.claims[name].status)
    {
      assert ClaimFrame(s.store, s'.store, name);
      assert name in s.store.claims ==> Granted(s, name, s.store.claims[name].uid, s.store.claims[name].status);
    }
    CopiesFrame(s.store, s'.store, s.pipe);
  }

  lemma CopiesFrame(st: Store, st': Store, p: Pipe)
    requires Copies(st, p) && Grows(st, st') && forall name :: ClaimFrame(st, st', name)
    ensures Copies(st', p)
  {
    if p.Found? && p.found.Some? {
      assert ClaimFrame(st, st', ClaimName(p.n, p.key));
    } else if p.Dispose? {
      forall name | name in p.rem ensures Snapshot(st', name, p.rem[name]) {
        assert ClaimFrame(st, st', name) && Snapshot(st, name, p.rem[name]);
      }
    }
  }

  predicate ClaimsOk(st: Store) {
    forall name :: name in st.claims ==> ClaimOk(st, st.claims[name])
  }

  // ---------------------------------------------------------------- users, garbage collection, the pipeline

  lemma UserFrame(st: Store, e: Event, name: string)
    requires ClaimsOk(st)
    ensures Grows(st, User(st, e)) && ClaimFrame(st, User(st, e), name)
  {
  }

  lemma DeleteFrame(st: Store, claim: string, name: string)
    requires ClaimsOk(st)
    ensures Grows(st, DeleteClaim(st, claim).store) && ClaimFrame(st, DeleteClaim(st, claim).store, name)
  {
  }

  lemma UpsertFrame(st: Store, n: string, w: Workload, key: string, r: ResourceSpec, found: Option<Claim>, name: string)
    requires ClaimsOk(st) && (found.Some? ==> Snapshot(st, ClaimName(n, key), found.value))
    ensures var st' := UpsertClaim(st, n, w, key, r, found).store; Grows(st, st') && ClaimFrame(st, st', name)
  {
  }

  lemma DisposeFrames(st: Store, n: string, claim: string, c: Claim, name: string)
    requires ClaimsOk(st) && Snapshot(st, claim, c)
    ensures var st' := DisposeClaim(st, n, claim, c).store; Grows(st, st') && ClaimFrame(st, st', name)
  {
    if EffectivePolicy(c.spec).Delete? && !c.marked { DeleteFrame(st, claim, name); }
  }

  lemma PipeClaimFrame(st: Store, p: Pipe, choice: string, name: string)
    requires ClaimsOk(st) && Copies(st, p)
    ensures var st' := PipeNext(st, p, choice).store; Grows(st, st') && ClaimFrame(st, st', name)
  {
    match p
    case Found(n, w, _, key, found) =>
      if key in w.resources { UpsertFrame(st, n, w, key, w.resources[key], found, name); }
    case Dispose(n, w, rem) => if choice in rem { DisposeFrames(st, n, choice, rem[choice], name); }
    case _ =>
  }

  lemma PipeCopies(st: Store, p: Pipe, choice: string)
    requires ClaimsOk(st) && Copies(st, p)
    requires !PipeNext(st, p, choice).pipe.Idle?
    ensures Copies(PipeNext(st, p, choice).store, PipeNext(st, p, choice).pipe)
  {
    var t := PipeNext(st, p, choice);
    if p.Dispose? && t.pipe.Dispose? {
      forall name | name in t.pipe.rem ensures Snapshot(t.store, name, t.pipe.rem[name]) {
        PipeClaimFrame(st, p, choice, name);
        assert name in p.rem && Snapshot(st, name, p.rem[name]);
      }
    }
  }

  lemma PipeKeepsCore(s: Cluster, e: Event)
    requires Core(s) && (e.PipeGet? || e.PipeStep? || e.PipeAbort?)
    ensures Core(Apply(s, e))
  {
    if e.PipeStep? {
      forall name ensures ClaimFrame(s.store, Apply(s, e).store, name) {
        PipeClaimFrame(s.store, s.pipe, e.choice, name);
      }
      PipeClaimFrame(s.store, s.pipe, e.choice, "");
      if !Apply(s, e).pipe.Idle? { PipeCopies(s.store, s.pipe, e.choice); }
      CoreFrame(s, Apply(s, e));
    }
  }

  lemma UserKeepsCore(s: Cluster, e: Event)
    requires Core(s)
    requires !e.PipeGet? && !e.PipeStep? && !e.PipeAbort? && !e.ProvGet? && !e.ProvStep? && !e.ProvAbort?
    ensures Core(Apply(s, e))
  {
    forall name ensures Grows(s.store, Apply(s, e).store) && ClaimFrame(s.store, Apply(s, e).store, name) {
      if e.Collect? { DeleteFrame(s.store, e.claim, name); } else { UserFrame(s.store, e, name); }
    }
    assert ClaimFrame(s.store, Apply(s, e).store, "");
    CoreFrame(s, Apply(s, e));
  }

  // ---------------------------------------------------------------- the provisioner

  /** A provisioner pass moved on without writing to the store. */
  lemma ProvMoves(s: Cluster, s': Cluster, name: string)
    requires Core(s) && name in s.prov
    requires s' == s.(prov := s'.prov, live := s'.live, granted := s'.granted) && s.granted <= s'.granted
    requires s'.prov - {name} == s.prov - {name}
    requires name in s'.prov ==> ProvOk(s', name, s'.prov[name])
    ensures Core(s')
  {
    forall other | other in s'.prov && other != name ensures ProvOk(s', other, s'.prov[other]) {
      assert other in s'.prov - {name};
      ProvFrame(s, s', other, s.prov[other]);
    }
  }

  /** Only the named claim changed, and neither its spec nor its owners did. */
  ghost predicate Written(st: Store, st': Store, name: string) {
    && st'.workloads == st.workloads && Grows(st, st') && name in st.claims
    && (forall other :: other != name ==> (other in st'.claims <==> other in st.claims))
    && (forall other :: other != name && other in st.claims ==> st'.claims[other] == st.claims[other])
    && (name in st'.claims ==>
          var c, c' := st.claims[name], st'.claims[name];
          c'.rv >= st.nextRv && c'.spec == c.spec && c'.owners == c.owners)
  }

  /** A provisioner pass wrote its claim and ended or went on. */
  lemma ProvWrites(s: Cluster, s': Cluster, name: string)
    requires Core(s) && name in s.prov
    requires name in s'.store.claims ==> ClaimOk(s'.store, s'.store.claims[name])
    requires s' == s.(store := s'.store, prov := s'.prov)
    requires Written(s.store, s'.store, name)
    requires name in s'.store.claims ==> Granted(s, name, s'.store.claims[name].uid, s'.store.claims[name].status)
    requires s'.prov - {name} == s.prov - {name}
    requires name in s'.prov ==> ProvOk(s', name, s'.prov[name])
    ensures Core(s')
  {
    forall other | other in s'.prov && other != name ensures ProvOk(s', other, s'.prov[other]) {
      assert other in s'.prov - {name};
      ProvFrame(s, s', other, s.prov[other]);
    }
  }

  lemma StatusStored(s: Cluster, name: string, c: Claim, status: ClaimStatus)
    requires Core(s) && name in s.prov && s.prov[name].c == c
    requires Kept(s.store, name, c) && HasFinalizer(c) && StatusOk(status) && Granted(s, name, c.uid, status)
    ensures Core(EndProv(s.(store := UpdateClaimStatus(s.store, name, c.rv, status).store), name))
  {
    assert ProvOk(s, name, s.prov[name]);
    var st' := UpdateClaimStatus(s.store, name, c.rv, status).store;
    if s.store.claims[name].rv == c.rv {
      ProvWrites(s, EndProv(s.(store := st'), name), name);
    } else {
      ProvMoves(s, EndProv(s, name), name);
    }
  }

  lemma FinalizerAdded(s: Cluster, name: string, c: Claim)
    requires Core(s) && name in s.prov && s.prov[name] == Read(c) && !c.marked && !HasFinalizer(c)
    requires name in s.store.claims && s.store.claims[name].rv == c.rv
    ensures
      var st' := UpdateClaim(s.store, name, c.(finalizers := c.finalizers + [CLAIM_FINALIZER])).store;
      name in st'.claims && Core(SetProv(s.(store := st'), name, Armed(st'.claims[name])))
  {
    assert ProvOk(s, name, s.prov[name]);
    var st' := UpdateClaim(s.store, name, c.(finalizers := c.finalizers + [CLAIM_FINALIZER])).store;
    ProvWrites(s, SetProv(s.(store := st'), name, Armed(st'.claims[name])), name);
  }

  lemma FinalizerDroppedNow(s: Cluster, name: string, c: Claim)
    requires Core(s) && name in s.prov && s.prov[name] == Drop(c)
    requires name in s.store.claims && s.store.claims[name] == c
    ensures
      var st' := UpdateClaim(s.store, name, c.(finalizers := Without(c.finalizers, CLAIM_FINALIZER))).store;
      Core(EndProv(s.(store := st'), name))
  {
    assert ProvOk(s, name, s.prov[name]);
    var st' := UpdateClaim(s.store, name, c.(finalizers := Without(c.finalizers, CLAIM_FINALIZER))).store;
    ProvWrites(s, EndProv(s.(store := st'), name), name);
  }

  lemma FinalizerDropped(s: Cluster, name: string, c: Claim)
    requires Core(s) && name in s.prov && s.prov[name] == Drop(c)
    ensures
      var st' := UpdateClaim(s.store, name, c.(finalizers := Without(c.finalizers, CLAIM_FINALIZER))).store;
      Core(EndProv(s.(store := st'), name))
  {
    assert ProvOk(s, name, s.prov[name]);
    if s.store.claims[name].rv == c.rv {
      FinalizerDroppedNow(s, name, c);
    } else {
      ProvMoves(s, EndProv(s, name), name);
    }
  }

  lemma ProvisionCalled(s: Cluster, name: string, c: Claim, r: ProvisionResult)
    requires Core(s) && name in s.prov && s.prov[name].c == c
    requires Kept(s.store, name, c) && HasFinalizer(c)
    requires c.status.phase.Unset? || c.status.phase.Pending? || c.status.phase.Claiming?
    ensures Core(CallProvision(s, name, c, r))
  {
    assert ProvOk(s, name, s.prov[name]);
    ProvMoves(s, CallProvision(s, name, c, r), name);
  }

  lemma StatusChosen(s: Cluster, name: string, c: Claim, status: ClaimStatus)
    requires Core(s) && name in s.prov && s.prov[name] == Read(c) && HasFinalizer(c)
    requires StatusOk(status) && PhaseStep(c.status.phase, status.phase)
    requires status.phase.Bound? ==> status == c.status
    ensures Core(SetProv(s, name, Write(c, status)))
  {
    assert ProvOk(s, name, s.prov[name]);
    ProvMoves(s, SetProv(s, name, Write(c, status)), name);
  }

  lemma RecoveryChosen(s: Cluster, name: string, c: Claim)
    requires Core(s) && name in s.prov && s.prov[name] == Read(c) && HasFinalizer(c) && c.status.phase.Claiming?
    ensures Core(SetProv(s, name, Recover(c)))
  {
    assert ProvOk(s, name, s.prov[name]);
    ProvMoves(s, SetProv(s, name, Recover(c)), name);
  }

  lemma HandlerChosen(s: Cluster, name: string, c: Claim, r: ProvisionResult, h: HealthResult)
    requires Core(s) && name in s.prov && s.prov[name] == Read(c) && HasFinalizer(c)
    ensures Core(Provision(s, name, c, r, h))
  {
    assert ProvOk(s, name, s.prov[name]);
    if c.spec.typ !in s.strategies {
      StatusChosen(s, name, c, Unbound(c, Failed, "ClaimFailed", "No strategy available"));
    } else if c.status.phase.Unset? || c.status.phase.Pending? {
      ProvisionCalled(s, name, c, r);
    } else if c.status.phase.Claiming? {
      if h.Health? && h.phase.Bound? {
        RecoveryChosen(s, name, c);
      } else {
        StatusChosen(s, name, c, AfterClaimingCheck(c, h));
      }
    } else if c.status.phase.Bound? {
      StatusChosen(s, name, c, AfterBoundCheck(c, h));
    } else {
      StatusChosen(s, name, c, AfterFailedCheck(c, h));
    }
  }

  lemma DeletionHandled(s: Cluster, name: string, c: Claim, live: set<Resource>)
    requires Core(s) && name in s.prov && s.prov[name] == Read(c) && HasFinalizer(c) && c.marked
    ensures Core(SetProv(s.(live := live), name, Drop(c)))
  {
    assert ProvOk(s, name, s.prov[name]);
    ProvMoves(s, SetProv(s.(live := live), name, Drop(c)), name);
  }

  lemma ReadKeeps(s: Cluster, name: string, c: Claim, r: ProvisionResult, h: HealthResult, d: bool)
    requires Core(s) && name in s.prov && s.prov[name] == Read(c)
    ensures Core(ProvNext(s, name, Read(c), r, h, d))
  {
    assert ProvOk(s, name, s.prov[name]);
    if ShouldReconcile(c) {
      if c.marked {
        DeletionHandled(s, name, c, s.live);
        DeletionHandled(s, name, c, s.live - {Resource(name, c.uid, c.spec.typ)});
        ProvMoves(s, EndProv(s, name), name);
      } else if HasFinalizer(c) {
        HandlerChosen(s, name, c, r, h);
      } else if name in s.store.claims && s.store.claims[name].rv == c.rv {
        FinalizerAdded(s, name, c);
      } else {
        ProvMoves(s, EndProv(s, name), name);
      }
    } else {
      ProvMoves(s, EndProv(s, name), name);
    }
  }

  lemma ProvKeeps(s: Cluster, name: string, r: ProvisionResult, h: HealthResult, d: bool)
    requires Core(s) && name in s.prov
    ensures Core(ProvNext(s, name, s.prov[name], r, h, d))
  {
    assert ProvOk(s, name, s.prov[name]);
    match s.prov[name]
    case Read(c) => ReadKeeps(s, name, c, r, h, d);
    case Armed(c) => StatusStored(s, name, c, Unbound(c, Pending, "ClaimPending", "Initializing resource claim"));
    case Recover(c) => ProvisionCalled(s, name, c, r);
    case Write(c, status) => StatusStored(s, name, c, status);
    case Drop(c) => FinalizerDropped(s, name, c);
  }

  // ---------------------------------------------------------------- every event, every run

  lemma GetKeepsCore(s: Cluster, claim: string)
    requires Core(s) && claim !in s.prov && claim in s.store.claims
    ensures Core(SetProv(s, claim, Read(s.store.claims[claim])))
  {
    var s' := SetProv(s, claim, Read(s.store.claims[claim]));
    forall other | other in s'.prov && other != claim ensures ProvOk(s', other, s'.prov[other]) {
      ProvFrame(s, s', other, s.prov[other]);
    }
  }

  lemma AbortKeepsCore(s: Cluster, claim: string)
    requires Core(s)
    ensures Core(EndProv(s, claim))
  {
    if claim in s.prov {
      ProvMoves(s, EndProv(s, claim), claim);
    } else {
      assert s.prov - {claim} == s.prov;
    }
  }

  lemma ProvKeepsCore(s: Cluster, e: Event)
    requires Core(s) && (e.ProvGet? || e.ProvStep? || e.ProvAbort?)
    ensures Core(Apply(s, e))
  {
    if e.ProvStep? {
      if e.claim in s.prov { ProvKeeps(s, e.claim, e.provision, e.health, e.deprovisioned); }
    } else if e.ProvAbort? {
      AbortKeepsCore(s, e.claim);
    } else if e.claim !in s.prov && e.claim in s.store.claims {
      GetKeepsCore(s, e.claim);
    }
  }

  lemma EventKeepsCore(s: Cluster, e: Event)
    requires Core(s)
    ensures Core(Apply(s, e))
  {
    if e.PipeGet? || e.PipeStep? || e.PipeAbort? {
      PipeKeepsCore(s, e);
    } else if e.ProvGet? || e.ProvStep? || e.ProvAbort? {
      ProvKeepsCore(s, e);
    } else {
      UserKeepsCore(s, e);
    }
  }

  lemma {:induction false} RunKeepsCore(s: Cluster, es: seq<Event>)
    requires Core(s)
    ensures Core(Run(s, es))
    decreases |es|
  {
    if es != [] {
      EventKeepsCore(s, es[0]);
      RunKeepsCore(Apply(s, es[0]), es[1..]);
    }
  }

  lemma CoreReachable(strategies: set<string>, es: seq<Event>)
    ensures Core(Run(Init(strategies), es))
  {
    RunKeepsCore(Init(strategies), es);
  }
}
