/** What every reachable state of the protocol satisfies, proved event by event. */
module ProtocolSafety {
  import opened Api
  import opened Lifecycle
  import opened Protocol
  import opened ProtocolClaims

  // ---------------------------------------------------------------- the store

  predicate WorkloadOk(st: Store, w: Workload) {
    && w.uid < st.nextUid && w.rv < st.nextRv
    && (w.marked ==> w.finalizers != [])
  }

  /** Every owner of a claim is the Workload the claim refers to; it is still stored and
      still carries its finalizer. */
  predicate Backed(st: Store, c: Claim) {
    forall o :: o in c.owners ==>
      RefersTo(o, c.spec.ref) && Alive(st, o) && WORKLOAD_FINALIZER in st.workloads[o.name].finalizers
  }

  predicate StoreOk(st: Store) {
    && (forall n :: n in st.workloads ==> WorkloadOk(st, st.workloads[n]))
    && (forall name :: name in st.claims ==> ClaimOk(st, st.claims[name]) && Backed(st, st.claims[name]))
  }

  // ---------------------------------------------------------------- copies held by passes

  predicate WorkloadSnapshot(st: Store, n: string, w: Workload) {
    && WorkloadOk(st, w)
    && (n in st.workloads && st.workloads[n].rv == w.rv ==> st.workloads[n] == w)
  }

  // ---------------------------------------------------------------- the pipeline

  /** The Workload of a running pass is stored and carries its finalizer. */
  predicate Held(st: Store, n: string, w: Workload) {
    && n in st.workloads && st.workloads[n].uid == w.uid
    && WORKLOAD_FINALIZER in st.workloads[n].finalizers
    && (w.marked ==> st.workloads[n].marked)
  }

  /** The claim needs no owner removal: it is either to be deleted or has no owner. */
  predicate Settled(c: Claim) {
    EffectivePolicy(c.spec).Delete? || c.owners == []
  }

  /** Every listed claim still has the policy it had, every other claim of the Workload is settled. */
  predicate DisposeOk(st: Store, n: string, rem: map<string, Claim>) {
    && (forall name :: name in rem ==> Snapshot(st, name, rem[name]) && rem[name].spec.ref == n)
    && (forall name :: name in rem && name in st.claims ==>
          st.claims[name].spec.ref == n && EffectivePolicy(st.claims[name].spec) == EffectivePolicy(rem[name].spec))
    && (forall name :: name in st.claims && st.claims[name].spec.ref == n && name !in rem ==> Settled(st.claims[name]))
  }

  /** No claim of the Workload is to be deleted and none is owned. */
  predicate Clear(st: Store, n: string) {
    forall name :: name in st.claims && st.claims[name].spec.ref == n ==>
      !EffectivePolicy(st.claims[name].spec).Delete? && st.claims[name].owners == []
  }

  predicate PipeOk(st: Store, p: Pipe) {
    match p
    case Idle => true
    case Got(n, w) => WorkloadSnapshot(st, n, w) && (WORKLOAD_FINALIZER in w.finalizers ==> Held(st, n, w))
    case Upsert(n, w, _) => WorkloadSnapshot(st, n, w) && Held(st, n, w)
    case Found(n, w, _, key, found) =>
      WorkloadSnapshot(st, n, w) && Held(st, n, w) && (found.Some? ==> Snapshot(st, ClaimName(n, key), found.value))
    case Dispose(n, w, rem) => WorkloadSnapshot(st, n, w) && Held(st, n, w) && w.marked && DisposeOk(st, n, rem)
    case Release(n, w) => WorkloadSnapshot(st, n, w) && Held(st, n, w) && w.marked && Clear(st, n)
  }

  // ---------------------------------------------------------------- the provisioner

  /** A Workload that ever carried the finalizer still does, or has been released. */
  predicate HeldOk(s: Cluster) {
    forall n :: n in s.store.workloads ==>
      var w := s.store.workloads[n];
      && (WORKLOAD_FINALIZER in w.finalizers ==> (n, w.uid) in s.held)
      && ((n, w.uid) in s.held && WORKLOAD_FINALIZER !in w.finalizers ==> w.marked && Clear(s.store, n))
  }

  predicate Inv(s: Cluster) {
    && StoreOk(s.store)
    && PipeOk(s.store, s.pipe)
    && HeldOk(s)
    && (forall h :: h in s.held ==> h.1 < s.store.nextUid)
    && (forall name :: name in s.store.claims ==>
          Granted(s, name, s.store.claims[name].uid, s.store.claims[name].status))
    && (forall name :: name in s.prov ==> ProvOk(s, name, s.prov[name]))
  }

  // ---------------------------------------------------------------- frames

  /** What a pipeline pass relies on about its Workload. */
  ghost predicate WorkloadMoves(st: Store, st': Store, n: string) {
    && (n in st'.workloads ==>
          (n in st.workloads && st'.workloads[n] == st.workloads[n]) || st'.workloads[n].rv >= st.nextRv)
    && (n in st.workloads && WORKLOAD_FINALIZER in st.workloads[n].finalizers ==> Held(st', n, st.workloads[n]))
    && (n in st'.workloads && WORKLOAD_FINALIZER in st'.workloads[n].finalizers ==>
          n in st.workloads && st.workloads[n].uid == st'.workloads[n].uid
              && WORKLOAD_FINALIZER in st.workloads[n].finalizers)
    && (n in st'.workloads ==>
          (n in st.workloads && st.workloads[n].uid == st'.workloads[n].uid
           && (st.workloads[n].marked ==> st'.workloads[n].marked))
          || st'.workloads[n].uid >= st.nextUid)
  }

  /** What the deletion pass of a Workload relies on about the claims that refer to it. */
  ghost predicate ClaimsShrink(st: Store, st': Store, n: string) {
    forall name :: name in st'.claims && st'.claims[name].spec.ref == n ==>
      && name in st.claims && st.claims[name].spec.ref == n
      && EffectivePolicy(st'.claims[name].spec) == EffectivePolicy(st.claims[name].spec)
      && (st.claims[name].owners == [] ==> st'.claims[name].owners == [])
  }

  /** No claim appears and none changes the Workload it refers to. */
  ghost predicate NoNewClaims(st: Store, st': Store) {
    forall name :: name in st'.claims ==> name in st.claims && st'.claims[name].spec.ref == st.claims[name].spec.ref
  }

  ghost predicate AllVersioned(st: Store, st': Store) {
    forall name :: name in st'.claims ==>
      (name in st.claims && st'.claims[name] == st.claims[name]) || st'.claims[name].rv >= st.nextRv
  }

  lemma PipeFrame(st: Store, st': Store, p: Pipe)
    requires PipeOk(st, p) && Grows(st, st') && AllVersioned(st, st')
    requires !p.Idle? ==> WorkloadMoves(st, st', p.n)
    requires p.Dispose? || p.Release? ==> ClaimsShrink(st, st', p.n) && NoNewClaims(st, st')
    ensures PipeOk(st', p)
  {
  }

  /** An event that leaves the program counters alone. */
  lemma StoreFrame(s: Cluster, s': Cluster)
    requires Inv(s) && StoreOk(s'.store)
    requires s' == s.(store := s'.store)
    requires Grows(s.store, s'.store) && AllVersioned(s.store, s'.store) && NoNewClaims(s.store, s'.store)
    requires forall name :: name in s.store.claims ==> Guarded(s.store, s'.store, name)
    requires forall name :: name in s'.store.claims ==>
      s'.store.claims[name].uid == s.store.claims[name].uid
          && s'.store.claims[name].status == s.store.claims[name].status
    requires forall n :: WorkloadMoves(s.store, s'.store, n)
    requires forall n :: n in s.store.workloads && s.store.workloads[n].marked ==> ClaimsShrink(s.store, s'.store, n)
    ensures Inv(s')
  {
    if !s.pipe.Idle? {
      assert WorkloadMoves(s.store, s'.store, s.pipe.n);
      PipeFrame(s.store, s'.store, s.pipe);
    }
    forall name | name in s'.prov ensures ProvOk(s', name, s'.prov[name]) {
      ProvFrame(s, s', name, s.prov[name]);
    }
    forall n | n in s'.store.workloads
      ensures var w := s'.store.workloads[n];
              && (WORKLOAD_FINALIZER in w.finalizers ==> (n, w.uid) in s'.held)
              && ((n, w.uid) in s'.held && WORKLOAD_FINALIZER !in w.finalizers ==> w.marked && Clear(s'.store, n))
    {
      assert WorkloadMoves(s.store, s'.store, n);
    }
  }

  // ---------------------------------------------------------------- users, other controllers, garbage collection

  /** The change of one claim that users and other controllers may make. */
  predicate ForeignChange(st: Store, c: Claim, c': Claim) {
    && c'.uid == c.uid && c'.rv == st.nextRv && c'.status == c.status && c'.owners == c.owners
    && (c.marked ==> c'.marked) && (c'.marked ==> c'.finalizers != [])
    && (HasFinalizer(c) <==> HasFinalizer(c'))
    && c'.spec.ref == c.spec.ref
    && (c.spec.ref in st.workloads && st.workloads[c.spec.ref].marked ==> c'.spec == c.spec)
  }

  lemma OneClaimStore(st: Store, st': Store, name: string)
    requires StoreOk(st) && name in st.claims && name in st'.claims
    requires st' == st.(claims := st.claims[name := st'.claims[name]], nextRv := st.nextRv + 1)
    requires ForeignChange(st, st.claims[name], st'.claims[name])
    ensures StoreOk(st')
  {
    assert ClaimOk(st, st.claims[name]) && Backed(st, st.claims[name]);
  }

  lemma OneClaimFrame(st: Store, st': Store, name: string)
    requires name in st.claims && name in st'.claims
    requires st' == st.(claims := st.claims[name := st'.claims[name]], nextRv := st.nextRv + 1)
    requires ForeignChange(st, st.claims[name], st'.claims[name])
    ensures AllVersioned(st, st') && NoNewClaims(st, st')
    ensures forall other :: other in st.claims ==> Guarded(st, st', other)
    ensures forall n :: n in st.workloads && st.workloads[n].marked ==> ClaimsShrink(st, st', n)
  {
  }

  lemma OneClaim(s: Cluster, st': Store, name: string)
    requires Inv(s) && name in s.store.claims && name in st'.claims
    requires st' == s.store.(claims := s.store.claims[name := st'.claims[name]], nextRv := s.store.nextRv + 1)
    requires ForeignChange(s.store, s.store.claims[name], st'.claims[name])
    ensures Inv(s.(store := st'))
  {
    OneClaimStore(s.store, st', name);
    OneClaimFrame(s.store, st', name);
    StoreFrame(s, s.(store := st'));
  }

  /** A claim without the provisioner's finalizer disappeared. */
  lemma ClaimGone(s: Cluster, st': Store, name: string)
    requires Inv(s) && name in s.store.claims && !HasFinalizer(s.store.claims[name])
    requires st' == s.store.(claims := s.store.claims - {name}, nextRv := s.store.nextRv + 1)
    ensures Inv(s.(store := st'))
  {
    StoreFrame(s, s.(store := st'));
  }

  /** The change of one Workload that users and other controllers may make. */
  predicate ForeignWorkload(st: Store, w: Workload, w': Workload) {
    && w' == w.(rv := st.nextRv, generation := w'.generation, marked := w'.marked, finalizers := w'.finalizers,
       resources := w'.resources)
    && (w.marked ==> w'.marked) && (w'.marked ==> w'.finalizers != [])
    && (WORKLOAD_FINALIZER in w.finalizers <==> WORKLOAD_FINALIZER in w'.finalizers)
  }

  lemma OneWorkloadStore(st: Store, st': Store, n: string, w': Workload)
    requires StoreOk(st) && n in st.workloads && ForeignWorkload(st, st.workloads[n], w')
    requires st' == st.(workloads := st.workloads[n := w'], nextRv := st.nextRv + 1)
    ensures StoreOk(st')
  {
    forall name | name in st'.claims ensures Backed(st', st'.claims[name]) {
      assert Backed(st, st.claims[name]);
    }
  }

  lemma OneWorkloadFrame(st: Store, st': Store, n: string, w': Workload)
    requires StoreOk(st) && n in st.workloads && ForeignWorkload(st, st.workloads[n], w')
    requires st' == st.(workloads := st.workloads[n := w'], nextRv := st.nextRv + 1)
    ensures AllVersioned(st, st') && NoNewClaims(st, st')
    ensures forall m :: WorkloadMoves(st, st', m)
    ensures forall m :: ClaimsShrink(st, st', m)
  {
  }

  /** A user or another controller touched one Workload that carries on existing. */
  lemma OneWorkload(s: Cluster, st': Store, n: string)
    requires Inv(s) && n in s.store.workloads && n in st'.workloads
    requires st' == s.store.(workloads := s.store.workloads[n := st'.workloads[n]], nextRv := s.store.nextRv + 1)
    requires ForeignWorkload(s.store, s.store.workloads[n], st'.workloads[n])
    ensures Inv(s.(store := st'))
  {
    OneWorkloadStore(s.store, st', n, st'.workloads[n]);
    OneWorkloadFrame(s.store, st', n, st'.workloads[n]);
    StoreFrame(s, s.(store := st'));
  }

  /** A Workload without the finalizer disappeared. */
  lemma WorkloadGone(s: Cluster, st': Store, n: string)
    requires Inv(s) && n in s.store.workloads && WORKLOAD_FINALIZER !in s.store.workloads[n].finalizers
    requires st' == s.store.(workloads := s.store.workloads - {n}, nextRv := s.store.nextRv + 1)
    ensures Inv(s.(store := st'))
  {
    StoreFrame(s, s.(store := st'));
  }

  lemma WorkloadMade(s: Cluster, n: string, resources: map<string, ResourceSpec>)
    requires Inv(s) && n !in s.store.workloads
    ensures Inv(s.(store := CreateWorkload(s.store, n, resources).store))
  {
    StoreFrame(s, s.(store := CreateWorkload(s.store, n, resources).store));
  }

  lemma UserKeepsClaims(s: Cluster, e: Event)
    requires Inv(s) && Tame(s, e) && (e.UserPolicy? || e.UserDeleteClaim? || e.ClaimFinalizers?)
    ensures Inv(Apply(s, e))
  {
    var st' := User(s.store, e);
    if st' != s.store {
      if e.claim in st'.claims { OneClaim(s, st', e.claim); } else { ClaimGone(s, st', e.claim); }
    }
  }

  lemma UserKeepsWorkloads(s: Cluster, e: Event)
    requires Inv(s) && (e.UserEdit? || e.UserDelete? || e.WorkloadFinalizers? || e.StatusWrite?)
    ensures Inv(Apply(s, e))
  {
    var st' := User(s.store, e);
    if st' != s.store {
      if e.n in st'.workloads { OneWorkload(s, st', e.n); } else { WorkloadGone(s, st', e.n); }
    }
  }

  /** The garbage collector never finds a claim to delete. */
  lemma NothingToCollect(s: Cluster, claim: string)
    requires Inv(s)
    ensures !Collectable(s.store, claim)
  {
    if claim in s.store.claims && s.store.claims[claim].owners != [] {
      var o := s.store.claims[claim].owners[0];
      assert o in s.store.claims[claim].owners;
      assert Alive(s.store, o);
    }
  }

  // ---------------------------------------------------------------- the pipeline

  /** A pipeline step that touches claims only and does not disturb any provisioner pass. */
  lemma PipeClaims(s: Cluster, s': Cluster)
    requires Inv(s) && StoreOk(s'.store) && PipeOk(s'.store, s'.pipe)
    requires s' == s.(store := s'.store, pipe := s'.pipe)
    requires s'.store.workloads == s.store.workloads && Grows(s.store, s'.store) && AllVersioned(s.store, s'.store)
    requires !s.pipe.Idle?
    requires forall name :: name in s.store.claims ==> Guarded(s.store, s'.store, name)
    requires forall name :: name in s'.store.claims ==>
      && (name in s.store.claims && s.store.claims[name].uid == s'.store.claims[name].uid ==>
         s'.store.claims[name].status == s.store.claims[name].status)
      && (name !in s.store.claims || s.store.claims[name].uid != s'.store.claims[name].uid ==>
         s'.store.claims[name].status == NO_STATUS)
    requires forall n :: n in s.store.workloads && WORKLOAD_FINALIZER !in s.store.workloads[n].finalizers ==>
      ClaimsShrink(s.store, s'.store, n)
    ensures Inv(s')
  {
    forall name | name in s'.prov ensures ProvOk(s', name, s'.prov[name]) {
      ProvFrame(s, s', name, s.prov[name]);
    }
    forall n | n in s'.store.workloads
      ensures var w := s'.store.workloads[n];
              && (WORKLOAD_FINALIZER in w.finalizers ==> (n, w.uid) in s'.held)
              && ((n, w.uid) in s'.held && WORKLOAD_FINALIZER !in w.finalizers ==> w.marked && Clear(s'.store, n))
    {
      var w := s.store.workloads[n];
      assert WORKLOAD_FINALIZER in w.finalizers ==> (n, w.uid) in s.held;
    }
  }

  /** One claim was written by a controller. */
  lemma PutClaim(st: Store, st': Store, name: string, c': Claim)
    requires StoreOk(st)
    requires st' == st.(claims := st.claims[name := c'], nextUid := st'.nextUid, nextRv := st.nextRv + 1)
    requires st.nextUid <= st'.nextUid && c'.rv == st.nextRv && ClaimOk(st', c') && Backed(st, c')
    requires name in st.claims && HasFinalizer(st.claims[name]) ==> Kept(st', name, st.claims[name])
    ensures StoreOk(st') && Grows(st, st') && AllVersioned(st, st')
    ensures forall other :: other in st.claims ==> Guarded(st, st', other)
    ensures forall other :: other in st'.claims && other != name ==>
        other in st.claims && st'.claims[other] == st.claims[other]
  {
  }

  /** The pipeline wrote one claim of a Workload that carries the finalizer. */
  lemma PipePut(s: Cluster, st': Store, p: Pipe, name: string, c': Claim)
    requires Inv(s) && !s.pipe.Idle? && PipeOk(st', p)
    requires st' == s.store.(claims := s.store.claims[name := c'], nextUid := st'.nextUid, nextRv := s.store.nextRv + 1)
    requires s.store.nextUid <= st'.nextUid && c'.rv == s.store.nextRv && ClaimOk(st', c') && Backed(s.store, c')
    requires name in s.store.claims ==>
      var c := s.store.claims[name];
      c'.uid == c.uid && c'.status == c.status && c'.spec.ref == c.spec.ref && c'.finalizers == c.finalizers
          && (c.marked ==> c'.marked)
    requires name !in s.store.claims ==> c'.status == NO_STATUS
    requires c'.spec.ref in s.store.workloads && WORKLOAD_FINALIZER in s.store.workloads[c'.spec.ref].finalizers
    ensures Inv(s.(store := st', pipe := p))
  {
    assert StoreOk(s.store) && PipeOk(s.store, s.pipe);
    PutClaim(s.store, st', name, c');
    PipeClaims(s, s.(store := st', pipe := p));
  }

  lemma UpsertOn(st: Store, st': Store, p: Pipe)
    requires StoreOk(st) && p.Found? && PipeOk(st, p) && st'.workloads == st.workloads && Grows(st, st')
    ensures PipeOk(st', Upsert(p.n, p.w, p.todo))
    ensures p.n in st.workloads && WORKLOAD_FINALIZER in st.workloads[p.n].finalizers
  {
  }

  lemma StepCreate(s: Cluster, n: string, w: Workload, todo: set<string>, key: string, spec: ClaimSpec)
    requires Inv(s) && s.pipe == Found(n, w, todo, key, None) && spec.ref == n
    ensures
      var a := CreateClaim(s.store, ClaimName(n, key), spec, [OwnerRef("Workload", n, w.uid)]);
      Inv(s.(store := a.store, pipe := if a.ok then Upsert(n, w, todo) else Idle))
  {
    assert StoreOk(s.store) && PipeOk(s.store, s.pipe);
    var name := ClaimName(n, key);
    if name !in s.store.claims {
      var st' := CreateClaim(s.store, name, spec, [OwnerRef("Workload", n, w.uid)]).store;
      UpsertOn(s.store, st', s.pipe);
      PipePut(s, st', Upsert(n, w, todo), name, st'.claims[name]);
    }
  }

  lemma StepUpdate(s: Cluster, n: string, w: Workload, todo: set<string>, key: string, c: Claim, spec: ClaimSpec)
    requires Inv(s) && s.pipe == Found(n, w, todo, key, Some(c)) && c.spec.ref == n && spec.ref == n
    ensures
      var a := UpdateClaim(s.store, ClaimName(n, key), c.(spec := spec));
      Inv(s.(store := a.store, pipe := if a.ok then Upsert(n, w, todo) else Idle))
  {
    assert StoreOk(s.store) && PipeOk(s.store, s.pipe);
    var name := ClaimName(n, key);
    if name in s.store.claims && s.store.claims[name].rv == c.rv {
      var st' := UpdateClaim(s.store, name, c.(spec := spec)).store;
      UpsertOn(s.store, st', s.pipe);
      PipePut(s, st', Upsert(n, w, todo), name, st'.claims[name]);
    }
  }

  /** One listed claim has been dealt with. */
  lemma DisposeFrame(st: Store, st': Store, n: string, rem: map<string, Claim>, name: string)
    requires DisposeOk(st, n, rem) && name in rem
    requires Grows(st, st') && AllVersioned(st, st') && NoNewClaims(st, st') && ClaimsShrink(st, st', n)
    requires name in st'.claims ==> Settled(st'.claims[name])
    ensures DisposeOk(st', n, rem - {name})
  {
  }

  lemma DisposePut(st: Store, st': Store, n: string, rem: map<string, Claim>, name: string, c': Claim)
    requires DisposeOk(st, n, rem) && name in rem && name in st.claims
    requires st' == st.(claims := st.claims[name := c'], nextRv := st.nextRv + 1)
    requires c'.rv == st.nextRv && c'.spec == st.claims[name].spec && Settled(c')
    ensures DisposeOk(st', n, rem - {name})
  {
  }

  /** Removing the Workload's reference leaves no owner at all. */
  lemma DisownAnswer(st: Store, name: string, c: Claim)
    requires name in st.claims && st.claims[name] == c && ClaimOk(st, c) && Backed(st, c)
    ensures UpdateClaim(st, name, c.(owners := Disowned(c.owners, c.spec.ref))) ==
            Answer(true, st.(claims := st.claims[name := c.(owners := [], rv := st.nextRv)], nextRv := st.nextRv + 1))
  {
  }

  lemma StepDisown(s: Cluster, n: string, w: Workload, rem: map<string, Claim>, name: string, c': Claim, st': Store)
    requires Inv(s) && s.pipe == Dispose(n, w, rem) && name in rem
    requires name in s.store.claims && s.store.claims[name] == rem[name]
    requires c' == rem[name].(owners := [], rv := s.store.nextRv)
    requires st' == s.store.(claims := s.store.claims[name := c'], nextRv := s.store.nextRv + 1)
    ensures Inv(s.(store := st', pipe := Dispose(n, w, rem - {name})))
  {
    assert StoreOk(s.store) && PipeOk(s.store, s.pipe);
    DisposePut(s.store, st', n, rem, name, c');
    PipePut(s, st', Dispose(n, w, rem - {name}), name, c');
  }

  lemma StepMark(s: Cluster, n: string, w: Workload, rem: map<string, Claim>, name: string, st': Store)
    requires Inv(s) && s.pipe == Dispose(n, w, rem) && name in rem && EffectivePolicy(rem[name].spec).Delete?
    requires name in s.store.claims && s.store.claims[name].finalizers != [] && st' == DeleteClaim(s.store, name).store
    ensures Inv(s.(store := st', pipe := Dispose(n, w, rem - {name})))
  {
    assert StoreOk(s.store) && PipeOk(s.store, s.pipe);
    if s.store.claims[name].marked {
      StepDisposeMarked(s, n, w, rem, name);
    } else {
      DisposePut(s.store, st', n, rem, name, st'.claims[name]);
      PipePut(s, st', Dispose(n, w, rem - {name}), name, st'.claims[name]);
    }
  }

  /** A pipeline pass moved on after the store had changed under it. */
  lemma PipeMoves(s: Cluster, p: Pipe)
    requires Inv(s) && PipeOk(s.store, p)
    ensures Inv(s.(pipe := p))
  {
  }

  lemma StepRemove(s: Cluster, n: string, w: Workload, rem: map<string, Claim>, name: string)
    requires Inv(s) && s.pipe == Dispose(n, w, rem) && name in rem
    requires name in s.store.claims && s.store.claims[name].finalizers == []
    ensures Inv(s.(store := DeleteClaim(s.store, name).store, pipe := Dispose(n, w, rem - {name})))
  {
    assert PipeOk(s.store, s.pipe);
    var st' := DeleteClaim(s.store, name).store;
    ClaimGone(s, st', name);
    DisposeFrame(s.store, st', n, rem, name);
    PipeMoves(s.(store := st'), Dispose(n, w, rem - {name}));
  }

  lemma StepDisposeKept(s: Cluster, n: string, w: Workload, rem: map<string, Claim>, name: string)
    requires Inv(s) && s.pipe == Dispose(n, w, rem) && name in rem
    ensures
      var a := UpdateClaim(s.store, name, rem[name].(owners := Disowned(rem[name].owners, n)));
      Inv(s.(store := a.store, pipe := if a.ok then Dispose(n, w, rem - {name}) else Idle))
  {
    var c := rem[name];
    var a := UpdateClaim(s.store, name, c.(owners := Disowned(c.owners, n)));
    if name in s.store.claims && s.store.claims[name].rv == c.rv {
      StepDisownAnswer(s, n, w, rem, name, a);
    } else {
      PipeMoves(s, Idle);
    }
  }

  lemma StepDisownAnswer(s: Cluster, n: string, w: Workload, rem: map<string, Claim>, name: string, a: Answer)
    requires Inv(s) && s.pipe == Dispose(n, w, rem) && name in rem
    requires name in s.store.claims && s.store.claims[name].rv == rem[name].rv
    requires a == UpdateClaim(s.store, name, rem[name].(owners := Disowned(rem[name].owners, n)))
    ensures a.ok && Inv(s.(store := a.store, pipe := Dispose(n, w, rem - {name})))
  {
    Disposable(s.store, n, w, rem, name);
    DisownAnswer(s.store, name, rem[name]);
    StepDisown(s, n, w, rem, name, rem[name].(owners := [], rv := s.store.nextRv), a.store);
  }

  lemma Disposable(st: Store, n: string, w: Workload, rem: map<string, Claim>, name: string)
    requires StoreOk(st) && PipeOk(st, Dispose(n, w, rem)) && name in rem
    requires name in st.claims && st.claims[name].rv == rem[name].rv
    ensures st.claims[name] == rem[name] && rem[name].spec.ref == n && ClaimOk(st, rem[name]) && Backed(st, rem[name])
  {
  }

  lemma StepDisposeDeleted(s: Cluster, n: string, w: Workload, rem: map<string, Claim>, name: string)
    requires Inv(s) && s.pipe == Dispose(n, w, rem) && name in rem && EffectivePolicy(rem[name].spec).Delete?
    ensures
      var a := DeleteClaim(s.store, name);
      Inv(s.(store := a.store, pipe := if a.ok then Dispose(n, w, rem - {name}) else Idle))
  {
    if name !in s.store.claims {
      PipeMoves(s, Idle);
    } else if s.store.claims[name].finalizers == [] {
      StepRemove(s, n, w, rem, name);
    } else {
      StepMark(s, n, w, rem, name, DeleteClaim(s.store, name).store);
    }
  }

  lemma StepDisposeMarked(s: Cluster, n: string, w: Workload, rem: map<string, Claim>, name: string)
    requires Inv(s) && s.pipe == Dispose(n, w, rem) && name in rem && EffectivePolicy(rem[name].spec).Delete?
    ensures Inv(s.(pipe := Dispose(n, w, rem - {name})))
  {
    DisposeFrame(s.store, s.store, n, rem, name);
    PipeMoves(s, Dispose(n, w, rem - {name}));
  }

  /** Provisioner passes do not notice writes to Workloads. */
  lemma ProvsFrame(s: Cluster, s': Cluster)
    requires Inv(s) && s'.prov == s.prov && s'.granted == s.granted
    requires s'.store.claims == s.store.claims && Grows(s.store, s'.store)
    ensures forall name :: name in s'.prov ==> ProvOk(s', name, s'.prov[name])
  {
    forall name | name in s'.prov ensures ProvOk(s', name, s'.prov[name]) {
      ProvFrame(s, s', name, s.prov[name]);
    }
  }

  /** The finalizer goes on: from now on the Workload waits for the deletion phase. */
  lemma HoldStored(s: Cluster, n: string, w: Workload, w': Workload, st': Store)
    requires Inv(s) && s.pipe == Got(n, w) && !w.marked
    requires n in s.store.workloads && s.store.workloads[n].rv == w.rv
    requires w' == w.(finalizers := w.finalizers + [WORKLOAD_FINALIZER], rv := s.store.nextRv)
    requires st' == s.store.(workloads := s.store.workloads[n := w'], nextRv := s.store.nextRv + 1)
    ensures StoreOk(st') && PipeOk(st', Upsert(n, w', w.resources.Keys))
    ensures HeldOk(s.(store := st', held := s.held + {(n, w.uid)}))
  {
  }

  lemma StepHold(s: Cluster, n: string, w: Workload, w': Workload, st': Store)
    requires Inv(s) && s.pipe == Got(n, w) && !w.marked
    requires n in s.store.workloads && s.store.workloads[n].rv == w.rv
    requires w' == w.(finalizers := w.finalizers + [WORKLOAD_FINALIZER], rv := s.store.nextRv)
    requires st' == s.store.(workloads := s.store.workloads[n := w'], nextRv := s.store.nextRv + 1)
    ensures Inv(s.(store := st', pipe := Upsert(n, w', w.resources.Keys), held := s.held + {(n, w.uid)}))
  {
    HoldStored(s, n, w, w', st');
    ProvsFrame(s, s.(store := st', pipe := Upsert(n, w', w.resources.Keys), held := s.held + {(n, w.uid)}));
  }

  lemma ReleaseStore(st: Store, st': Store, n: string)
    requires StoreOk(st) && Clear(st, n) && n in st.workloads
    requires st' == st.(workloads := st'.workloads, nextRv := st.nextRv + 1)
    requires forall m :: m != n ==> (m in st'.workloads <==> m in st.workloads)
    requires forall m :: m != n && m in st.workloads ==> st'.workloads[m] == st.workloads[m]
    requires n in st'.workloads ==> WorkloadOk(st', st'.workloads[n])
    ensures StoreOk(st')
  {
    forall name | name in st'.claims ensures Backed(st', st'.claims[name]) {
      assert Backed(st, st.claims[name]);
    }
  }

  /** The finalizer goes off: the Workload is let go with nothing of it left to delete. */
  lemma StepRelease(s: Cluster, n: string, w: Workload)
    requires Inv(s) && s.pipe == Release(n, w)
    ensures
      var st' := UpdateWorkload(s.store, n, w.(finalizers := Without(w.finalizers, WORKLOAD_FINALIZER))).store;
      Inv(s.(store := st', pipe := Idle))
  {
    var st' := UpdateWorkload(s.store, n, w.(finalizers := Without(w.finalizers, WORKLOAD_FINALIZER))).store;
    var s' := s.(store := st', pipe := Idle);
    ProvsFrame(s, s');
    if st' != s.store { ReleaseStore(s.store, st', n); }
  }

  /** During a pass the Workload is already on record as held. */
  lemma HeldAlready(s: Cluster, n: string, w: Workload)
    requires Inv(s) && Held(s.store, n, w)
    ensures s.held + {(n, w.uid)} == s.held
  {
    assert (n, s.store.workloads[n].uid) in s.held;
  }

  /** The listed claims are the stored ones. */
  lemma Listed(st: Store, n: string, w: Workload)
    requires StoreOk(st) && PipeOk(st, Got(n, w)) && WORKLOAD_FINALIZER in w.finalizers && w.marked
    ensures PipeOk(st, Dispose(n, w, ClaimsOf(st, n)))
  {
  }

  lemma PipeKeepsHeld(s: Cluster, n: string, w: Workload, choice: string)
    requires Inv(s) && s.pipe == Got(n, w) && WORKLOAD_FINALIZER in w.finalizers
    ensures Inv(Turned(s, PipeNext(s.store, s.pipe, choice)))
  {
    HeldAlready(s, n, w);
    if w.marked {
      Listed(s.store, n, w);
      PipeMoves(s, Dispose(n, w, ClaimsOf(s.store, n)));
    } else {
      PipeMoves(s, Upsert(n, w, w.resources.Keys));
    }
  }

  lemma PipeKeepsGot(s: Cluster, choice: string)
    requires Inv(s) && s.pipe.Got?
    ensures Inv(Turned(s, PipeNext(s.store, s.pipe, choice)))
  {
    var n, w := s.pipe.n, s.pipe.w;
    if WORKLOAD_FINALIZER in w.finalizers {
      PipeKeepsHeld(s, n, w, choice);
    } else if !w.marked && n in s.store.workloads && s.store.workloads[n].rv == w.rv {
      var w' := w.(finalizers := w.finalizers + [WORKLOAD_FINALIZER], rv := s.store.nextRv);
      StepHold(s, n, w, w', s.store.(workloads := s.store.workloads[n := w'], nextRv := s.store.nextRv + 1));
    } else {
      PipeMoves(s, Idle);
    }
  }

  lemma PipeKeepsUpsert(s: Cluster, choice: string)
    requires Inv(s) && s.pipe.Upsert?
    ensures Inv(Turned(s, PipeNext(s.store, s.pipe, choice)))
  {
    HeldAlready(s, s.pipe.n, s.pipe.w);
    PipeMoves(s, PipeNext(s.store, s.pipe, choice).pipe);
  }

  lemma PipeKeepsFound(s: Cluster, choice: string)
    requires Inv(s) && s.pipe.Found? && Tame(s, PipeStep(choice))
    ensures Inv(Turned(s, PipeNext(s.store, s.pipe, choice)))
  {
    var n, w, todo, key, found := s.pipe.n, s.pipe.w, s.pipe.todo, s.pipe.key, s.pipe.found;
    HeldAlready(s, n, w);
    if key in w.resources {
      var desired := DesiredSpec(n, key, w.resources[key]);
      if found.None? {
        StepCreate(s, n, w, todo, key, desired);
      } else if !SpecEqual(found.value.spec, desired) {
        StepUpdate(s, n, w, todo, key, found.value, desired);
      }
    }
  }

  lemma PipeKeepsDispose(s: Cluster, choice: string)
    requires Inv(s) && s.pipe.Dispose?
    ensures Inv(Turned(s, PipeNext(s.store, s.pipe, choice)))
  {
    var n, w, rem := s.pipe.n, s.pipe.w, s.pipe.rem;
    if choice in rem {
      StepDispose(s, n, w, rem, choice, DisposeClaim(s.store, n, choice, rem[choice]));
    } else if rem == map[] && !MustWait(ClaimsOf(s.store, n)) {
      NothingLeft(s.store, n, w);
      PipeMoves(s, Release(n, w));
    } else if rem == map[] {
      PipeMoves(s, Idle);
    }
  }

  lemma StepDispose(s: Cluster, n: string, w: Workload, rem: map<string, Claim>, name: string, a: Answer)
    requires Inv(s) && s.pipe == Dispose(n, w, rem) && name in rem && a == DisposeClaim(s.store, n, name, rem[name])
    ensures Inv(s.(store := a.store, pipe := if a.ok then Dispose(n, w, rem - {name}) else Idle))
  {
    if !EffectivePolicy(rem[name].spec).Delete? {
      StepDisposeKept(s, n, w, rem, name);
    } else if rem[name].marked {
      StepDisposeMarked(s, n, w, rem, name);
    } else {
      StepDisposeDeleted(s, n, w, rem, name);
    }
  }

  /** All claims disposed of and none to wait for: the Workload may go. */
  lemma NothingLeft(st: Store, n: string, w: Workload)
    requires PipeOk(st, Dispose(n, w, map[])) && !MustWait(ClaimsOf(st, n))
    ensures PipeOk(st, Release(n, w))
  {
    forall name | name in st.claims && st.claims[name].spec.ref == n
      ensures !EffectivePolicy(st.claims[name].spec).Delete? && st.claims[name].owners == []
    {
      assert name in ClaimsOf(st, n);
    }
  }

  lemma PipeKeepsRelease(s: Cluster, choice: string)
    requires Inv(s) && s.pipe.Release?
    ensures Inv(Turned(s, PipeNext(s.store, s.pipe, choice)))
  {
    StepRelease(s, s.pipe.n, s.pipe.w);
  }

  // ---------------------------------------------------------------- the provisioner

  lemma HeldFrame(s: Cluster, s': Cluster)
    requires HeldOk(s) && s'.held == s.held && s'.store.workloads == s.store.workloads
    requires forall n :: n in s.store.workloads && Clear(s.store, n) ==> ClaimsShrink(s.store, s'.store, n)
    ensures HeldOk(s')
  {
  }

  lemma WrittenFrame(st: Store, st': Store, name: string)
    requires Written(st, st', name)
    ensures AllVersioned(st, st') && NoNewClaims(st, st')
    ensures forall n :: ClaimsShrink(st, st', n)
  {
  }

  lemma ProvStoreOk(st: Store, st': Store, name: string)
    requires StoreOk(st) && Written(st, st', name)
    requires name in st'.claims ==> ClaimOk(st', st'.claims[name])
    ensures StoreOk(st')
  {
    if name in st'.claims {
      assert Backed(st, st.claims[name]);
    }
  }

  lemma InvCore(s: Cluster)
    requires Inv(s)
    ensures Core(s)
  {
  }

  /** A provisioner step writes its own claim or nothing. */
  lemma ProvStores(s: Cluster, name: string, p: Prov, r: ProvisionResult, h: HealthResult, d: bool)
    requires ProvOk(s, name, p)
    ensures var s' := ProvNext(s, name, p, r, h, d);
            s'.pipe == s.pipe && s'.held == s.held && (s'.store == s.store || Written(s.store, s'.store, name))
  {
  }

  lemma ProvFramed(s: Cluster, s': Cluster, name: string)
    requires Inv(s) && Core(s') && s'.pipe == s.pipe && s'.held == s.held && Written(s.store, s'.store, name)
    ensures Inv(s')
  {
    ProvStoreOk(s.store, s'.store, name);
    WrittenFrame(s.store, s'.store, name);
    PipeFrame(s.store, s'.store, s.pipe);
    HeldFrame(s, s');
  }

  lemma ProvEventKeeps(s: Cluster, e: Event)
    requires Inv(s) && (e.ProvGet? || e.ProvStep? || e.ProvAbort?)
    ensures Inv(Apply(s, e))
  {
    InvCore(s);
    EventKeepsCore(s, e);
    if e.ProvStep? && e.claim in s.prov {
      ProvStores(s, e.claim, s.prov[e.claim], e.provision, e.health, e.deprovisioned);
      if Apply(s, e).store != s.store { ProvFramed(s, Apply(s, e), e.claim); }
    }
  }

  // ---------------------------------------------------------------- every event, every run

  lemma PipeStepKeeps(s: Cluster, choice: string)
    requires Inv(s) && Tame(s, PipeStep(choice))
    ensures Inv(Turned(s, PipeNext(s.store, s.pipe, choice)))
  {
    if s.pipe.Got? {
      PipeKeepsGot(s, choice);
    } else if s.pipe.Upsert? {
      PipeKeepsUpsert(s, choice);
    } else if s.pipe.Found? {
      PipeKeepsFound(s, choice);
    } else if s.pipe.Dispose? {
      PipeKeepsDispose(s, choice);
    } else if s.pipe.Release? {
      PipeKeepsRelease(s, choice);
    }
  }

  lemma PipeEventKeeps(s: Cluster, e: Event)
    requires Inv(s) && Tame(s, e) && (e.PipeGet? || e.PipeStep? || e.PipeAbort?)
    ensures Inv(Apply(s, e))
  {
    if e.PipeStep? {
      PipeStepKeeps(s, e.choice);
    } else if e.PipeAbort? {
      PipeMoves(s, Idle);
    } else if e.n in s.store.workloads && s.pipe.Idle? {
      PipeMoves(s, Got(e.n, s.store.workloads[e.n]));
    }
  }

  lemma UserEventKeeps(s: Cluster, e: Event)
    requires Inv(s) && Tame(s, e)
    requires !e.PipeGet? && !e.PipeStep? && !e.PipeAbort? && !e.ProvGet? && !e.ProvStep? && !e.ProvAbort?
    ensures Inv(Apply(s, e))
  {
    match e
    case UserCreate(n, resources) => if n !in s.store.workloads { WorkloadMade(s, n, resources); }
    case UserEdit(_, _) => UserKeepsWorkloads(s, e);
    case UserDelete(_) => UserKeepsWorkloads(s, e);
    case WorkloadFinalizers(_, _) => UserKeepsWorkloads(s, e);
    case StatusWrite(_) => UserKeepsWorkloads(s, e);
    case UserPolicy(_, _) => UserKeepsClaims(s, e);
    case UserDeleteClaim(_) => UserKeepsClaims(s, e);
    case ClaimFinalizers(_, _) => UserKeepsClaims(s, e);
    case Collect(claim) => NothingToCollect(s, claim);
  }

  lemma EventKeeps(s: Cluster, e: Event)
    requires Inv(s) && Tame(s, e)
    ensures Inv(Apply(s, e))
  {
    if e.PipeGet? || e.PipeStep? || e.PipeAbort? {
      PipeEventKeeps(s, e);
    } else if e.ProvGet? || e.ProvStep? || e.ProvAbort? {
      ProvEventKeeps(s, e);
    } else {
      UserEventKeeps(s, e);
    }
  }

  lemma {:induction false} RunKeeps(s: Cluster, es: seq<Event>)
    requires Inv(s) && TameRun(s, es)
    ensures Inv(Run(s, es))
    decreases |es|
  {
    if es != [] {
      EventKeeps(s, es[0]);
      RunKeeps(Apply(s, es[0]), es[1..]);
    }
  }
}
