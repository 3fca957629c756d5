/** The controllers as one state machine over the store. A pass of a controller is a program
    counter with the objects it has read; every event performs at most one client call, so
    passes of different controllers, the garbage collector and users interleave freely. An
    event whose guard does not hold changes nothing, so every event sequence is a run. */
module Protocol {
  import opened Api
  import opened Lifecycle

  /** The Workload pipeline. Its passes are serialised over all Workloads. */
  datatype Pipe =
    | Idle
    | Got(n: string, w: Workload)
    | Upsert(n: string, w: Workload, todo: set<string>)
    | Found(n: string, w: Workload, todo: set<string>, key: string, found: Option<Claim>)
    | Dispose(n: string, w: Workload, rem: map<string, Claim>)
    | Release(n: string, w: Workload)

  /** A provisioner pass on one claim. `Write` carries the claim as read and the status to store. */
  datatype Prov =
    | Read(c: Claim)
    | Armed(c: Claim)
    | Recover(c: Claim)
    | Write(c: Claim, status: ClaimStatus)
    | Drop(c: Claim)

  /** Infrastructure that a strategy may have created for a claim and has not torn down. */
  datatype Resource = Resource(claim: string, uid: nat, typ: string)

  /** Outputs that a Provision call returned for a claim and that passed validation. */
  datatype Grant = Grant(claim: string, uid: nat, outputs: Outputs)

  /** The last three fields are history: the resources that exist, the outputs ever granted,
      and the Workloads, by name and uid, that ever carried the finalizer. */
  datatype Cluster = Cluster(
    store: Store, pipe: Pipe, prov: map<string, Prov>, strategies: set<string>,
    live: set<Resource>, granted: set<Grant>, held: set<(string, nat)>)

  datatype Event =
    | UserCreate(n: string, resources: map<string, ResourceSpec>)
    | UserEdit(n: string, resources: map<string, ResourceSpec>)
    | UserDelete(n: string)
    | UserPolicy(claim: string, policy: Option<Policy>)
    | UserDeleteClaim(claim: string)
    | WorkloadFinalizers(n: string, finalizers: seq<string>)
    | ClaimFinalizers(claim: string, finalizers: seq<string>)
    | StatusWrite(n: string)
    | PipeGet(n: string)
    | PipeStep(choice: string)
    | PipeAbort
    | ProvGet(claim: string)
    | ProvStep(claim: string, provision: ProvisionResult, health: HealthResult, deprovisioned: bool)
    | ProvAbort(claim: string)
    | Collect(claim: string)

  function Init(strategies: set<string>): Cluster {
    Cluster(Store(map[], map[], 0, 0), Idle, map[], strategies, {}, {}, {})
  }

  // ---------------------------------------------------------------- users and other controllers

  /** Other parties may add and remove their own finalizers, but nobody adds one to an object
      marked for deletion. */
  predicate ForeignEdit(cur: seq<string>, next: seq<string>, ours: string, marked: bool) {
    && (ours in cur <==> ours in next)
    && (marked ==> forall f :: f in next ==> f in cur)
  }

  function User(st: Store, e: Event): Store {
    match e
    case UserCreate(n, resources) => CreateWorkload(st, n, resources).store
    case UserEdit(n, resources) =>
      if n in st.workloads then UpdateWorkload(st, n, st.workloads[n].(resources := resources)).store else st
    case UserDelete(n) => DeleteWorkload(st, n).store
    case UserPolicy(claim, policy) =>
      if claim in st.claims then
        var c := st.claims[claim];
        UpdateClaim(st, claim, c.(spec := c.spec.(policy := policy))).store
      else st
    case UserDeleteClaim(claim) => DeleteClaim(st, claim).store
    case WorkloadFinalizers(n, fs) =>
      if n in st.workloads && ForeignEdit(st.workloads[n].finalizers, fs, WORKLOAD_FINALIZER,
          st.workloads[n].marked) then
        UpdateWorkload(st, n, st.workloads[n].(finalizers := fs)).store
      else st
    case ClaimFinalizers(claim, fs) =>
      if claim in st.claims && ForeignEdit(st.claims[claim].finalizers, fs, CLAIM_FINALIZER,
          st.claims[claim].marked) then
        UpdateClaim(st, claim, st.claims[claim].(finalizers := fs)).store
      else st
    case StatusWrite(n) => TouchWorkload(st, n).store
    case _ => st
  }

  /** Background garbage collection: a dependent all of whose owners are gone is deleted. */
  predicate Collectable(st: Store, claim: string) {
    && claim in st.claims
    && st.claims[claim].owners != []
    && forall o :: o in st.claims[claim].owners ==> !Alive(st, o)
  }

  // ---------------------------------------------------------------- the Workload pipeline

  /** What the deletion phase does with one listed claim. */
  function DisposeClaim(st: Store, n: string, name: string, c: Claim): Answer {
    match EffectivePolicy(c.spec)
    case Delete => if c.marked then Answer(true, st) else DeleteClaim(st, name)
    case Retain => UpdateClaim(st, name, c.(owners := Disowned(c.owners, n)))
    case Orphan => UpdateClaim(st, name, c.(owners := Disowned(c.owners, n)))
  }

  predicate MustWait(claims: map<string, Claim>) {
    exists name :: name in claims && EffectivePolicy(claims[name].spec).Delete?
  }

  /** The write of an upsert, given the claim found under the name. */
  function UpsertClaim(st: Store, n: string, w: Workload, key: string, r: ResourceSpec, found: Option<Claim>): Answer {
    var desired := DesiredSpec(n, key, r);
    match found
    case None => CreateClaim(st, ClaimName(n, key), desired, [OwnerRef("Workload", n, w.uid)])
    case Some(c) =>
      if SpecEqual(c.spec, desired) then Answer(true, st)
      else UpdateClaim(st, ClaimName(n, key), c.(spec := desired))
  }

  datatype PipeTurn = PipeTurn(store: Store, pipe: Pipe)

  function PipeNext(st: Store, p: Pipe, choice: string): PipeTurn {
    match p
    case Idle => PipeTurn(st, Idle)
    case Got(n, w) =>
      if w.marked then
        if WORKLOAD_FINALIZER in w.finalizers then PipeTurn(st, Dispose(n, w, ClaimsOf(st, n)))
        else PipeTurn(st, Idle)
      else if WORKLOAD_FINALIZER in w.finalizers then PipeTurn(st, Upsert(n, w, w.resources.Keys))
      else
        var a := UpdateWorkload(st, n, w.(finalizers := w.finalizers + [WORKLOAD_FINALIZER]));
        if a.ok && n in a.store.workloads then
          PipeTurn(a.store, Upsert(n, a.store.workloads[n], w.resources.Keys))
        else PipeTurn(a.store, Idle)
    case Upsert(n, w, todo) =>
      if choice in todo then
        var name := ClaimName(n, choice);
        PipeTurn(st, Found(n, w, todo - {choice}, choice, if name in st.claims then Some(st.claims[name]) else None))
      else if todo == {} then PipeTurn(st, Idle)
      else PipeTurn(st, p)
    case Found(n, w, todo, key, found) =>
      if key in w.resources then
        var a := UpsertClaim(st, n, w, key, w.resources[key], found);
        PipeTurn(a.store, if a.ok then Upsert(n, w, todo) else Idle)
      else PipeTurn(st, Idle)
    case Dispose(n, w, rem) =>
      if choice in rem then
        var a := DisposeClaim(st, n, choice, rem[choice]);
        PipeTurn(a.store, if a.ok then Dispose(n, w, rem - {choice}) else Idle)
      else if rem == map[] then PipeTurn(st, if MustWait(ClaimsOf(st, n)) then Idle else Release(n, w))
      else PipeTurn(st, p)
    case Release(n, w) =>
      var a := UpdateWorkload(st, n, w.(finalizers := Without(w.finalizers, WORKLOAD_FINALIZER)));
      PipeTurn(a.store, Idle)
  }

  /** Consecutive pipeline steps, with the choices they make. */
  function PipeRun(t: PipeTurn, choices: seq<string>): PipeTurn
    decreases |choices|
  {
    if choices == [] then t
    else
      var u := PipeRun(t, choices[..|choices| - 1]);
      PipeNext(u.store, u.pipe, choices[|choices| - 1])
  }

  // ---------------------------------------------------------------- the provisioner

  function SetProv(s: Cluster, claim: string, p: Prov): Cluster {
    s.(prov := s.prov[claim := p])
  }

  function EndProv(s: Cluster, claim: string): Cluster {
    s.(prov := s.prov - {claim})
  }

  function CallProvision(s: Cluster, claim: string, c: Claim, r: ProvisionResult): Cluster {
    var granted :=
      if r.Provisioned? && ValidOutputs(r.outputs) then s.granted + {Grant(claim, c.uid, r.outputs.value)}
          else s.granted;
    SetProv(s.(live := s.live + {Resource(claim, c.uid, c.spec.typ)}, granted := granted),
            claim, Write(c, AfterProvision(c, r)))
  }

  function Provision(s: Cluster, claim: string, c: Claim, r: ProvisionResult, h: HealthResult): Cluster {
    if c.spec.typ !in s.strategies then
      SetProv(s, claim, Write(c, Unbound(c, Failed, "ClaimFailed", "No strategy available")))
    else
      match c.status.phase
      case Unset => CallProvision(s, claim, c, r)
      case Pending => CallProvision(s, claim, c, r)
      case Claiming =>
        if h.Health? && h.phase.Bound? then SetProv(s, claim, Recover(c))
        else SetProv(s, claim, Write(c, AfterClaimingCheck(c, h)))
      case Bound => SetProv(s, claim, Write(c, AfterBoundCheck(c, h)))
      case Failed => SetProv(s, claim, Write(c, AfterFailedCheck(c, h)))
      case Unknown(_) =>
        SetProv(s, claim, Write(c, Unbound(c, Pending, "ClaimPending", "Unknown phase, resetting to Pending")))
  }

  function ProvNext(s: Cluster, claim: string, p: Prov, r: ProvisionResult, h: HealthResult,
      deprovisioned: bool): Cluster {
    match p
    case Read(c) =>
      if !ShouldReconcile(c) then EndProv(s, claim)
      else if c.marked then
        if c.spec.typ !in s.strategies then SetProv(s, claim, Drop(c))
        else if deprovisioned then
          SetProv(s.(live := s.live - {Resource(claim, c.uid, c.spec.typ)}), claim, Drop(c))
        else EndProv(s, claim)
      else if !HasFinalizer(c) then
        var a := UpdateClaim(s.store, claim, c.(finalizers := c.finalizers + [CLAIM_FINALIZER]));
        if a.ok && claim in a.store.claims then
          SetProv(s.(store := a.store), claim, Armed(a.store.claims[claim]))
        else EndProv(s.(store := a.store), claim)
      else Provision(s, claim, c, r, h)
    case Armed(c) =>
      var st := UpdateClaimStatus(s.store, claim, c.rv,
          Unbound(c, Pending, "ClaimPending", "Initializing resource claim")).store;
      EndProv(s.(store := st), claim)
    case Recover(c) => CallProvision(s, claim, c, r)
    case Write(c, status) =>
      EndProv(s.(store := UpdateClaimStatus(s.store, claim, c.rv, status).store), claim)
    case Drop(c) =>
      var st := UpdateClaim(s.store, claim, c.(finalizers := Without(c.finalizers, CLAIM_FINALIZER))).store;
      EndProv(s.(store := st), claim)
  }

  // ---------------------------------------------------------------- runs

  /** The cluster after a pipeline step; a pass in its claim phase has seen the finalizer stored. */
  function Turned(s: Cluster, t: PipeTurn): Cluster {
    var held := if t.pipe.Upsert? then s.held + {(t.pipe.n, t.pipe.w.uid)} else s.held;
    s.(store := t.store, pipe := t.pipe, held := held)
  }

  function Apply(s: Cluster, e: Event): Cluster {
    match e
    case PipeGet(n) =>
      if s.pipe.Idle? && n in s.store.workloads then s.(pipe := Got(n, s.store.workloads[n])) else s
    case PipeStep(choice) => Turned(s, PipeNext(s.store, s.pipe, choice))
    case PipeAbort => s.(pipe := Idle)
    case ProvGet(claim) =>
      if claim !in s.prov && claim in s.store.claims then SetProv(s, claim, Read(s.store.claims[claim])) else s
    case ProvStep(claim, r, h, d) =>
      if claim in s.prov then ProvNext(s, claim, s.prov[claim], r, h, d) else s
    case ProvAbort(claim) => EndProv(s, claim)
    case Collect(claim) =>
      if Collectable(s.store, claim) then s.(store := DeleteClaim(s.store, claim).store) else s
    case _ => s.(store := User(s.store, e))
  }

  function Run(s: Cluster, es: seq<Event>): Cluster
    decreases |es|
  {
    if es == [] then s else Run(Apply(s, es[0]), es[1..])
  }

  // ---------------------------------------------------------------- hypotheses on runs

  /** Two Workloads whose names and keys join to the same claim name fight over one claim. */
  predicate Collides(s: Cluster, e: Event) {
    e.PipeStep? && s.pipe.Found? && s.pipe.found.Some? && s.pipe.found.value.spec.ref != s.pipe.n
  }

  /** A policy edit on a claim whose Workload is being deleted. */
  predicate LatePolicy(s: Cluster, e: Event) {
    && e.UserPolicy? && e.claim in s.store.claims
    && s.store.claims[e.claim].spec.ref in s.store.workloads
    && s.store.workloads[s.store.claims[e.claim].spec.ref].marked
  }

  /** An accepted upsert that gives the stored claim another resource type. */
  predicate Retypes(s: Cluster, e: Event, claim: string) {
    && e.PipeStep? && s.pipe.Found? && s.pipe.found.Some?
    && s.pipe.key in s.pipe.w.resources && ClaimName(s.pipe.n, s.pipe.key) == claim
    && claim in s.store.claims && s.store.claims[claim].rv == s.pipe.found.value.rv
    && s.pipe.found.value.spec.typ != s.pipe.w.resources[s.pipe.key].typ
  }

  predicate Tame(s: Cluster, e: Event) {
    !Collides(s, e) && !LatePolicy(s, e)
  }

  predicate TameRun(s: Cluster, es: seq<Event>)
    decreases |es|
  {
    es == [] || (Tame(s, es[0]) && TameRun(Apply(s, es[0]), es[1..]))
  }

  /** The run does not retype the claim. */
  predicate TypedRun(s: Cluster, es: seq<Event>, claim: string)
    decreases |es|
  {
    es == [] || (!Retypes(s, es[0], claim) && TypedRun(Apply(s, es[0]), es[1..], claim))
  }

  lemma {:induction false} RunAppend(s: Cluster, a: seq<Event>, b: seq<Event>)
    ensures Run(s, a + b) == Run(Run(s, a), b)
    ensures TameRun(s, a) && TameRun(Run(s, a), b) ==> TameRun(s, a + b)
    decreases |a|
  {
    if a == [] {
      assert a + b == b;
    } else {
      assert (a + b)[1..] == a[1..] + b;
      RunAppend(Apply(s, a[0]), a[1..], b);
    }
  }
}
