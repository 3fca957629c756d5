/** Claim names: which resources users may declare so that no two Workloads fight over a claim. */
module ProtocolNames {
  import opened Api
  import opened Lifecycle
  import opened Protocol
  import opened ProtocolClaims

  /** A resource as users declare it: the name of the Workload and the key. */
  type Pair = (string, string)

  function Declared(e: Event): set<Pair> {
    match e
    case UserCreate(n, resources) => set key | key in resources :: (n, key)
    case UserEdit(n, resources) => set key | key in resources :: (n, key)
    case _ => {}
  }

  function AllDeclared(es: seq<Event>): set<Pair> {
    if es == [] then {} else AllDeclared(es[..|es| - 1]) + Declared(es[|es| - 1])
  }

  /** No two declared resources of different Workloads share a claim name. */
  ghost predicate Apart(ps: set<Pair>) {
    forall p, q :: p in ps && q in ps && ClaimName(p.0, p.1) == ClaimName(q.0, q.1) ==> p.0 == q.0
  }

  /** No policy is edited while the claim's Workload is being deleted. */
  predicate SettledRun(s: Cluster, es: seq<Event>)
    decreases |es|
  {
    es == [] || (!LatePolicy(s, es[0]) && SettledRun(Apply(s, es[0]), es[1..]))
  }

  // ---------------------------------------------------------------- the invariant

  predicate Keyed(n: string, w: Workload, ps: set<Pair>) {
    forall key :: key in w.resources ==> (n, key) in ps
  }

  /** A claim is named after its reference and key, which were declared. */
  predicate NamedIn(name: string, spec: ClaimSpec, ps: set<Pair>) {
    name == ClaimName(spec.ref, spec.key) && (spec.ref, spec.key) in ps
  }

  predicate ClaimsNamed(st: Store, ps: set<Pair>) {
    forall name :: name in st.claims ==> NamedIn(name, st.claims[name].spec, ps)
  }

  predicate PipeNamed(p: Pipe, ps: set<Pair>) {
    match p
    case Got(n, w) => Keyed(n, w, ps)
    case Upsert(n, w, todo) => Keyed(n, w, ps) && todo <= w.resources.Keys
    case Found(n, w, todo, key, found) =>
      && Keyed(n, w, ps) && todo <= w.resources.Keys && key in w.resources
      && (found.Some? ==> NamedIn(ClaimName(n, key), found.value.spec, ps))
    case Dispose(n, w, _) => Keyed(n, w, ps)
    case Release(n, w) => Keyed(n, w, ps)
    case Idle => true
  }

  predicate NamesInv(s: Cluster, ps: set<Pair>) {
    && (forall n :: n in s.store.workloads ==> Keyed(n, s.store.workloads[n], ps))
    && ClaimsNamed(s.store, ps)
    && PipeNamed(s.pipe, ps)
  }

  lemma UserKeepsNames(st: Store, e: Event, ps: set<Pair>)
    requires ClaimsNamed(st, ps) && (forall n :: n in st.workloads ==> Keyed(n, st.workloads[n], ps))
        && Declared(e) <= ps
    ensures ClaimsNamed(User(st, e), ps) && forall n :: n in User(st, e).workloads ==>
        Keyed(n, User(st, e).workloads[n], ps)
  {
    match e
    case UserCreate(n, resources) => assert forall key :: key in resources ==> (n, key) in Declared(e);
    case UserEdit(n, resources) => assert forall key :: key in resources ==> (n, key) in Declared(e);
    case _ =>
  }

  lemma UpsertKeepsNames(st: Store, n: string, w: Workload, key: string, found: Option<Claim>, ps: set<Pair>)
    requires ClaimsNamed(st, ps) && Keyed(n, w, ps) && key in w.resources
    ensures var st' := UpsertClaim(st, n, w, key, w.resources[key], found).store;
            ClaimsNamed(st', ps) && st'.workloads == st.workloads
  {
    assert (n, key) in ps;
  }

  lemma DisposeKeepsNames(st: Store, n: string, name: string, c: Claim, ps: set<Pair>)
    requires ClaimsNamed(st, ps) && Snapshot(st, name, c)
    ensures var st' := DisposeClaim(st, n, name, c).store; ClaimsNamed(st', ps) && st'.workloads == st.workloads
  {
  }

  lemma PipeKeepsNames(s: Cluster, choice: string, ps: set<Pair>)
    requires Core(s) && NamesInv(s, ps)
    ensures NamesInv(Turned(s, PipeNext(s.store, s.pipe, choice)), ps)
  {
    if s.pipe.Found? {
      UpsertKeepsNames(s.store, s.pipe.n, s.pipe.w, s.pipe.key, s.pipe.found, ps);
    } else if s.pipe.Dispose? && choice in s.pipe.rem {
      DisposeKeepsNames(s.store, s.pipe.n, choice, s.pipe.rem[choice], ps);
    }
  }

  lemma ProvKeepsNames(s: Cluster, name: string, p: Prov, r: ProvisionResult, h: HealthResult, d: bool, ps: set<Pair>)
    requires ClaimsNamed(s.store, ps) && ProvOk(s, name, p)
    ensures ClaimsNamed(ProvNext(s, name, p, r, h, d).store, ps)
    ensures ProvNext(s, name, p, r, h, d).store.workloads == s.store.workloads
        && ProvNext(s, name, p, r, h, d).pipe == s.pipe
  {
  }

  lemma EventKeepsNames(s: Cluster, e: Event, ps: set<Pair>)
    requires Core(s) && NamesInv(s, ps) && Declared(e) <= ps
    ensures NamesInv(Apply(s, e), ps)
  {
    if e.PipeStep? {
      PipeKeepsNames(s, e.choice, ps);
    } else if e.ProvStep? {
      if e.claim in s.prov {
        ProvKeepsNames(s, e.claim, s.prov[e.claim], e.provision, e.health, e.deprovisioned, ps);
      }
    } else if !e.PipeGet? && !e.PipeAbort? && !e.ProvGet? && !e.ProvAbort? && !e.Collect? {
      UserKeepsNames(s.store, e, ps);
    }
  }

  // ---------------------------------------------------------------- runs

  lemma {:induction false} AllDeclaredFirst(es: seq<Event>)
    requires es != []
    ensures Declared(es[0]) <= AllDeclared(es) && AllDeclared(es[1..]) <= AllDeclared(es)
    decreases |es|
  {
    if |es| > 1 {
      var init := es[..|es| - 1];
      AllDeclaredFirst(init);
      assert es[1..][..|es| - 2] == init[1..];
    }
  }

  /** With resources apart, an upsert never finds the claim of another Workload. */
  lemma NeverCollides(s: Cluster, e: Event, ps: set<Pair>)
    requires NamesInv(s, ps) && Apart(ps)
    ensures !Collides(s, e)
  {
  }

  lemma {:induction false} ApartIsTame(s: Cluster, es: seq<Event>, ps: set<Pair>)
    requires Core(s) && NamesInv(s, ps) && Apart(ps) && AllDeclared(es) <= ps && SettledRun(s, es)
    ensures TameRun(s, es)
    decreases |es|
  {
    if es != [] {
      AllDeclaredFirst(es);
      NeverCollides(s, es[0], ps);
      EventKeepsCore(s, es[0]);
      EventKeepsNames(s, es[0], ps);
      ApartIsTame(Apply(s, es[0]), es[1..], ps);
    }
  }

  /** What users can check: the resources they declare are apart, and no policy is edited late. */
  lemma TameByNames(strategies: set<string>, es: seq<Event>)
    requires Apart(AllDeclared(es)) && SettledRun(Init(strategies), es)
    ensures TameRun(Init(strategies), es)
  {
    ApartIsTame(Init(strategies), es, AllDeclared(es));
  }

  lemma {:induction false} RunKeepsNames(s: Cluster, es: seq<Event>, ps: set<Pair>)
    requires Core(s) && NamesInv(s, ps) && AllDeclared(es) <= ps
    ensures NamesInv(Run(s, es), ps)
    decreases |es|
  {
    if es != [] {
      AllDeclaredFirst(es);
      EventKeepsCore(s, es[0]);
      EventKeepsNames(s, es[0], ps);
      RunKeepsNames(Apply(s, es[0]), es[1..], ps);
    }
  }

  /** In every run, whatever is declared, a claim's name is made of its reference and key. */
  lemma ReachableNames(strategies: set<string>, es: seq<Event>)
    ensures ClaimsNamed(Run(Init(strategies), es).store, AllDeclared(es))
  {
    RunKeepsNames(Init(strategies), es, AllDeclared(es));
  }
}
