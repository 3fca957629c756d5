/** Deletion makes progress: a measure of what a marked Workload still waits for, and exactly which
    events raise it. */
module ProtocolProgress {
  import opened Api
  import opened Lifecycle
  import opened Protocol
  import opened ProtocolClaims
  import opened ProtocolSafety

  // ---------------------------------------------------------------- the measure

  /** The claims the Workload waits for. */
  function Doomed(st: Store, n: string): set<string> {
    set name | name in st.claims && st.claims[name].spec.ref == n && EffectivePolicy(st.claims[name].spec).Delete?
  }

  /** Those of them that are not yet marked for deletion. */
  function Unmarked(st: Store, n: string): set<string> {
    set name | name in Doomed(st, n) && !st.claims[name].marked
  }

  predicate Waiting(st: Store, n: string) {
    n in st.workloads && st.workloads[n].marked && WORKLOAD_FINALIZER in st.workloads[n].finalizers
  }

  /** One for the finalizer, one for every marked claim, two for every other claim. */
  function Measure(st: Store, n: string): nat {
    if Waiting(st, n) then 1 + |Doomed(st, n)| + |Unmarked(st, n)| else 0
  }

  /** A pass that read the Workload before it was marked is still creating claims for it. */
  predicate Creating(p: Pipe, n: string) {
    (p.Got? && p.n == n && !p.w.marked) || (p.Upsert? && p.n == n) || (p.Found? && p.n == n)
  }

  // ---------------------------------------------------------------- it never rises

  /** No claim joins those the Workload waits for, and none loses its mark. */
  ghost predicate Winding(st: Store, st': Store, n: string) {
    forall name :: name in Doomed(st', n) ==>
      name in Doomed(st, n) && (st.claims[name].marked ==> st'.claims[name].marked)
  }

  lemma Subset<T>(a: set<T>, b: set<T>)
    requires a <= b
    ensures |a| <= |b|
    ensures a != b ==> |a| < |b|
  {
    assert b == a + (b - a);
  }

  lemma WindingFalls(st: Store, st': Store, n: string)
    requires Winding(st, st', n)
    ensures |Doomed(st', n)| <= |Doomed(st, n)| && |Unmarked(st', n)| <= |Unmarked(st, n)|
    ensures Doomed(st', n) != Doomed(st, n) ==> |Doomed(st', n)| < |Doomed(st, n)|
    ensures Unmarked(st', n) != Unmarked(st, n) ==> |Unmarked(st', n)| < |Unmarked(st, n)|
  {
    Subset(Doomed(st', n), Doomed(st, n));
    Subset(Unmarked(st', n), Unmarked(st, n));
  }

  lemma UserWindsAt(s: Cluster, e: Event, n: string, name: string)
    requires StoreOk(s.store) && Waiting(s.store, n) && !LatePolicy(s, e) && name in Doomed(User(s.store, e), n)
    requires e.UserPolicy? || e.UserDeleteClaim? || e.ClaimFinalizers?
    ensures name in Doomed(s.store, n) && (s.store.claims[name].marked ==> User(s.store, e).claims[name].marked)
  {
  }

  lemma UserLeavesClaims(st: Store, e: Event)
    requires !(e.UserPolicy? || e.UserDeleteClaim? || e.ClaimFinalizers?)
    ensures User(st, e).claims == st.claims
  {
  }

  lemma UserWinds(s: Cluster, e: Event, n: string)
    requires StoreOk(s.store) && Waiting(s.store, n) && !LatePolicy(s, e)
    ensures Winding(s.store, User(s.store, e), n)
  {
    if e.UserPolicy? || e.UserDeleteClaim? || e.ClaimFinalizers? {
      forall name | name in Doomed(User(s.store, e), n)
        ensures name in Doomed(s.store, n) && (s.store.claims[name].marked ==> User(s.store, e).claims[name].marked)
      {
        UserWindsAt(s, e, n, name);
      }
    } else {
      UserLeavesClaims(s.store, e);
    }
  }

  lemma UserLeavesWaiting(st: Store, e: Event, n: string)
    requires StoreOk(st) && Waiting(st, n)
    ensures Waiting(User(st, e), n)
  {
  }

  lemma UpsertWinds(st: Store, m: string, w: Workload, key: string, r: ResourceSpec, found: Option<Claim>, n: string)
    requires m != n && (found.Some? ==> Snapshot(st, ClaimName(m, key), found.value) && found.value.spec.ref == m)
    ensures Winding(st, UpsertClaim(st, m, w, key, r, found).store, n)
  {
  }

  lemma DisposeWinds(st: Store, m: string, name: string, c: Claim, n: string)
    requires Snapshot(st, name, c)
    ensures Winding(st, DisposeClaim(st, m, name, c).store, n)
  {
  }

  lemma PipeWinds(st: Store, p: Pipe, choice: string, n: string)
    requires StoreOk(st) && PipeOk(st, p) && !(p.Found? && p.n == n)
    requires p.Found? && p.found.Some? ==> p.found.value.spec.ref == p.n
    ensures Winding(st, PipeNext(st, p, choice).store, n)
  {
    match p
    case Found(m, w, _, key, found) => if key in w.resources { UpsertWinds(st, m, w, key, w.resources[key], found, n); }
    case Dispose(m, w, rem) => if choice in rem { DisposeWinds(st, m, choice, rem[choice], n); }
    case _ =>
  }

  lemma PipeStaysAway(st: Store, p: Pipe, choice: string, n: string)
    requires PipeOk(st, p) && Waiting(st, n)
    ensures !Creating(p, n) ==> !Creating(PipeNext(st, p, choice).pipe, n)
    ensures Waiting(PipeNext(st, p, choice).store, n) || Clear(PipeNext(st, p, choice).store, n)
  {
  }

  lemma ProvKeepsMark(s: Cluster, name: string, p: Prov, r: ProvisionResult, h: HealthResult, d: bool)
    requires ProvOk(s, name, p)
    ensures var st' := ProvNext(s, name, p, r, h, d).store;
            name in s.store.claims && name in st'.claims && s.store.claims[name].marked ==> st'.claims[name].marked
  {
  }

  lemma ProvWinds(s: Cluster, name: string, p: Prov, r: ProvisionResult, h: HealthResult, d: bool, n: string)
    requires ProvOk(s, name, p)
    ensures Winding(s.store, ProvNext(s, name, p, r, h, d).store, n)
    ensures ProvNext(s, name, p, r, h, d).store.workloads == s.store.workloads
    ensures ProvNext(s, name, p, r, h, d).pipe == s.pipe
  {
    ProvStores(s, name, p, r, h, d);
    ProvKeepsMark(s, name, p, r, h, d);
    WrittenWinds(s.store, ProvNext(s, name, p, r, h, d).store, name, n);
  }

  lemma WrittenWinds(st: Store, st': Store, name: string, n: string)
    requires st' == st || Written(st, st', name)
    requires name in st.claims && name in st'.claims && st.claims[name].marked ==> st'.claims[name].marked
    ensures Winding(st, st', n)
  {
  }

  /** What one event may do to a Workload that waits. */
  ghost predicate Onward(s: Cluster, s': Cluster, n: string) {
    && Winding(s.store, s'.store, n)
    && (!Creating(s.pipe, n) ==> !Creating(s'.pipe, n))
    && (Waiting(s'.store, n) || Clear(s'.store, n))
  }

  /** The write of an upsert for the Workload itself, in a pass that read it before it was marked. */
  predicate Upserts(s: Cluster, e: Event, n: string) {
    e.PipeStep? && s.pipe.Found? && s.pipe.n == n
  }

  lemma PipeOnward(s: Cluster, choice: string, n: string)
    requires Inv(s) && Tame(s, PipeStep(choice)) && Waiting(s.store, n) && !Upserts(s, PipeStep(choice), n)
    ensures Onward(s, Turned(s, PipeNext(s.store, s.pipe, choice)), n)
  {
    PipeWinds(s.store, s.pipe, choice, n);
    PipeStaysAway(s.store, s.pipe, choice, n);
  }

  lemma ProvOnward(s: Cluster, name: string, r: ProvisionResult, h: HealthResult, d: bool, n: string)
    requires Inv(s) && Waiting(s.store, n) && name in s.prov
    ensures Onward(s, ProvNext(s, name, s.prov[name], r, h, d), n)
  {
    ProvWinds(s, name, s.prov[name], r, h, d, n);
  }

  lemma EventOnward(s: Cluster, e: Event, n: string)
    requires Inv(s) && Tame(s, e) && Waiting(s.store, n) && !Upserts(s, e, n)
    ensures Onward(s, Apply(s, e), n)
  {
    if e.PipeStep? {
      PipeOnward(s, e.choice, n);
    } else if e.ProvStep? {
      if e.claim in s.prov { ProvOnward(s, e.claim, e.provision, e.health, e.deprovisioned, n); }
    } else if e.Collect? {
      NothingToCollect(s, e.claim);
    } else if !e.PipeGet? && !e.PipeAbort? && !e.ProvGet? && !e.ProvAbort? {
      UserWinds(s, e, n);
      UserLeavesWaiting(s.store, e, n);
    }
  }

  // ---------------------------------------------------------------- exactly what raises it

  /** The upsert creates a claim, or wipes a policy that would have spared it. */
  predicate Adds(st: Store, n: string, key: string, r: ResourceSpec, found: Option<Claim>) {
    var name := ClaimName(n, key);
    if found.None? then name !in st.claims
    else
      && name in st.claims && st.claims[name].rv == found.value.rv
      && !SpecEqual(found.value.spec, DesiredSpec(n, key, r)) && !EffectivePolicy(found.value.spec).Delete?
  }

  predicate Raises(s: Cluster, e: Event, n: string) {
    Upserts(s, e, n) && s.pipe.key in s.pipe.w.resources
        && Adds(s.store, n, s.pipe.key, s.pipe.w.resources[s.pipe.key], s.pipe.found)
  }

  lemma UpsertSets(st: Store, n: string, w: Workload, key: string, r: ResourceSpec, found: Option<Claim>)
    requires StoreOk(st) && (found.Some? ==> Snapshot(st, ClaimName(n, key), found.value) && found.value.spec.ref == n)
    ensures var st', name := UpsertClaim(st, n, w, key, r, found).store, ClaimName(n, key);
            && st'.workloads == st.workloads
            && (Adds(st, n, key, r, found) ==>
                  name !in Doomed(st, n) && Doomed(st', n) == Doomed(st, n) + {name}
                      && Unmarked(st, n) <= Unmarked(st', n))
            && (!Adds(st, n, key, r, found) ==> Doomed(st', n) == Doomed(st, n) && Unmarked(st', n) == Unmarked(st, n))
  {
    var st', name := UpsertClaim(st, n, w, key, r, found).store, ClaimName(n, key);
    if st' != st { PutSets(st, st', name, n); }
  }

  /** A claim of the Workload that is to be deleted is stored under the name. */
  lemma PutSets(st: Store, st': Store, name: string, n: string)
    requires name in st'.claims && st'.claims == st.claims[name := st'.claims[name]]
    requires st'.claims[name].spec.ref == n && EffectivePolicy(st'.claims[name].spec).Delete?
    requires name in st.claims ==> st.claims[name].spec.ref == n && st'.claims[name].marked == st.claims[name].marked
    ensures Doomed(st', n) == Doomed(st, n) + {name}
    ensures Unmarked(st', n) == Unmarked(st, n) + if st'.claims[name].marked then {} else {name}
    ensures name in Unmarked(st, n) ==> !st'.claims[name].marked
  {
  }

  lemma UpsertMeasure(st: Store, n: string, w: Workload, key: string, r: ResourceSpec, found: Option<Claim>)
    requires StoreOk(st) && Waiting(st, n)
    requires found.Some? ==> Snapshot(st, ClaimName(n, key), found.value) && found.value.spec.ref == n
    ensures var st' := UpsertClaim(st, n, w, key, r, found).store;
            Waiting(st', n) && if Adds(st, n, key, r, found) then Measure(st', n) > Measure(st, n)
                else Measure(st', n) == Measure(st, n)
  {
    UpsertSets(st, n, w, key, r, found);
    var st' := UpsertClaim(st, n, w, key, r, found).store;
    Subset(Doomed(st, n), Doomed(st', n));
    Subset(Unmarked(st, n), Unmarked(st', n));
  }

  /** While a Workload waits, exactly these events raise what it waits for: its own pass, begun
      before the mark, creates a claim or wipes a sparing policy. And the wait ends only with
      nothing left to delete. */
  lemma MeasureRisesExactly(s: Cluster, e: Event, n: string)
    requires Inv(s) && Tame(s, e) && Waiting(s.store, n)
    ensures Measure(Apply(s, e).store, n) > Measure(s.store, n) <==> Raises(s, e, n)
    ensures !Waiting(Apply(s, e).store, n) ==> Clear(Apply(s, e).store, n)
  {
    if Upserts(s, e, n) {
      var p := s.pipe;
      assert PipeOk(s.store, p);
      if p.key in p.w.resources { UpsertMeasure(s.store, n, p.w, p.key, p.w.resources[p.key], p.found); }
    } else {
      EventOnward(s, e, n);
      WindingFalls(s.store, Apply(s, e).store, n);
    }
  }

  /** Once no old pass is still creating claims for it, no event of any actor raises it. */
  lemma MeasureNeverRises(s: Cluster, e: Event, n: string)
    requires Inv(s) && Tame(s, e) && Waiting(s.store, n) && !Creating(s.pipe, n)
    ensures Onward(s, Apply(s, e), n) && !Creating(Apply(s, e).pipe, n)
    ensures Measure(Apply(s, e).store, n) <= Measure(s.store, n)
  {
    EventOnward(s, e, n);
    WindingFalls(s.store, Apply(s, e).store, n);
  }
}
