/** Runs from the start in which deletion is held up: by a pass that began before the mark, and by
    somebody else's finalizer. */
module ProtocolWitnesses {
  import opened Api
  import opened Protocol
  import opened ProtocolCollision
  import opened ProtocolNames
  import opened ProtocolPasses
  import opened ProtocolProgress
  import opened ProtocolTheorems

  /** A run that declares one resource keeps the invariant. */
  lemma OneIsOrderly(strategies: set<string>, es: seq<Event>, s: Cluster, p: Pair)
    requires Leads(Init(strategies), es, s, {p})
    ensures Orderly(strategies, es)
  {
  }

  // ---------------------------------------------------------------- a pass that began before the mark

  lemma RiseSteps(s: Cluster, n: string, w: Workload, key: string)
    requires s.pipe == Upsert(n, w, {key}) && n in s.store.workloads && s.store.workloads[n] == w && key in w.resources
    requires !w.marked && w.finalizers == [WORKLOAD_FINALIZER] && ClaimName(n, key) !in s.store.claims
    ensures var s' := Apply(Apply(s, PipeStep(key)), UserDelete(n));
            Waiting(s'.store, n) && Raises(s', PipeStep(""), n)
  {
    var s1 := Apply(s, PipeStep(key));
    assert s1.pipe == Found(n, w, {key} - {key}, key, None) && s1.store == s.store;
    assert Apply(s1, UserDelete(n)).pipe == s1.pipe;
  }

  /** The user deletes a Workload between the read and the write of an upsert: the claim is created
      all the same, and the Workload waits for one more. */
  lemma RiseReachable(strategies: set<string>, n: string, key: string, r: ResourceSpec) returns (es: seq<Event>)
    ensures Orderly(strategies, es)
    ensures var s := Run(Init(strategies), es);
            Waiting(s.store, n) && Measure(Apply(s, PipeStep("")).store, n) > Measure(s.store, n)
  {
    var s0, ps := Init(strategies), {(n, key)};
    assert Leads(s0, [], s0, ps);
    es := OpenWorkload(s0, [], s0, ps, n, key, r);
    var s := Opened(s0, n, key, r);
    RiseSteps(s, n, s.pipe.w, key);
    Extend(s0, es, s, ps, PipeStep(key));
    Extend(s0, es + [PipeStep(key)], Apply(s, PipeStep(key)), ps, UserDelete(n));
    es := es + [PipeStep(key)] + [UserDelete(n)];
    s := Run(s0, es);
    OneIsOrderly(strategies, es, s, (n, key));
    Reachable(strategies, es);
    MeasureRisesExactly(s, PipeStep(""), n);
  }

  // ---------------------------------------------------------------- somebody else's finalizer

  /** One claim of the Workload, kept by somebody else. */
  predicate OneForeign(s: Cluster, n: string, name: string, f: string) {
    && s.store.claims.Keys == {name} && s.store.claims[name].finalizers == [f] && f != CLAIM_FINALIZER
    && s.store.claims[name].spec.ref == n && EffectivePolicy(s.store.claims[name].spec).Delete?
  }

  lemma HoldSteps(s: Cluster, n: string, name: string, f: string)
    requires s.pipe.Idle? && Plain(s, n) && OneForeign(s, n, name, f) && !s.store.claims[name].marked
    ensures var s1 := Apply(Apply(s, UserDelete(n)), PipeGet(n));
            var s' := Apply(Apply(s1, PipeStep("")), PipeStep(name));
            HeldUp(s'.store, n)
  {
    var s1 := Apply(Apply(s, UserDelete(n)), PipeGet(n));
    assert s1.pipe.Got? && s1.store.claims == s.store.claims && Waiting(s1.store, n);
    var s2 := Apply(s1, PipeStep(""));
    assert s2.pipe.Dispose? && s2.store == s1.store && name in s2.pipe.rem && s2.pipe.rem[name] == s.store.claims[name];
    var s' := Apply(s2, PipeStep(name));
    assert s'.store.claims.Keys == {name} && ForeignOnly(s'.store.claims[name]);
    assert name in Doomed(s'.store, n);
  }

  /** Somebody puts a finalizer on a claim, the Workload is deleted, and its deletion pass marks the
      claim: nothing is left for either controller to do. */
  lemma HeldUpReachable(strategies: set<string>, n: string, key: string, r: ResourceSpec, f: string)
    returns (es: seq<Event>)
    requires f != CLAIM_FINALIZER
    ensures Orderly(strategies, es) && HeldUp(Run(Init(strategies), es).store, n)
  {
    var s0, s, ps, name := Init(strategies), Init(strategies), {(n, key)}, ClaimName(n, key);
    es, s := FirstClaims(s0, n, key, r, ps);
    var e := ClaimFinalizers(name, [f]);
    Extend(s0, es, s, ps, e);
    es, s := es + [e], Apply(s, e);
    assert OneForeign(s, n, name, f);
    HoldSteps(s, n, name, f);
    Follow2(s0, es, s, ps, UserDelete(n), PipeGet(n));
    es, s := es + [UserDelete(n)] + [PipeGet(n)], Apply(Apply(s, UserDelete(n)), PipeGet(n));
    Follow2(s0, es, s, ps, PipeStep(""), PipeStep(name));
    es, s := es + [PipeStep("")] + [PipeStep(name)], Apply(Apply(s, PipeStep("")), PipeStep(name));
    OneIsOrderly(strategies, es, s, (n, key));
  }
}
