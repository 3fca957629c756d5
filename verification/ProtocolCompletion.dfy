/** Undisturbed passes with work to do lower the measure, some pass always has work to do, and
    so the deletion of a Workload can always be completed within a bounded number of passes. */
module ProtocolCompletion {
  import opened Api
  import opened Lifecycle
  import opened Protocol
  import opened ProtocolClaims
  import opened ProtocolSafety
  import opened ProtocolPasses
  import opened ProtocolProgress

  /** The number of passes in a run: every pass starts by reading its object. */
  function Passes(es: seq<Event>): nat {
    if es == [] then 0 else (if es[0].PipeGet? || es[0].ProvGet? then 1 else 0) + Passes(es[1..])
  }

  lemma {:induction false} PassesAppend(a: seq<Event>, b: seq<Event>)
    ensures Passes(a + b) == Passes(a) + Passes(b)
  {
    if a == [] {
      assert a + b == b;
    } else {
      assert (a + b)[1..] == a[1..] + b;
      PassesAppend(a[1..], b);
    }
  }

  /** The pass has seen the current state of every claim it still has to deal with. */
  predicate Undisturbed(st: Store, rem: map<string, Claim>) {
    forall name :: name in rem ==> name in st.claims && st.claims[name] == rem[name]
  }

  /** Every claim the Workload waits for that is no longer listed carries its mark. */
  predicate MarkedBut(st: Store, n: string, rem: map<string, Claim>) {
    forall name :: name in Unmarked(st, n) ==> name in rem
  }

  /** Fewer claims to wait for, none of them with a finalizer it did not have. */
  ghost predicate Shrinking(st: Store, st': Store, n: string) {
    && Winding(st, st', n)
    && (forall name :: name in Doomed(st', n) ==> st'.claims[name].finalizers == st.claims[name].finalizers)
  }

  lemma TransitiveShrinking(st: Store, st': Store, st'': Store, n: string)
    requires Shrinking(st, st', n) && Shrinking(st', st'', n)
    ensures Shrinking(st, st'', n)
  {
  }

  /** At most the named claim changed; if it is still there, it is not to be deleted or marked. */
  ghost predicate Dealt(st: Store, st': Store, n: string, name: string) {
    && (forall other :: other != name ==> (other in st'.claims <==> other in st.claims))
    && (forall other :: other != name && other in st.claims ==> st'.claims[other] == st.claims[other])
    && (name in st'.claims ==>
          && name in st.claims && st'.claims[name].spec == st.claims[name].spec
          && st'.claims[name].finalizers == st.claims[name].finalizers
          && (st.claims[name].marked ==> st'.claims[name].marked)
          && (EffectivePolicy(st.claims[name].spec).Delete? ==> st'.claims[name].marked))
  }

  lemma DisposeDeals(st: Store, n: string, name: string, c: Claim)
    requires StoreOk(st) && name in st.claims && st.claims[name] == c
    ensures
      var a := DisposeClaim(st, n, name, c);
      a.ok && a.store.workloads == st.workloads && Dealt(st, a.store, n, name)
  {
  }

  lemma DealtShrinks(st: Store, st': Store, n: string, rem: map<string, Claim>, name: string)
    requires name in rem && Undisturbed(st, rem) && MarkedBut(st, n, rem) && Dealt(st, st', n, name)
    ensures Undisturbed(st', rem - {name}) && MarkedBut(st', n, rem - {name}) && Shrinking(st, st', n)
  {
  }

  lemma DisposeOne(st: Store, n: string, rem: map<string, Claim>, name: string)
    requires StoreOk(st) && name in rem && Undisturbed(st, rem) && MarkedBut(st, n, rem)
    ensures
      var a := DisposeClaim(st, n, name, rem[name]);
      && a.ok && a.store.workloads == st.workloads
      && Undisturbed(a.store, rem - {name}) && MarkedBut(a.store, n, rem - {name})
      && Shrinking(st, a.store, n)
  {
    DisposeDeals(st, n, name, rem[name]);
    DealtShrinks(st, DisposeClaim(st, n, name, rem[name]).store, n, rem, name);
  }

  lemma DisposeEvent(s: Cluster, n: string, w: Workload, rem: map<string, Claim>, name: string)
    requires Inv(s) && s.pipe == Dispose(n, w, rem) && name in rem && Undisturbed(s.store, rem)
        && MarkedBut(s.store, n, rem)
    ensures Tame(s, PipeStep(name)) && Inv(Apply(s, PipeStep(name)))
    ensures
      var s' := Apply(s, PipeStep(name));
      && s'.pipe == Dispose(n, w, rem - {name}) && s'.store.workloads == s.store.workloads
      && Undisturbed(s'.store, rem - {name}) && MarkedBut(s'.store, n, rem - {name})
      && Shrinking(s.store, s'.store, n)
  {
    DisposeOne(s.store, n, rem, name);
    EventKeeps(s, PipeStep(name));
  }

  lemma RunCons(s: Cluster, e: Event, es: seq<Event>)
    ensures Run(s, [e] + es) == Run(Apply(s, e), es)
    ensures TameRun(s, [e] + es) <==> Tame(s, e) && TameRun(Apply(s, e), es)
  {
    assert ([e] + es)[1..] == es;
  }

  /** The deletion phase has gone through all listed claims. */
  ghost predicate Disposed(st: Store, s': Cluster, n: string, w: Workload) {
    && s'.pipe == Dispose(n, w, map[]) && s'.store.workloads == st.workloads
    && Unmarked(s'.store, n) == {} && Shrinking(st, s'.store, n)
  }

  lemma DisposedBefore(st: Store, st1: Store, s': Cluster, n: string, w: Workload)
    requires Disposed(st1, s', n, w) && st1.workloads == st.workloads && Shrinking(st, st1, n)
    ensures Disposed(st, s', n, w)
  {
    TransitiveShrinking(st, st1, s'.store, n);
  }

  lemma DisposeFirst(s: Cluster, e: Event, es: seq<Event>, n: string, w: Workload)
    requires e.PipeStep? && Tame(s, e) && TameRun(Apply(s, e), es) && Passes(es) == 0
    requires Apply(s, e).store.workloads == s.store.workloads && Shrinking(s.store, Apply(s, e).store, n)
    requires Disposed(Apply(s, e).store, Run(Apply(s, e), es), n, w)
    ensures TameRun(s, [e] + es) && Passes([e] + es) == 0 && Disposed(s.store, Run(s, [e] + es), n, w)
  {
    RunCons(s, e, es);
    PassesAppend([e], es);
    DisposedBefore(s.store, Apply(s, e).store, Run(Apply(s, e), es), n, w);
  }

  lemma {:induction false} DisposeAll(s: Cluster, n: string, w: Workload, rem: map<string, Claim>)
    returns (es: seq<Event>)
    requires Inv(s) && s.pipe == Dispose(n, w, rem) && Undisturbed(s.store, rem) && MarkedBut(s.store, n, rem)
    ensures TameRun(s, es) && Passes(es) == 0
    ensures Disposed(s.store, Run(s, es), n, w)
    decreases |rem|
  {
    if rem == map[] {
      es := [];
    } else {
      var name :| name in rem;
      var e, s1 := PipeStep(name), Apply(s, PipeStep(name));
      DisposeEvent(s, n, w, rem, name);
      Smaller(rem, name);
      es := DisposeAll(s1, n, w, rem - {name});
      DisposeFirst(s, e, es, n, w);
      es := [e] + es;
    }
  }

  /** A pass is started and lists the claims. */
  lemma OpenPass(s: Cluster, n: string) returns (es: seq<Event>)
    requires Waiting(s.store, n)
    ensures TameRun(s, es) && Passes(es) == 1
    ensures Run(s, es) == s.(pipe := Dispose(n, s.store.workloads[n], ClaimsOf(s.store, n)))
  {
    var w := s.store.workloads[n];
    var s1, s2 := s.(pipe := Idle), s.(pipe := Got(n, w));
    RunCons(s2, PipeStep(""), []);
    RunCons(s1, PipeGet(n), [PipeStep("")]);
    RunCons(s, PipeAbort, [PipeGet(n)] + [PipeStep("")]);
    es := [PipeAbort] + ([PipeGet(n)] + [PipeStep("")]);
    PassesAppend([PipeAbort], [PipeGet(n)] + [PipeStep("")]);
    PassesAppend([PipeGet(n)], [PipeStep("")]);
  }

  /** A pass that has gone through all claims releases the Workload if there is nothing left to wait for. */
  lemma ClosePass(s: Cluster, n: string, w: Workload) returns (es: seq<Event>)
    requires s.pipe == Dispose(n, w, map[]) && n in s.store.workloads && s.store.workloads[n] == w
    ensures TameRun(s, es) && Passes(es) == 0
    ensures Run(s, es).store.claims == s.store.claims
    ensures Doomed(s.store, n) == {} ==> !Waiting(Run(s, es).store, n)
    ensures Doomed(s.store, n) != {} ==> Run(s, es).store == s.store
    ensures w.finalizers == [WORKLOAD_FINALIZER] && w.marked && Doomed(s.store, n) == {} ==>
        n !in Run(s, es).store.workloads
  {
    RunCons(Apply(s, PipeStep("")), PipeStep(""), []);
    RunCons(s, PipeStep(""), [PipeStep("")]);
    es := [PipeStep("")] + [PipeStep("")];
    WaitsForDoomed(s.store, n);
  }

  /** An undisturbed, error-free deletion pass marks everything it waits for, and lowers the
      measure unless every such claim is marked already. */
  lemma DeletionPass(s: Cluster, n: string) returns (es: seq<Event>)
    requires Inv(s) && Waiting(s.store, n)
    ensures TameRun(s, es) && Inv(Run(s, es)) && Passes(es) == 1
    ensures Unmarked(Run(s, es).store, n) == {} && Shrinking(s.store, Run(s, es).store, n)
    ensures Unmarked(s.store, n) != {} || Doomed(s.store, n) == {} ==>
        Measure(Run(s, es).store, n) < Measure(s.store, n)
    ensures Waiting(Run(s, es).store, n) ==> Run(s, es).store.workloads == s.store.workloads
    ensures !Waiting(Run(s, es).store, n) && s.store.workloads[n].finalizers == [WORKLOAD_FINALIZER] ==>
      n !in Run(s, es).store.workloads
  {
    var w := s.store.workloads[n];
    var a := OpenPass(s, n);
    RunKeeps(s, a);
    var s1 := Run(s, a);
    var b := DisposeAll(s1, n, w, ClaimsOf(s.store, n));
    var s2 := Run(s1, b);
    var c := ClosePass(s2, n, w);
    RunAppend(s1, b, c);
    RunAppend(s, a, b + c);
    PassesAppend(b, c);
    PassesAppend(a, b + c);
    es := a + (b + c);
    RunKeeps(s, es);
    WindingFalls(s.store, Run(s, es).store, n);
  }

  /** The provisioner tears down a marked claim. */
  function TearDown(name: string): seq<Event> {
    var step := ProvStep(name, ProvisionError(""), HealthError(""), true);
    [ProvAbort(name)] + ([ProvGet(name)] + ([step] + [step]))
  }

  lemma TearDownIsOnePass(name: string)
    ensures Passes(TearDown(name)) == 1
  {
    var step := ProvStep(name, ProvisionError(""), HealthError(""), true);
    PassesAppend([ProvAbort(name)], [ProvGet(name)] + ([step] + [step]));
    PassesAppend([ProvGet(name)], [step] + [step]);
    PassesAppend([step], [step]);
  }

  lemma TearDownSteps(s: Cluster, name: string)
    requires name in s.store.claims && s.store.claims[name].marked
        && s.store.claims[name].finalizers == [CLAIM_FINALIZER]
    ensures TameRun(s, TearDown(name)) && Passes(TearDown(name)) == 1
    ensures Run(s, TearDown(name)).store == s.store.(claims := s.store.claims - {name}, nextRv := s.store.nextRv + 1)
  {
    var step := ProvStep(name, ProvisionError(""), HealthError(""), true);
    var s1 := EndProv(s, name);
    TearDownIsOnePass(name);
    TearDownPass(s1, name);
    RunCons(s, ProvAbort(name), [ProvGet(name)] + ([step] + [step]));
  }

  lemma TearDownPass(s: Cluster, name: string)
    requires name in s.store.claims && s.store.claims[name].marked
        && s.store.claims[name].finalizers == [CLAIM_FINALIZER]
    requires name !in s.prov
    ensures var step := ProvStep(name, ProvisionError(""), HealthError(""), true);
            var es := [ProvGet(name)] + ([step] + [step]);
            TameRun(s, es) && Run(s, es).store == s.store.(claims := s.store.claims - {name},
                nextRv := s.store.nextRv + 1)
  {
    var step := ProvStep(name, ProvisionError(""), HealthError(""), true);
    var c := s.store.claims[name];
    var s2 := SetProv(s, name, Read(c));
    var s3 := Apply(s2, step);
    assert s3.prov[name] == Drop(c) && s3.store == s.store;
    assert Without([CLAIM_FINALIZER], CLAIM_FINALIZER) == [];
    RunCons(s3, step, []);
    RunCons(s2, step, [step]);
    RunCons(s, ProvGet(name), [step] + [step]);
  }

  /** An undisturbed, error-free provisioner pass on a marked claim removes it and lowers the measure. */
  lemma ProvisionerPass(s: Cluster, n: string, name: string)
    requires Inv(s) && Waiting(s.store, n) && name in Doomed(s.store, n)
    requires s.store.claims[name].marked && s.store.claims[name].finalizers == [CLAIM_FINALIZER]
    ensures TameRun(s, TearDown(name)) && Inv(Run(s, TearDown(name))) && Passes(TearDown(name)) == 1
    ensures name !in Run(s, TearDown(name)).store.claims
    ensures Shrinking(s.store, Run(s, TearDown(name)).store, n)
    ensures Run(s, TearDown(name)).store.workloads == s.store.workloads
    ensures Measure(Run(s, TearDown(name)).store, n) < Measure(s.store, n)
  {
    TearDownSteps(s, name);
    RunKeeps(s, TearDown(name));
    WindingFalls(s.store, Run(s, TearDown(name)).store, n);
  }

  /** Nobody but the two controllers keeps the Workload or its claims. */
  predicate OnlyOurFinalizers(st: Store, n: string) {
    && (n in st.workloads ==> st.workloads[n].finalizers == [WORKLOAD_FINALIZER])
    && (forall name :: name in Doomed(st, n) ==>
         st.claims[name].finalizers == [] || st.claims[name].finalizers == [CLAIM_FINALIZER])
  }

  /** The measure is at most twice the number of claims, plus one. */
  lemma MeasureBound(st: Store, n: string)
    ensures Measure(st, n) <= 2 * |Doomed(st, n)| + 1
  {
    Subset(Unmarked(st, n), Doomed(st, n));
  }

  /** From every state in which a Workload waits, whatever passes are under way, a number of
      undisturbed passes bounded by twice the number of its claims makes it disappear. */
  lemma {:induction false} DeletionCompletes(s: Cluster, n: string) returns (es: seq<Event>)
    requires Inv(s) && Waiting(s.store, n) && OnlyOurFinalizers(s.store, n)
    ensures TameRun(s, es) && n !in Run(s, es).store.workloads
    ensures Passes(es) <= Measure(s.store, n) <= 2 * |Doomed(s.store, n)| + 1
    decreases Measure(s.store, n)
  {
    MeasureBound(s.store, n);
    if Unmarked(s.store, n) != {} || Doomed(s.store, n) == {} {
      es := DeletionPass(s, n);
    } else {
      var name :| name in Doomed(s.store, n);
      assert s.store.claims[name].marked by { assert name !in Unmarked(s.store, n); }
      assert ClaimOk(s.store, s.store.claims[name]);
      ProvisionerPass(s, n, name);
      es := TearDown(name);
    }
    var s' := Run(s, es);
    if Waiting(s'.store, n) {
      var rest := DeletionCompletes(s', n);
      RunAppend(s, es, rest);
      PassesAppend(es, rest);
      es := es + rest;
    }
  }
}
