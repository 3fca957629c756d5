/** The controllers' code as it is written, statement by statement on mutable objects, for passes
    that nobody disturbs: every such pass is a run of the state machine of the protocol. */
module Controllers {
  import opened Api
  import opened Lifecycle
  import opened Protocol

  // ---------------------------------------------------------------- the lifecycle manager

  lemma WithoutStep(kept: seq<string>, fs: seq<string>, i: nat, f: string)
    requires i < |fs|
    ensures kept + Without(fs[i..], f) == (if fs[i] != f then kept + [fs[i]] else kept) + Without(fs[i + 1..], f)
  {
    assert fs[i..][1..] == fs[i + 1..];
  }

  /** A ResourceClaim held by a controller, updated in place. */
  class ClaimObject {
    var c: Claim

    constructor (c: Claim)
      ensures this.c == c
    {
      this.c := c;
    }

    method SetPhase(phase: Phase, reason: string, message: string)
      modifies this
      ensures c == old(c).(status := InPhase(old(c), phase, reason, message))
    {
      c := c.(status := c.status.(phase := phase));
      c := c.(status := c.status.(reason := reason));
      c := c.(status := c.status.(message := message));
      c := c.(status := c.status.(observed := c.generation));
    }

    /** SetPending, SetClaiming and SetFailed differ in the phase only. */
    method SetUnbound(phase: Phase, reason: string, message: string)
      modifies this
      ensures c == old(c).(status := Unbound(old(c), phase, reason, message))
    {
      SetPhase(phase, reason, message);
      c := c.(status := c.status.(available := false));
      c := c.(status := c.status.(outputs := None));
    }

    method SetBound(outputs: Option<Outputs>)
      modifies this
      ensures c == old(c).(status := BoundWith(old(c), outputs))
    {
      SetPhase(Bound, "Succeeded", "Resource successfully provisioned");
      c := c.(status := c.status.(outputs := outputs));
      c := c.(status := c.status.(available := true));
    }

    method FinalizerPresent() returns (r: bool)
      ensures r <==> HasFinalizer(c)
    {
      for i := 0 to |c.finalizers|
        invariant forall j :: 0 <= j < i ==> c.finalizers[j] != CLAIM_FINALIZER
      {
        if c.finalizers[i] == CLAIM_FINALIZER { return true; }
      }
      r := false;
    }

    method AddFinalizer()
      modifies this
      ensures c == if HasFinalizer(old(c)) then old(c) else old(c).(finalizers := old(c).finalizers + [CLAIM_FINALIZER])
    {
      var has := FinalizerPresent();
      if !has { c := c.(finalizers := c.finalizers + [CLAIM_FINALIZER]); }
    }

    method RemoveFinalizer()
      modifies this
      ensures c == old(c).(finalizers := Without(old(c).finalizers, CLAIM_FINALIZER))
    {
      var kept: seq<string> := [];
      for i := 0 to |c.finalizers|
        invariant c == old(c)
        invariant kept + Without(c.finalizers[i..], CLAIM_FINALIZER) == Without(c.finalizers, CLAIM_FINALIZER)
      {
        WithoutStep(kept, c.finalizers, i, CLAIM_FINALIZER);
        if c.finalizers[i] != CLAIM_FINALIZER { kept := kept + [c.finalizers[i]]; }
      }
      c := c.(finalizers := kept);
    }

    method IsDue() returns (r: bool)
      ensures r <==> ShouldReconcile(c)
    {
      var has := FinalizerPresent();
      if c.marked && !has { return false; }
      if c.marked { return true; }
      if c.status.phase == Bound {
        if c.status.observed == c.generation { return false; }
      }
      r := true;
    }
  }

  // ---------------------------------------------------------------- the provisioner

  /** One pass of the provisioner: a read and as many steps as any pass needs. */
  function Pass(claim: string, r: ProvisionResult, h: HealthResult, d: bool): seq<Event> {
    [ProvGet(claim), ProvStep(claim, r, h, d), ProvStep(claim, r, h, d), ProvStep(claim, r, h, d)]
  }

  lemma RunPass(s: Cluster, claim: string, r: ProvisionResult, h: HealthResult, d: bool)
    ensures var e := ProvStep(claim, r, h, d);
            Run(s, Pass(claim, r, h, d)) == Apply(Apply(Apply(Apply(s, ProvGet(claim)), e), e), e)
  {
    var e := ProvStep(claim, r, h, d);
    var s1 := Apply(s, ProvGet(claim));
    assert Pass(claim, r, h, d)[1..] == [e, e, e] && [e, e, e][1..] == [e, e] && [e, e][1..] == [e];
    assert Run(s1, [e, e, e]) == Run(Apply(s1, e), [e, e]);
    assert Run(Apply(s1, e), [e, e]) == Run(Apply(Apply(s1, e), e), [e]);
  }

  /** The state in which a pass has called the strategy and is about to store a status. */
  function Handled(s: Cluster, claim: string, c: Claim, r: ProvisionResult, h: HealthResult): Cluster {
    var s1 := Provision(s, claim, c, r, h);
    if s1.prov[claim].Recover? then CallProvision(s1, claim, c, r) else s1
  }

  class Provisioner {
    const strategies: set<string>
    var store: Store
    var live: set<Resource>
    var granted: set<Grant>

    constructor (strategies: set<string>, store: Store, live: set<Resource>, granted: set<Grant>)
      ensures this.strategies == strategies && this.store == store && this.live == live && this.granted == granted
    {
      this.strategies, this.store, this.live, this.granted := strategies, store, live, granted;
    }

    /** The cluster, with the rest of it given. */
    ghost function State(rest: Cluster): Cluster
      reads this
    {
      rest.(store := store, live := live, granted := granted, strategies := strategies)
    }

    /** The strategy's Provision call and what the handlers make of its answer. */
    method CallStrategy(claim: string, obj: ClaimObject, r: ProvisionResult)
      modifies this, obj
      ensures store == old(store) && obj.c == old(obj.c).(status := AfterProvision(old(obj.c), r))
      ensures live == old(live) + {Resource(claim, old(obj.c).uid, old(obj.c).spec.typ)}
      ensures granted == if r.Provisioned? && ValidOutputs(r.outputs)
                         then old(granted) + {Grant(claim, old(obj.c).uid, r.outputs.value)} else old(granted)
    {
      live := live + {Resource(claim, obj.c.uid, obj.c.spec.typ)};
      match r
      case ProvisionError(text) =>
        obj.SetUnbound(Failed, "ClaimFailed", CallFailed(obj.c, text));
      case Provisioned(outputs) =>
        if !ValidOutputs(outputs) {
          obj.SetUnbound(Failed, "ProjectionError", "Invalid outputs");
        } else {
          granted := granted + {Grant(claim, obj.c.uid, outputs.value)};
          obj.SetBound(outputs);
        }
    }

    method HandleClaiming(claim: string, obj: ClaimObject, r: ProvisionResult, h: HealthResult, ghost rest: Cluster)
      requires obj.c.spec.typ in strategies && obj.c.status.phase.Claiming?
      modifies this, obj
      ensures store == old(store) && obj.c.(status := old(obj.c).status) == old(obj.c)
      ensures Handled(old(State(rest)), claim, old(obj.c), r, h) ==
          SetProv(State(rest), claim, Write(old(obj.c), obj.c.status))
    {
      match h
      case HealthError(text) => obj.SetUnbound(Failed, "ClaimFailed", "Status check failed: " + text);
      case Health(phase, reason, message) =>
        if phase == Bound {
          CallStrategy(claim, obj, r);
        } else if phase == Failed {
          obj.SetUnbound(Failed, reason, message);
        }
    }

    method HandleProvisioning(claim: string, obj: ClaimObject, r: ProvisionResult, h: HealthResult, ghost rest: Cluster)
      modifies this, obj
      ensures store == old(store) && obj.c.(status := old(obj.c).status) == old(obj.c)
      ensures Handled(old(State(rest)), claim, old(obj.c), r, h) ==
          SetProv(State(rest), claim, Write(old(obj.c), obj.c.status))
    {
      if obj.c.spec.typ !in strategies {
        obj.SetUnbound(Failed, "ClaimFailed", "No strategy available");
        return;
      }
      match obj.c.status.phase
      case Unset => CallStrategy(claim, obj, r);
      case Pending => CallStrategy(claim, obj, r);
      case Claiming => HandleClaiming(claim, obj, r, h, rest);
      case Bound =>
        if h.Health? && h.phase == Failed { obj.SetUnbound(Failed, h.reason, h.message); }
      case Failed =>
        if h.Health? && h.phase == Bound {
          obj.SetUnbound(Claiming, "Claiming", "Retrying provisioning after recovery");
        }
      case Unknown(_) =>
        obj.SetUnbound(Pending, "ClaimPending", "Unknown phase, resetting to Pending");
    }

    method HandleDeletion(claim: string, obj: ClaimObject, deprovisioned: bool)
      requires HasFinalizer(obj.c)
      modifies this, obj
      ensures granted == old(granted)
      ensures var c := old(obj.c);
              if c.spec.typ in strategies && !deprovisioned then store == old(store) && live == old(live)
              else
                && store == UpdateClaim(old(store), claim,
                   c.(finalizers := Without(c.finalizers, CLAIM_FINALIZER))).store
                && live == if c.spec.typ in strategies then old(live) - {Resource(claim, c.uid, c.spec.typ)}
                   else old(live)
    {
      if obj.c.spec.typ in strategies {
        if !deprovisioned { return; }
        live := live - {Resource(claim, obj.c.uid, obj.c.spec.typ)};
      }
      obj.RemoveFinalizer();
      store := UpdateClaim(store, claim, obj.c).store;
    }

    /** A whole undisturbed pass is the run `Pass` of the protocol. */
    method Reconcile(claim: string, r: ProvisionResult, h: HealthResult, deprovisioned: bool, ghost rest: Cluster)
      requires claim !in rest.prov
      modifies this
      ensures State(rest) == Run(old(State(rest)), Pass(claim, r, h, deprovisioned))
    {
      ghost var s0 := State(rest);
      if claim !in store.claims {
        RunPass(s0, claim, r, h, deprovisioned);
        return;
      }
      var obj := new ClaimObject(store.claims[claim]);
      ghost var c := obj.c;
      var due := obj.IsDue();
      if !due {
        SkipIsRun(s0, claim, c, r, h, deprovisioned);
        return;
      }
      if obj.c.marked {
        HandleDeletion(claim, obj, deprovisioned);
        DeletionIsRun(s0, claim, c, r, h, deprovisioned);
        return;
      }
      var has := obj.FinalizerPresent();
      if !has {
        AdoptIsRun(s0, claim, c, r, h, deprovisioned);
        obj.AddFinalizer();
        store := UpdateClaim(store, claim, obj.c).store;
        obj.c := store.claims[claim];
        obj.SetUnbound(Pending, "ClaimPending", "Initializing resource claim");
        store := UpdateClaimStatus(store, claim, obj.c.rv, obj.c.status).store;
        return;
      }
      ghost var s1 := SetProv(s0, claim, Read(c));
      HandleProvisioning(claim, obj, r, h, s1);
      ProvisionIsRun(s0, State(rest), claim, c, r, h, deprovisioned, obj.c.status);
      store := UpdateClaimStatus(store, claim, obj.c.rv, obj.c.status).store;
    }
  }

  lemma EndSet(s: Cluster, claim: string, p: Prov, q: Prov)
    requires claim !in s.prov
    ensures EndProv(SetProv(s, claim, p), claim) == s
    ensures EndProv(SetProv(SetProv(s, claim, p), claim, q), claim) == s
  {
  }

  lemma SkipIsRun(s: Cluster, claim: string, c: Claim, r: ProvisionResult, h: HealthResult, d: bool)
    requires claim !in s.prov && claim in s.store.claims && s.store.claims[claim] == c && !ShouldReconcile(c)
    ensures Run(s, Pass(claim, r, h, d)) == s
  {
    RunPass(s, claim, r, h, d);
    EndSet(s, claim, Read(c), Read(c));
  }

  lemma AdoptIsRun(s: Cluster, claim: string, c: Claim, r: ProvisionResult, h: HealthResult, d: bool)
    requires claim !in s.prov && claim in s.store.claims && s.store.claims[claim] == c
    requires !c.marked && ShouldReconcile(c) && !HasFinalizer(c)
    ensures var a := UpdateClaim(s.store, claim, c.(finalizers := c.finalizers + [CLAIM_FINALIZER]));
            && a.ok && claim in a.store.claims
            && var c' := a.store.claims[claim];
               var status := Unbound(c', Pending, "ClaimPending", "Initializing resource claim");
               Run(s, Pass(claim, r, h, d)) == s.(store := UpdateClaimStatus(a.store, claim, c'.rv, status).store)
  {
    RunPass(s, claim, r, h, d);
    var a := UpdateClaim(s.store, claim, c.(finalizers := c.finalizers + [CLAIM_FINALIZER]));
    EndSet(s, claim, Read(c), Armed(a.store.claims[claim]));
  }

  /** `s'` is the cluster after the calls of the strategy. */
  lemma ProvisionIsRun(s: Cluster, s': Cluster, claim: string, c: Claim, r: ProvisionResult, h: HealthResult, d: bool,
      status: ClaimStatus)
    requires claim !in s.prov && claim in s.store.claims && s.store.claims[claim] == c
    requires !c.marked && ShouldReconcile(c) && HasFinalizer(c)
    requires s' == s.(live := s'.live, granted := s'.granted)
    requires Handled(SetProv(s, claim, Read(c)), claim, c, r, h) ==
        SetProv(SetProv(s', claim, Read(c)), claim, Write(c, status))
    ensures Run(s, Pass(claim, r, h, d)) == s'.(store := UpdateClaimStatus(s.store, claim, c.rv, status).store)
  {
    RunPass(s, claim, r, h, d);
    ReadStep(s, claim, c, r, h, d);
    RecoverStep(SetProv(s, claim, Read(c)), claim, c, r, h, d);
    WriteStep(s', claim, c, r, h, d, status);
  }

  lemma ReadStep(s: Cluster, claim: string, c: Claim, r: ProvisionResult, h: HealthResult, d: bool)
    requires claim !in s.prov && claim in s.store.claims && s.store.claims[claim] == c
    requires !c.marked && ShouldReconcile(c) && HasFinalizer(c)
    ensures Apply(Apply(s, ProvGet(claim)), ProvStep(claim, r, h, d)) ==
        Provision(SetProv(s, claim, Read(c)), claim, c, r, h)
  {
  }

  /** The Claiming handler goes on to Provision within the same pass. */
  lemma RecoverStep(s: Cluster, claim: string, c: Claim, r: ProvisionResult, h: HealthResult, d: bool)
    ensures var s' := Provision(s, claim, c, r, h);
            claim in s'.prov && Handled(s, claim, c, r, h) == if s'.prov[claim].Recover? then
                Apply(s', ProvStep(claim, r, h, d)) else s'
  {
  }

  /** The status is stored, and a further step finds no pass to continue. */
  lemma WriteStep(s: Cluster, claim: string, c: Claim, r: ProvisionResult, h: HealthResult, d: bool,
      status: ClaimStatus)
    requires claim !in s.prov
    ensures var e, s' := ProvStep(claim, r, h, d), s.(store := UpdateClaimStatus(s.store, claim, c.rv, status).store);
            Apply(SetProv(SetProv(s, claim, Read(c)), claim, Write(c, status)), e) == s' && Apply(s', e) == s'
  {
    EndSet(s, claim, Read(c), Write(c, status));
  }

  lemma DeletionIsRun(s: Cluster, claim: string, c: Claim, r: ProvisionResult, h: HealthResult, d: bool)
    requires claim !in s.prov && claim in s.store.claims && s.store.claims[claim] == c && c.marked && HasFinalizer(c)
    ensures var s' := Run(s, Pass(claim, r, h, d));
            var st := UpdateClaim(s.store, claim, c.(finalizers := Without(c.finalizers, CLAIM_FINALIZER))).store;
            if c.spec.typ in s.strategies && !d then s' == s
            else s' == s.(store := st, live := if c.spec.typ in s.strategies then
                s.live - {Resource(claim, c.uid, c.spec.typ)} else s.live)
  {
    RunPass(s, claim, r, h, d);
    EndSet(s, claim, Read(c), Drop(c));
  }

  // ---------------------------------------------------------------- the deletion phase

  datatype Outcome = Done | Requeue | Error

  lemma {:induction false} DisownedDrop(owners: seq<OwnerRef>, i: nat, n: string)
    requires i < |owners|
    ensures Disowned(owners[i..], n) == (if RefersTo(owners[i], n) then [] else [owners[i]]) +
        Disowned(owners[i + 1..], n)
  {
    assert owners[i..][1..] == owners[i + 1..];
  }

  method FilterOwners(owners: seq<OwnerRef>, n: string) returns (kept: seq<OwnerRef>)
    ensures kept == Disowned(owners, n)
  {
    kept := [];
    for i := 0 to |owners|
      invariant kept + Disowned(owners[i..], n) == Disowned(owners, n)
    {
      DisownedDrop(owners, i, n);
      if owners[i].kind != "Workload" || owners[i].name != n {
        kept := kept + [owners[i]];
      }
    }
  }

  /** One more pipeline step at the end of a trace. */
  lemma PipeSnoc(t: PipeTurn, choices: seq<string>, choice: string)
    ensures var u := PipeRun(t, choices); PipeRun(t, choices + [choice]) == PipeNext(u.store, u.pipe, choice)
  {
    assert (choices + [choice])[..|choices|] == choices;
  }

  lemma DisposeSnoc(t: PipeTurn, choices: seq<string>, st: Store, n: string, w: Workload, rem: map<string, Claim>,
      name: string)
    requires PipeRun(t, choices) == PipeTurn(st, Dispose(n, w, rem)) && name in rem
    ensures var a := DisposeClaim(st, n, name, rem[name]);
            PipeRun(t, choices + [name]) == PipeTurn(a.store, if a.ok then Dispose(n, w, rem - {name}) else Idle)
  {
    PipeSnoc(t, choices, name);
  }

  class DeletionPhase {
    var store: Store

    constructor (initial: Store)
      ensures store == initial
    {
      store := initial;
    }

    method RemoveOwnerReference(n: string, name: string, c: Claim) returns (ok: bool)
      modifies this
      ensures Answer(ok, store) == UpdateClaim(old(store), name, c.(owners := Disowned(c.owners, n)))
    {
      var kept := FilterOwners(c.owners, n);
      var a := UpdateClaim(store, name, c.(owners := kept));
      store := a.store;
      ok := a.ok;
    }

    method ProcessDeprovisionPolicy(n: string, name: string, c: Claim) returns (ok: bool)
      modifies this
      ensures Answer(ok, store) == DisposeClaim(old(store), n, name, c)
      ensures ok && name in old(store).claims && old(store).claims[name] == c && (c.marked ==> c.finalizers != []) ==>
                if c.spec.policy == Some(Retain) || c.spec.policy == Some(Orphan) then
                  && name in store.claims && store.claims[name].marked == c.marked && store.claims[name].spec == c.spec
                  && store.claims[name].finalizers == c.finalizers
                  && forall o :: o in store.claims[name].owners <==>
                     o in c.owners && !(o.kind == "Workload" && o.name == n)
                else name in store.claims ==> store.claims[name].marked && store.claims[name].owners == c.owners
      ensures forall other :: other in old(store).claims && other != name ==>
                other in store.claims && store.claims[other] == old(store).claims[other]
    {
      match EffectivePolicy(c.spec)
      case Delete =>
        if c.marked { return true; }
        var a := DeleteClaim(store, name);
        store := a.store;
        ok := a.ok;
      case Retain => ok := RemoveOwnerReference(n, name, c);
      case Orphan => ok := RemoveOwnerReference(n, name, c);
    }

    method CountToWaitFor(claims: map<string, Claim>) returns (count: nat)
      ensures count > 0 <==> MustWait(claims)
    {
      count := 0;
      var todo := claims.Keys;
      while todo != {}
        invariant todo <= claims.Keys
        invariant count > 0 <==> exists name ::
            name in claims && name !in todo && EffectivePolicy(claims[name].spec).Delete?
      {
        var name :| name in todo;
        if EffectivePolicy(claims[name].spec) == Delete { count := count + 1; }
        todo := todo - {name};
      }
    }

    /** Applies the policy of each claim, in whatever order the claims are listed. */
    method DisposeOne(n: string, w: Workload, rem: map<string, Claim>, name: string, ghost t: PipeTurn,
        ghost choices: seq<string>)
      returns (ok: bool)
      requires PipeRun(t, choices) == PipeTurn(store, Dispose(n, w, rem)) && name in rem
      modifies this
      ensures PipeRun(t, choices + [name]) == PipeTurn(store, if ok then Dispose(n, w, rem - {name}) else Idle)
      ensures store.workloads == old(store.workloads)
    {
      DisposeSnoc(t, choices, store, n, w, rem, name);
      ok := ProcessDeprovisionPolicy(n, name, rem[name]);
    }

    method DisposeAll(n: string, w: Workload, ghost t: PipeTurn, ghost before: seq<string>)
      returns (ok: bool, ghost choices: seq<string>)
      requires PipeRun(t, before) == PipeTurn(store, Dispose(n, w, ClaimsOf(store, n)))
      modifies this
      ensures PipeRun(t, choices) == PipeTurn(store, if ok then Dispose(n, w, map[]) else Idle)
      ensures store.workloads == old(store.workloads)
    {
      var rem := ClaimsOf(store, n);
      choices := before;
      while rem != map[]
        invariant PipeRun(t, choices) == PipeTurn(store, Dispose(n, w, rem))
        invariant store.workloads == old(store.workloads)
        decreases |rem|
      {
        var name :| name in rem;
        Smaller(rem, name);
        ok := DisposeOne(n, w, rem, name, t, choices);
        choices := choices + [name];
        if !ok { return; }
        rem := rem - {name};
      }
      ok := true;
    }

    /** A whole undisturbed pass is a run of pipeline steps, which ends the pass. */
    method Execute(n: string, w: Workload) returns (outcome: Outcome, ghost choices: seq<string>)
      requires w.marked
      modifies this
      ensures PipeRun(PipeTurn(old(store), Got(n, w)), choices) == PipeTurn(store, Idle)
      ensures outcome.Requeue? ==> store.workloads == old(store.workloads) && MustWait(ClaimsOf(store, n))
    {
      ghost var t := PipeTurn(store, Got(n, w));
      PipeSnoc(t, [], "");
      choices := [] + [""];
      if WORKLOAD_FINALIZER !in w.finalizers { return Done, choices; }
      var ok;
      ok, choices := DisposeAll(n, w, t, choices);
      if !ok { return Error, choices; }
      PipeSnoc(t, choices, "");
      choices := choices + [""];
      var count := CountToWaitFor(ClaimsOf(store, n));
      if count > 0 { return Requeue, choices; }
      PipeSnoc(t, choices, "");
      choices := choices + [""];
      var a := UpdateWorkload(store, n, w.(finalizers := Without(w.finalizers, WORKLOAD_FINALIZER)));
      store := a.store;
      outcome := if a.ok then Done else Error;
    }
  }
}
