/** What an undisturbed pass of the provisioner leaves in the store, field by field. */
module Outcomes {
  import opened Api
  import opened Controllers
  import opened Lifecycle
  import opened Protocol

  /** A claim that no pass is working on, stored as `c`. */
  predicate Stored(s: Cluster, claim: string, c: Claim) {
    claim !in s.prov && claim in s.store.claims && s.store.claims[claim] == c
  }

  /** A claim that the pass is going to work on: not marked, finalized, not Bound for its present
      generation. */
  predicate Ready(s: Cluster, claim: string, c: Claim) {
    && Stored(s, claim, c) && !c.marked && CLAIM_FINALIZER in c.finalizers
    && !(c.status.phase.Bound? && c.status.observed == c.generation)
  }

  /** The claim after the pass. */
  function After(s: Cluster, claim: string, r: ProvisionResult, h: HealthResult, d: bool): (c: Option<Claim>) {
    var st := Run(s, Pass(claim, r, h, d)).store;
    if claim in st.claims then Some(st.claims[claim]) else None
  }

  /** Nothing but the status and the resource version of the claim is changed in the store. */
  ghost predicate OnlyStatus(s: Cluster, s': Cluster, claim: string) {
    && claim in s.store.claims && claim in s'.store.claims
    && s'.store == s.store.(claims := s.store.claims[claim := s'.store.claims[claim]], nextRv := s'.store.nextRv)
    && s'.store.claims[claim] ==
         s.store.claims[claim].(status := s'.store.claims[claim].status, rv := s'.store.claims[claim].rv)
  }

  /** The status that the handlers decide on is stored. */
  lemma StatusStored(s: Cluster, claim: string, c: Claim, r: ProvisionResult, h: HealthResult, d: bool)
    requires Ready(s, claim, c)
    ensures var s1 := Handled(SetProv(s, claim, Read(c)), claim, c, r, h);
            && claim in s1.prov && s1.prov[claim].Write?
            && After(s, claim, r, h, d) == Some(c.(status := s1.prov[claim].status, rv := s.store.nextRv))
            && OnlyStatus(s, Run(s, Pass(claim, r, h, d)), claim)
  {
    var s0 := SetProv(s, claim, Read(c));
    var s1 := Handled(s0, claim, c, r, h);
    HandledWrites(s0, claim, c, r, h);
    var status, s' := s1.prov[claim].status, s.(live := s1.live, granted := s1.granted);
    assert s1 == SetProv(SetProv(s', claim, Read(c)), claim, Write(c, status));
    ProvisionIsRun(s, s', claim, c, r, h, d, status);
  }

  /** Only the pass and the history differ, and the pass is about the same claim. */
  ghost predicate Decided(s: Cluster, s': Cluster, claim: string, c: Claim) {
    && claim in s'.prov && s'.prov[claim].c == c && (s'.prov[claim].Write? || s'.prov[claim].Recover?)
    && s' == s.(prov := s.prov[claim := s'.prov[claim]], live := s'.live, granted := s'.granted)
  }

  lemma CallDecides(s: Cluster, claim: string, c: Claim, r: ProvisionResult)
    ensures Decided(s, CallProvision(s, claim, c, r), claim, c) && CallProvision(s, claim, c, r).prov[claim].Write?
  {
  }

  lemma ProvisionDecides(s: Cluster, claim: string, c: Claim, r: ProvisionResult, h: HealthResult)
    ensures Decided(s, Provision(s, claim, c, r, h), claim, c)
  {
    CallDecides(s, claim, c, r);
    if c.spec.typ in s.strategies && !c.status.phase.Unset?
        && !c.status.phase.Pending? { CheckDecides(s, claim, c, r, h); }
  }

  lemma CheckDecides(s: Cluster, claim: string, c: Claim, r: ProvisionResult, h: HealthResult)
    requires c.spec.typ in s.strategies && !c.status.phase.Unset? && !c.status.phase.Pending?
    ensures Decided(s, Provision(s, claim, c, r, h), claim, c)
  {
    var p := Provision(s, claim, c, r, h).prov[claim];
    assert Provision(s, claim, c, r, h) == SetProv(s, claim, p);
  }

  lemma HandledWrites(s: Cluster, claim: string, c: Claim, r: ProvisionResult, h: HealthResult)
    ensures var s' := Handled(s, claim, c, r, h); Decided(s, s', claim, c) && s'.prov[claim].Write?
  {
    var s1 := Provision(s, claim, c, r, h);
    ProvisionDecides(s, claim, c, r, h);
    CallDecides(s1, claim, c, r);
    assert s1.prov[claim := CallProvision(s1, claim, c, r).prov[claim]] ==
        s.prov[claim := CallProvision(s1, claim, c, r).prov[claim]];
  }

  // ---------------------------------------------------------------- statuses

  /** The claim has no outputs, and the reason why is that of its present generation. */
  predicate Bare(c: Claim, phase: Phase, reason: string, message: string) {
    && c.status.phase == phase && c.status.reason == reason && c.status.message == message
    && c.status.outputs == None && !c.status.available && c.status.observed == c.generation
  }

  /** A Bound claim found Failed becomes Failed, with the reported reason and message and without
      its outputs; whatever else the check answers, it stays as it was. */
  lemma BoundOutcome(s: Cluster, claim: string, c: Claim, r: ProvisionResult, h: HealthResult, d: bool)
    requires Ready(s, claim, c) && c.spec.typ in s.strategies && c.status.phase == Bound
    ensures var c' := After(s, claim, r, h, d);
            && c'.Some?
            && (h.Health? && h.phase == Failed ==> Bare(c'.value, Failed, h.reason, h.message))
            && (!(h.Health? && h.phase == Failed) ==> c'.value.status == c.status)
  {
    StatusStored(s, claim, c, r, h, d);
  }

  /** A Failed claim found Bound is claimed again; otherwise it stays as it was. */
  lemma FailedOutcome(s: Cluster, claim: string, c: Claim, r: ProvisionResult, h: HealthResult, d: bool)
    requires Ready(s, claim, c) && c.spec.typ in s.strategies && c.status.phase == Failed
    ensures var c' := After(s, claim, r, h, d);
            && c'.Some?
            && (h.Health? && h.phase == Bound ==>
                  Bare(c'.value, Claiming, "Claiming", "Retrying provisioning after recovery"))
            && (!(h.Health? && h.phase == Bound) ==> c'.value.status == c.status)
  {
    StatusStored(s, claim, c, r, h, d);
  }

  /** What a Provision call makes of the claim: Bound with exactly the outputs it returned, if
      something in them is set, and otherwise Failed. */
  predicate Provided(c: Claim, r: ProvisionResult, prefix: string) {
    match r
    case ProvisionError(text) => Bare(c, Failed, "ClaimFailed", prefix + text)
    case Provisioned(outputs) =>
      if ValidOutputs(outputs) then
        && c.status.phase == Bound && c.status.outputs == outputs && c.status.available
        && c.status.reason == "Succeeded" && c.status.observed == c.generation
      else Bare(c, Failed, "ProjectionError", "Invalid outputs")
  }

  /** A claim without phase or Pending is provisioned, whatever a health check would say. */
  lemma PendingOutcome(s: Cluster, claim: string, c: Claim, r: ProvisionResult, h: HealthResult, d: bool)
    requires Ready(s, claim, c) && c.spec.typ in s.strategies && (c.status.phase == Unset || c.status.phase == Pending)
    ensures var c' := After(s, claim, r, h, d); c'.Some? && Provided(c'.value, r, "Provisioning failed: ")
    ensures Resource(claim, c.uid, c.spec.typ) in Run(s, Pass(claim, r, h, d)).live
  {
    StatusStored(s, claim, c, r, h, d);
    ProvisionCalled(s, claim, c, r, h, d);
  }

  /** A claim being claimed fails with the check or with the resource, is provided for once the
      resource is Bound, and otherwise stays as it was. */
  lemma ClaimingOutcome(s: Cluster, claim: string, c: Claim, r: ProvisionResult, h: HealthResult, d: bool)
    requires Ready(s, claim, c) && c.spec.typ in s.strategies && c.status.phase == Claiming
    ensures var c' := After(s, claim, r, h, d);
            && c'.Some?
            && (h.HealthError? ==> Bare(c'.value, Failed, "ClaimFailed", "Status check failed: " + h.text))
            && (h.Health? && h.phase == Failed ==> Bare(c'.value, Failed, h.reason, h.message))
            && (h.Health? && h.phase == Bound ==> Provided(c'.value, r, "Failed to get outputs: "))
            && (h.Health? && h.phase != Failed && h.phase != Bound ==> c'.value.status == c.status)
  {
    StatusStored(s, claim, c, r, h, d);
  }

  /** Without a strategy the claim fails; an unknown phase starts over. */
  lemma OtherOutcome(s: Cluster, claim: string, c: Claim, r: ProvisionResult, h: HealthResult, d: bool)
    requires Ready(s, claim, c)
    ensures var c' := After(s, claim, r, h, d);
            && c'.Some?
            && (c.spec.typ !in s.strategies ==> Bare(c'.value, Failed, "ClaimFailed", "No strategy available"))
            && (c.spec.typ in s.strategies && c.status.phase.Unknown? ==>
                  Bare(c'.value, Pending, "ClaimPending", "Unknown phase, resetting to Pending"))
  {
    StatusStored(s, claim, c, r, h, d);
  }

  lemma ProvisionCalled(s: Cluster, claim: string, c: Claim, r: ProvisionResult, h: HealthResult, d: bool)
    requires Ready(s, claim, c) && c.spec.typ in s.strategies && (c.status.phase == Unset || c.status.phase == Pending)
    ensures Resource(claim, c.uid, c.spec.typ) in Run(s, Pass(claim, r, h, d)).live
  {
    var s1 := Handled(SetProv(s, claim, Read(c)), claim, c, r, h);
    HandledWrites(SetProv(s, claim, Read(c)), claim, c, r, h);
    var status, s' := s1.prov[claim].status, s.(live := s1.live, granted := s1.granted);
    assert s1 == SetProv(SetProv(s', claim, Read(c)), claim, Write(c, status));
    ProvisionIsRun(s, s', claim, c, r, h, d, status);
  }

  // ---------------------------------------------------------------- other passes

  /** A claim that is Bound for its present generation, or marked and already let go of, is left
      alone. */
  lemma SkippedOutcome(s: Cluster, claim: string, c: Claim, r: ProvisionResult, h: HealthResult, d: bool)
    requires Stored(s, claim, c)
    requires if c.marked then CLAIM_FINALIZER !in c.finalizers
             else c.status.phase == Bound && c.status.observed == c.generation
    ensures Run(s, Pass(claim, r, h, d)) == s
  {
    SkipIsRun(s, claim, c, r, h, d);
  }

  /** A new claim gets the finalizer and becomes Pending, before anything is provisioned. */
  lemma AdoptedOutcome(s: Cluster, claim: string, c: Claim, r: ProvisionResult, h: HealthResult, d: bool)
    requires Stored(s, claim, c) && !c.marked && CLAIM_FINALIZER !in c.finalizers
    requires !(c.status.phase == Bound && c.status.observed == c.generation)
    ensures var c' := After(s, claim, r, h, d);
            && c'.Some? && c'.value.finalizers == c.finalizers + [CLAIM_FINALIZER]
            && Bare(c'.value, Pending, "ClaimPending", "Initializing resource claim")
            && c'.value.uid == c.uid && c'.value.spec == c.spec && c'.value.owners == c.owners && !c'.value.marked
    ensures Run(s, Pass(claim, r, h, d)).live == s.live
  {
    AdoptIsRun(s, claim, c, r, h, d);
  }

  /** A marked claim loses the finalizer, and goes with it if it was the last one, exactly when its
      resources are torn down or nobody knows how; otherwise nothing changes in the store. */
  lemma DeletedOutcome(s: Cluster, claim: string, c: Claim, r: ProvisionResult, h: HealthResult, d: bool)
    requires Stored(s, claim, c) && c.marked && CLAIM_FINALIZER in c.finalizers
    ensures var s', c' := Run(s, Pass(claim, r, h, d)), After(s, claim, r, h, d);
            if c.spec.typ in s.strategies && !d then s'.store == s.store && s'.live == s.live
            else
              && (c' == None <==> forall f :: f in c.finalizers ==> f == CLAIM_FINALIZER)
              && (c'.Some? ==>
                    && CLAIM_FINALIZER !in c'.value.finalizers && c'.value.marked && c'.value.spec == c.spec
                    && forall f :: f in c.finalizers && f != CLAIM_FINALIZER ==> f in c'.value.finalizers)
              && (c.spec.typ in s.strategies ==> Resource(claim, c.uid, c.spec.typ) !in s'.live)
  {
    DeletionIsRun(s, claim, c, r, h, d);
    var fs := Api.Without(c.finalizers, CLAIM_FINALIZER);
    assert fs == [] <==> forall f :: f in c.finalizers ==> f == CLAIM_FINALIZER by {
      if fs != [] { assert fs[0] in fs; }
    }
  }
}
