/** Phase bookkeeping of a ResourceClaim and the decisions of the provisioner's phase handlers,
    as functions from the claim it holds and the answers of the provisioning strategy. */
module Lifecycle {
  import opened Api

  /** What a strategy's Provision call returns; `None` outputs stand for a nil pointer. */
  datatype ProvisionResult = Provisioned(outputs: Option<Outputs>) | ProvisionError(text: string)

  /** What a strategy's GetStatus call returns. */
  datatype HealthResult = Health(phase: Phase, reason: string, message: string) | HealthError(text: string)

  // ---------------------------------------------------------------- outputs

  predicate NonEmpty(o: Option<string>) {
    o.Some? && o.value != ""
  }

  /** At least one of the output fields is really set. */
  predicate ValidOutputs(o: Option<Outputs>) {
    && o.Some?
    && (|| NonEmpty(o.value.secretRef)
        || NonEmpty(o.value.configMapRef)
        || NonEmpty(o.value.uri)
        || NonEmpty(o.value.image)
        || (o.value.cert.Some? && (o.value.cert.value.secretName.Some? || |o.value.cert.value.data| > 0)))
  }

  /** A reference or text that says nothing. */
  predicate Blank(o: Option<string>) {
    o == None || o == Some("")
  }

  /** Outputs are refused exactly when there are none or nothing in them is set. A certificate
      counts with a Secret name, even an empty one, or with data. */
  lemma RefusedExactly(o: Option<Outputs>)
    ensures !ValidOutputs(o) <==>
            || o == None
            || (&& Blank(o.value.secretRef) && Blank(o.value.configMapRef) && Blank(o.value.uri) && Blank(o.value.image)
                && (o.value.cert == None || o.value.cert == Some(Cert(None, map[]))))
  {
    if o.Some? && o.value.cert.Some? {
      var data := o.value.cert.value.data;
      assert |data| == 0 <==> data == map[];
    }
  }

  // ---------------------------------------------------------------- phase setters

  function InPhase(c: Claim, phase: Phase, reason: string, message: string): ClaimStatus {
    c.status.(phase := phase, reason := reason, message := message, observed := c.generation)
  }

  function Unbound(c: Claim, phase: Phase, reason: string, message: string): ClaimStatus {
    InPhase(c, phase, reason, message).(available := false, outputs := None)
  }

  function BoundWith(c: Claim, outputs: Option<Outputs>): ClaimStatus {
    InPhase(c, Bound, "Succeeded", "Resource successfully provisioned").(outputs := outputs, available := true)
  }

  predicate HasFinalizer(c: Claim) {
    CLAIM_FINALIZER in c.finalizers
  }

  predicate ShouldReconcile(c: Claim) {
    if c.marked then HasFinalizer(c)
    else !(c.status.phase.Bound? && c.status.observed == c.generation)
  }

  // ---------------------------------------------------------------- handlers

  /** The message of a failed Provision call, in the Pending and in the Claiming handler. */
  function CallFailed(c: Claim, text: string): string {
    (if c.status.phase.Claiming? then "Failed to get outputs: " else "Provisioning failed: ") + text
  }

  /** The status after a Provision call, in the Pending and in the Claiming handler. */
  function AfterProvision(c: Claim, r: ProvisionResult): ClaimStatus {
    match r
    case ProvisionError(text) => Unbound(c, Failed, "ClaimFailed", CallFailed(c, text))
    case Provisioned(outputs) =>
      if ValidOutputs(outputs) then BoundWith(c, outputs)
      else Unbound(c, Failed, "ProjectionError", "Invalid outputs")
  }

  /** The status after the health check of the Bound handler. */
  function AfterBoundCheck(c: Claim, h: HealthResult): ClaimStatus {
    if h.Health? && h.phase.Failed? then Unbound(c, Failed, h.reason, h.message) else c.status
  }

  /** The status after the health check of the Failed handler. */
  function AfterFailedCheck(c: Claim, h: HealthResult): ClaimStatus {
    if h.Health? && h.phase.Bound? then Unbound(c, Claiming, "Claiming", "Retrying provisioning after recovery")
    else c.status
  }

  /** The status after the health check of the Claiming handler, unless the check reports
      Bound, which leads to a Provision call instead. */
  function AfterClaimingCheck(c: Claim, h: HealthResult): ClaimStatus {
    match h
    case HealthError(text) => Unbound(c, Failed, "ClaimFailed", "Status check failed: " + text)
    case Health(phase, reason, message) =>
      if phase.Failed? then Unbound(c, Failed, reason, message) else c.status
  }

  // ---------------------------------------------------------------- what a status means

  /** Bound, outputs available, outputs present and outputs valid are the same thing, and no
      unknown phase occurs. */
  predicate StatusOk(s: ClaimStatus) {
    && !s.phase.Unknown?
    && (s.phase.Bound? <==> s.available)
    && (s.available <==> ValidOutputs(s.outputs))
    && (s.available <==> s.outputs.Some?)
  }

  /** The phase changes that a stored claim may go through in one write. */
  predicate PhaseStep(p: Phase, q: Phase) {
    || p == q
    || (p.Unset? && (q.Pending? || q.Bound? || q.Failed?))
    || (p.Pending? && (q.Bound? || q.Failed?))
    || (p.Claiming? && (q.Bound? || q.Failed?))
    || (p.Bound? && q.Failed?)
    || (p.Failed? && q.Claiming?)
  }

  /** SetPending, SetClaiming and SetFailed always leave a coherent status, and each is a legal
      step from exactly these phases. */
  lemma UnboundCoherent(c: Claim, phase: Phase, reason: string, message: string)
    requires phase.Pending? || phase.Claiming? || phase.Failed?
    ensures StatusOk(Unbound(c, phase, reason, message))
    ensures var p := c.status.phase;
            PhaseStep(p, Unbound(c, phase, reason, message).phase) <==>
              || p == phase
              || (phase.Pending? && p.Unset?)
              || (phase.Claiming? && p.Failed?)
              || (phase.Failed? && !p.Unknown?)
  {
  }

  /** SetBound leaves a coherent status exactly when the outputs pass validation, whatever the
      claim held before, and is a legal step from every phase but Failed and unknown ones. */
  lemma BoundCoherent(c: Claim, outputs: Option<Outputs>)
    ensures StatusOk(BoundWith(c, outputs)) <==> ValidOutputs(outputs)
    ensures PhaseStep(c.status.phase, BoundWith(c, outputs).phase) <==>
        !c.status.phase.Failed? && !c.status.phase.Unknown?
  {
  }
}
