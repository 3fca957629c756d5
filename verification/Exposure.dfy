/** The status of one Workload as several controllers write it: the registrar keeps the spec of
    its WorkloadExposure, the runtime publishes URLs in the exposure's status, the mirror copies
    them to the Workload, and the pipeline stores the conditions. Every event is at most one
    client call; users delete and recreate the Workload at any time. */
module Exposure {
  import opened Api
  import opened Conditions
  import opened Claims

  datatype Target = Target(
    uid: nat, generation: nat, rv: nat, marked: bool, finalizer: bool,
    endpoint: Option<string>, conds: seq<Condition>)

  /** `ref` and `generation` are the spec's view of the Workload, `owner` the owner reference. */
  datatype Expo = Expo(
    ref: nat, generation: nat, klass: string, owner: nat, rv: nat, urls: seq<string>, conds: seq<Condition>)

  datatype PlanPhase = PlanUnset | PlanPending | PlanProvisioning | PlanReady | PlanFailed

  datatype Plan = Plan(phase: PlanPhase, message: string)

  datatype Registrar = NoReg | RegGot(w: Target, klass: string) | RegSeen(w: Target, klass: string, found: Option<Expo>)

  datatype Runtime = NoRun | RunGot(e: Expo)

  /** `MirPatch` is reached only through the identity and generation guards. */
  datatype Mirror = NoMir | MirGot(e: Expo) | MirPatch(e: Expo, w: Target)

  datatype Pass =
    | NoPass
    | PassGot(w: Target)
    | PassArmed(w: Target)
    | PassListed(w: Target, claims: seq<Claim>)
    | PassPlanned(w: Target, claims: seq<Claim>, plan: Option<Plan>)

  /** `published` is history: the first URLs the runtime ever stored, with the uid in the spec. */
  datatype World = World(
    workload: Option<Target>, exposure: Option<Expo>,
    registrar: Registrar, runtime: Runtime, mirror: Mirror, pass: Pass,
    nextUid: nat, nextRv: nat, published: set<(nat, string)>)

  datatype Event =
    | UserCreate | UserEdit | UserDelete | Touch | Release | Collect
    | RegGet(klass: string) | RegSee | RegWrite | RegAbort
    | RunGet | RunWrite(urls: seq<string>, conds: seq<Condition>) | RunAbort
    | MirGet | MirRead | MirWrite(now: nat) | MirAbort
    | PassGet | PassFinalizer | PassList(claims: seq<Claim>) | PassPlan(plan: Option<Plan>) | PassStore(now: nat)
    | PassAbort

  function Init(): World {
    World(None, None, NoReg, NoRun, NoMir, NoPass, 0, 0, {})
  }

  // ---------------------------------------------------------------- users and the API server

  function Put(w: World, t: Target): World {
    w.(workload := Some(t.(rv := w.nextRv)), nextRv := w.nextRv + 1)
  }

  function User(w: World, e: Event): World {
    match e
    case UserCreate =>
      if w.workload.Some? then w
      else w.(workload := Some(Target(w.nextUid, 1, w.nextRv, false, false, None, [])), nextUid := w.nextUid + 1,
          nextRv := w.nextRv + 1)
    case UserEdit => if w.workload.Some? then Put(w, w.workload.value.(generation := w.workload.value.generation + 1))
        else w
    case UserDelete =>
      if w.workload.None? then w
      else if !w.workload.value.finalizer then w.(workload := None, nextRv := w.nextRv + 1)
      else if w.workload.value.marked then w
      else Put(w, w.workload.value.(marked := true, generation := w.workload.value.generation + 1))
    case Touch => if w.workload.Some? then Put(w, w.workload.value) else w
    case Release =>
      if w.workload.Some? && w.workload.value.marked && w.workload.value.finalizer then
          w.(workload := None, nextRv := w.nextRv + 1) else w
    case Collect =>
      if w.exposure.Some? && (w.workload.None? || w.workload.value.uid != w.exposure.value.owner) then
        w.(exposure := None, nextRv := w.nextRv + 1)
      else w
    case _ => w
  }

  // ---------------------------------------------------------------- registrar

  /** A merge patch sends the spec fields in which the desired exposure differs from the one read. */
  function PatchSpec(cur: Expo, read: Expo, w: Target, klass: string): Expo {
    cur.(ref := if read.ref != w.uid then w.uid else cur.ref,
         generation := if read.generation != w.generation then w.generation else cur.generation,
         klass := if read.klass != klass then klass else cur.klass)
  }

  function RegisterNext(w: World, e: Event): World {
    match e
    case RegGet(klass) =>
      if w.registrar.NoReg? && w.workload.Some? && !w.workload.value.marked then
          w.(registrar := RegGot(w.workload.value, klass)) else w
    case RegSee => if w.registrar.RegGot? then w.(registrar := RegSeen(w.registrar.w, w.registrar.klass, w.exposure))
        else w
    case RegWrite =>
      if !w.registrar.RegSeen? then w
      else
        var t, klass := w.registrar.w, w.registrar.klass;
        var w' := w.(registrar := NoReg, nextRv := w.nextRv + 1);
        if w.registrar.found.None? then
          if w.exposure.Some? then w.(registrar := NoReg)
          else w'.(exposure := Some(Expo(t.uid, t.generation, klass, t.uid, w.nextRv, [], [])))
        else
          var read := w.registrar.found.value;
          if w.exposure.None? || (read.ref == t.uid && read.generation == t.generation && read.klass == klass) then
              w.(registrar := NoReg)
          else w'.(exposure := Some(PatchSpec(w.exposure.value, read, t, klass).(rv := w.nextRv)))
    case RegAbort => w.(registrar := NoReg)
    case _ => w
  }

  // ---------------------------------------------------------------- runtime

  function RuntimeNext(w: World, e: Event): World {
    match e
    case RunGet => if w.runtime.NoRun? && w.exposure.Some? then w.(runtime := RunGot(w.exposure.value)) else w
    case RunWrite(urls, conds) =>
      if w.runtime.RunGot? && w.exposure.Some? && w.exposure.value.rv == w.runtime.e.rv then
        w.(exposure := Some(w.exposure.value.(urls := urls, conds := conds, rv := w.nextRv)), nextRv := w.nextRv + 1,
            runtime := NoRun,
           published := if urls == [] then w.published else w.published + {(w.exposure.value.ref, urls[0])})
      else w.(runtime := NoRun)
    case RunAbort => w.(runtime := NoRun)
    case _ => w
  }

  // ---------------------------------------------------------------- mirror

  /** The endpoint taken from the first URL of an exposure, if it is a valid one. */
  function TopUrl(e: Expo, valid: string -> bool): Option<string> {
    if e.urls != [] && valid(e.urls[0]) then Some(e.urls[0]) else None
  }

  /** The merge patch: only what mirroring changed in the Workload as read is sent. */
  function PatchStatus(cur: Target, read: Target, e: Expo, now: nat, valid: string -> bool): Target {
    var conds := MirrorAll(read.conds, NormalAll(e.conds), now);
    cur.(endpoint := if read.endpoint != TopUrl(e, valid) then TopUrl(e, valid) else cur.endpoint,
         conds := if conds != read.conds then conds else cur.conds)
  }

  function MirrorNext(w: World, e: Event, valid: string -> bool): World {
    match e
    case MirGet => if w.mirror.NoMir? && w.exposure.Some? then w.(mirror := MirGot(w.exposure.value)) else w
    case MirRead =>
      if w.mirror.MirGot? && w.workload.Some? && w.workload.value.uid == w.mirror.e.ref
         && !(w.mirror.e.generation < w.workload.value.generation) then
        w.(mirror := MirPatch(w.mirror.e, w.workload.value))
      else w.(mirror := NoMir)
    case MirWrite(now) =>
      if !w.mirror.MirPatch? then w
      else if w.workload.None? then w.(mirror := NoMir)
      else
        var t := PatchStatus(w.workload.value, w.mirror.w, w.mirror.e, now, valid);
        var changed := w.mirror.w.endpoint != TopUrl(w.mirror.e, valid)
            || MirrorReports(w.mirror.w.conds, NormalAll(w.mirror.e.conds), now);
        if changed then Put(w, t).(mirror := NoMir) else w.(mirror := NoMir)
    case MirAbort => w.(mirror := NoMir)
    case _ => w
  }

  // ---------------------------------------------------------------- pipeline

  function RuntimeVerdict(plan: Option<Plan>): (r: (Verdict, string, string))
    ensures r.0 == True <==> plan.Some? && plan.value.phase.PlanReady?
  {
    if plan.None? then (False, "RuntimeSelecting", "Runtime controller is being selected")
    else
      match plan.value.phase
      case PlanReady => (True, "Succeeded", "Runtime provisioned successfully")
      case PlanFailed => (False, "RuntimeDegraded", if plan.value.message == "" then "Runtime provisioning failed"
          else plan.value.message)
      case PlanProvisioning =>
        (False, "RuntimeProvisioning", if plan.value.message == "" then "Runtime resources are being provisioned"
            else plan.value.message)
      case _ => (False, "RuntimeSelecting", "Runtime provisioning pending")
  }

  /** The four conditions as the validation, claim and status phases leave them. */
  function FinalConds(cs: seq<Condition>, claims: seq<Claim>, plan: Option<Plan>, now: nat): seq<Condition> {
    var c1 := Set(cs, INPUTS_VALID, True, "Succeeded", "Workload specification is valid", now);
    var c2 := Set(c1, CLAIMS_READY, if AllUsable(claims) then True else False, Reason(claims), Message(claims), now);
    var v := RuntimeVerdict(plan);
    var c3 := Set(c2, RUNTIME_READY, v.0, v.1, v.2, now);
    var r := ComputeReady(c3);
    Set(c3, READY, r.0, r.1, r.2, now)
  }

  function PassNext(w: World, e: Event): World {
    match e
    case PassGet =>
      if w.pass.NoPass? && w.workload.Some? && !w.workload.value.marked then w.(pass := PassGot(w.workload.value))
          else w
    case PassFinalizer =>
      if !w.pass.PassGot? then w
      else if w.pass.w.finalizer then w.(pass := PassArmed(w.pass.w))
      else if w.workload.Some? && w.workload.value.rv == w.pass.w.rv then
        var w' := Put(w, w.workload.value.(finalizer := true));
        w'.(pass := PassArmed(w'.workload.value))
      else w.(pass := NoPass)
    case PassList(claims) => if w.pass.PassArmed? then w.(pass := PassListed(w.pass.w, claims)) else w
    case PassPlan(plan) => if w.pass.PassListed? then w.(pass := PassPlanned(w.pass.w, w.pass.claims, plan)) else w
    case PassStore(now) =>
      if !w.pass.PassPlanned? then w
      else if w.workload.Some? && w.workload.value.rv == w.pass.w.rv then
        Put(w, w.workload.value.(endpoint := w.pass.w.endpoint,
            conds := FinalConds(w.pass.w.conds, w.pass.claims, w.pass.plan, now))).(pass := NoPass)
      else w.(pass := NoPass)
    case PassAbort => w.(pass := NoPass)
    case _ => w
  }

  // ---------------------------------------------------------------- runs

  predicate ByRegistrar(e: Event) { e.RegGet? || e.RegSee? || e.RegWrite? || e.RegAbort? }

  predicate ByRuntime(e: Event) { e.RunGet? || e.RunWrite? || e.RunAbort? }

  predicate ByMirror(e: Event) { e.MirGet? || e.MirRead? || e.MirWrite? || e.MirAbort? }

  predicate ByPass(e: Event) {
    e.PassGet? || e.PassFinalizer? || e.PassList? || e.PassPlan? || e.PassStore? || e.PassAbort?
  }

  function Apply(w: World, e: Event, valid: string -> bool): World {
    if ByRegistrar(e) then RegisterNext(w, e)
    else if ByRuntime(e) then RuntimeNext(w, e)
    else if ByMirror(e) then MirrorNext(w, e, valid)
    else if ByPass(e) then PassNext(w, e)
    else User(w, e)
  }

  function Run(w: World, es: seq<Event>, valid: string -> bool): World
    decreases |es|
  {
    if es == [] then w else Run(Apply(w, es[0], valid), es[1..], valid)
  }

  // ---------------------------------------------------------------- generations and endpoints

  /** Whatever refers to the stored Workload's incarnation is not ahead of its generation. */
  predicate NotAhead(w: World, uid: nat, generation: nat) {
    uid < w.nextUid && (w.workload.Some? && w.workload.value.uid == uid ==> generation <= w.workload.value.generation)
  }

  ghost predicate Published(w: World, url: string) {
    exists uid :: (uid, url) in w.published
  }

  ghost predicate ExpoOk(w: World, e: Expo) {
    NotAhead(w, e.ref, e.generation) && (e.urls != [] ==> Published(w, e.urls[0]))
  }

  ghost predicate EndpointOk(w: World, endpoint: Option<string>, valid: string -> bool) {
    endpoint.Some? ==> valid(endpoint.value) && Published(w, endpoint.value)
  }

  ghost predicate RegistrarOk(w: World) {
    && (!w.registrar.NoReg? ==> NotAhead(w, w.registrar.w.uid, w.registrar.w.generation))
    && (w.registrar.RegSeen? && w.registrar.found.Some? && w.exposure.Some? ==>
          w.exposure.value.ref == w.registrar.found.value.ref
              && w.exposure.value.generation == w.registrar.found.value.generation)
  }

  ghost predicate MirrorOk(w: World) {
    && (!w.mirror.NoMir? ==> ExpoOk(w, w.mirror.e))
    && (w.mirror.MirPatch? ==> w.mirror.e.ref == w.mirror.w.uid && w.mirror.e.generation == w.mirror.w.generation)
  }

  ghost predicate Inv(w: World, valid: string -> bool) {
    && (w.workload.Some? ==> w.workload.value.uid < w.nextUid && EndpointOk(w, w.workload.value.endpoint, valid))
    && (w.exposure.Some? ==> ExpoOk(w, w.exposure.value))
    && RegistrarOk(w) && MirrorOk(w)
    && (!w.pass.NoPass? ==> EndpointOk(w, w.pass.w.endpoint, valid))
  }

  lemma RegistrarKeeps(w: World, e: Event, valid: string -> bool)
    requires Inv(w, valid) && ByRegistrar(e)
    ensures Inv(RegisterNext(w, e), valid)
  {
  }

  lemma RuntimeKeeps(w: World, e: Event, valid: string -> bool)
    requires Inv(w, valid) && ByRuntime(e)
    ensures Inv(RuntimeNext(w, e), valid)
  {
    var w' := RuntimeNext(w, e);
    assert w.published <= w'.published;
    if e.RunWrite? && e.urls != [] && w.exposure.Some? {
      assert w' == w.(runtime := NoRun) || (w.exposure.value.ref, e.urls[0]) in w'.published;
    }
  }

  lemma MirrorKeeps(w: World, e: Event, valid: string -> bool)
    requires Inv(w, valid) && ByMirror(e)
    ensures Inv(MirrorNext(w, e, valid), valid)
  {
  }

  lemma PassKeeps(w: World, e: Event, valid: string -> bool)
    requires Inv(w, valid) && ByPass(e)
    ensures Inv(PassNext(w, e), valid)
  {
  }

  lemma UserKeeps(w: World, e: Event, valid: string -> bool)
    requires Inv(w, valid)
    ensures Inv(User(w, e), valid)
  {
  }

  lemma EventKeeps(w: World, e: Event, valid: string -> bool)
    requires Inv(w, valid)
    ensures Inv(Apply(w, e, valid), valid)
  {
    if ByRegistrar(e) {
      RegistrarKeeps(w, e, valid);
    } else if ByRuntime(e) {
      RuntimeKeeps(w, e, valid);
    } else if ByMirror(e) {
      MirrorKeeps(w, e, valid);
    } else if ByPass(e) {
      PassKeeps(w, e, valid);
    } else {
      UserKeeps(w, e, valid);
    }
  }

  lemma {:induction false} RunKeeps(w: World, es: seq<Event>, valid: string -> bool)
    requires Inv(w, valid)
    ensures Inv(Run(w, es, valid), valid)
    decreases |es|
  {
    if es != [] {
      EventKeeps(w, es[0], valid);
      RunKeeps(Apply(w, es[0], valid), es[1..], valid);
    }
  }

  /** In every run, across deletion and recreation with reset generations: an exposure that
      refers to the stored Workload is never ahead of it; the mirror only ever patches after it
      read a Workload of the exposure's uid and generation; and the endpoint is empty or a valid
      URL that the runtime published first in its list. */
  lemma MirrorSafe(es: seq<Event>, valid: string -> bool)
    ensures var w := Run(Init(), es, valid);
            && (w.workload.Some? && w.exposure.Some? && w.exposure.value.ref == w.workload.value.uid ==>
                  w.exposure.value.generation <= w.workload.value.generation)
            && (w.mirror.MirPatch? ==>
                 w.mirror.e.ref == w.mirror.w.uid && w.mirror.e.generation == w.mirror.w.generation)
            && (w.workload.Some? && w.workload.value.endpoint.Some? ==>
                  valid(w.workload.value.endpoint.value) && Published(w, w.workload.value.endpoint.value))
  {
    RunKeeps(Init(), es, valid);
  }

  // ---------------------------------------------------------------- what the mirror writes to

  /** The stored Workload gets another generation or goes. */
  predicate Moves(w: World, e: Event) {
    w.workload.Some? &&
      var t := w.workload.value;
      e.UserEdit? || (e.UserDelete? && !(t.finalizer && t.marked)) || (e.Release? && t.marked && t.finalizer)
  }

  predicate Moved(w: World, es: seq<Event>, valid: string -> bool)
    decreases |es|
  {
    es != [] && (Moves(w, es[0]) || Moved(Apply(w, es[0], valid), es[1..], valid))
  }

  predicate At(w: World, uid: nat, generation: nat) {
    w.workload.Some? && w.workload.value.uid == uid && w.workload.value.generation == generation
  }

  /** The incarnation has gone on or is gone. */
  predicate Past(w: World, uid: nat, generation: nat) {
    uid < w.nextUid && (w.workload.Some? && w.workload.value.uid <= uid ==>
      w.workload.value.uid == uid && generation < w.workload.value.generation)
  }

  lemma EventMoves(w: World, e: Event, valid: string -> bool, uid: nat, generation: nat)
    requires w.workload.Some? ==> w.workload.value.uid < w.nextUid
    ensures var w' := Apply(w, e, valid);
            && (w'.workload.Some? ==> w'.workload.value.uid < w'.nextUid)
            && (At(w, uid, generation) ==> if Moves(w, e) then Past(w', uid, generation) else At(w', uid, generation))
            && (Past(w, uid, generation) ==> Past(w', uid, generation))
  {
    if ByRegistrar(e) || ByRuntime(e) || ByPass(e) {
    } else if ByMirror(e) {
    } else {
    }
  }

  lemma {:induction false} RunMoves(w: World, es: seq<Event>, valid: string -> bool, uid: nat, generation: nat)
    requires w.workload.Some? ==> w.workload.value.uid < w.nextUid
    ensures At(w, uid, generation) ==> (At(Run(w, es, valid), uid, generation) <==> !Moved(w, es, valid))
    ensures Past(w, uid, generation) ==> Past(Run(w, es, valid), uid, generation)
    decreases |es|
  {
    if es != [] {
      EventMoves(w, es[0], valid, uid, generation);
      RunMoves(Apply(w, es[0], valid), es[1..], valid, uid, generation);
    }
  }

  /** The mirror's patch carries no precondition. The object it is applied to has the uid and
      generation of the exposure it comes from exactly when, since the mirror read the Workload,
      nobody has edited, marked or removed it. */
  lemma WriteIsCurrent(w: World, es: seq<Event>, now: nat, valid: string -> bool)
    requires Inv(w, valid) && w.mirror.MirGot? && Apply(w, MirRead, valid).mirror.MirPatch?
    requires forall e :: e in es ==> !ByMirror(e)
    ensures var w1 := Apply(w, MirRead, valid);
            At(Apply(Run(w1, es, valid), MirWrite(now), valid), w.mirror.e.ref, w.mirror.e.generation) <==>
                !Moved(w1, es, valid)
  {
    var w1 := Apply(w, MirRead, valid);
    EventKeeps(w, MirRead, valid);
    RunMoves(w1, es, valid, w.mirror.e.ref, w.mirror.e.generation);
    RunKeeps(w1, es, valid);
    EventMoves(Run(w1, es, valid), MirWrite(now), valid, w.mirror.e.ref, w.mirror.e.generation);
  }

  // ---------------------------------------------------------------- undisturbed passes

  lemma {:induction false} QuietMirror(cs: seq<Condition>, ns: seq<Condition>, now: nat)
    requires !MirrorReports(cs, ns, now)
    ensures MirrorAll(cs, ns, now) == cs
    decreases |ns|
  {
    if ns != [] { QuietMirror(cs, ns[..|ns| - 1], now); }
  }

  /** One undisturbed pass of the mirror. */
  function MirrorPass(w: World, now: nat, valid: string -> bool): World {
    Apply(Apply(Apply(w, MirGet, valid), MirRead, valid), MirWrite(now), valid)
  }

  /** After it the endpoint of the Workload is the first URL of its exposure if that is valid, and
      otherwise none; each type the exposure reports has the status, reason and message it
      reported last, every other is as it was; and nothing else of the Workload has changed. */
  lemma MirrorOutcome(w: World, now: nat, typ: string, valid: string -> bool)
    requires w.workload.Some? && w.exposure.Some? && w.mirror.NoMir?
    requires w.exposure.value.ref == w.workload.value.uid
    requires w.exposure.value.generation >= w.workload.value.generation
    ensures var w', urls := MirrorPass(w, now, valid), w.exposure.value.urls;
            && w'.workload.Some? && w'.mirror.NoMir? && w'.exposure == w.exposure
            && (urls != [] && valid(urls[0]) ==> w'.workload.value.endpoint == Some(urls[0]))
            && (urls == [] || !valid(urls[0]) ==> w'.workload.value.endpoint == None)
            && w'.workload.value.uid == w.workload.value.uid && w'.workload.value.marked == w.workload.value.marked
            && w'.workload.value.generation == w.workload.value.generation
            && w'.workload.value.finalizer == w.workload.value.finalizer
            && var was, has := Lookup(w.workload.value.conds, typ), Lookup(w'.workload.value.conds, typ);
               match Last(NormalAll(w.exposure.value.conds), typ)
               case None => has == was
               case Some(c) =>
                 has.Some? && has.value.status == c.status && has.value.reason == c.reason
                     && has.value.message == c.message
  {
    MirrorPasses(w, now, valid);
    MirrorLookup(w.workload.value.conds, NormalAll(w.exposure.value.conds), now, typ);
  }

  lemma MirrorReads(w: World, valid: string -> bool)
    requires w.workload.Some? && w.exposure.Some? && w.mirror.NoMir?
    requires w.exposure.value.ref == w.workload.value.uid
    requires w.exposure.value.generation >= w.workload.value.generation
    ensures Apply(Apply(w, MirGet, valid), MirRead, valid) ==
        w.(mirror := MirPatch(w.exposure.value, w.workload.value))
  {
  }

  /** What the patch makes of a Workload that is still as it was read. */
  function Patched(t: Target, e: Expo, now: nat, valid: string -> bool): Target {
    t.(endpoint := TopUrl(e, valid), conds := MirrorAll(t.conds, NormalAll(e.conds), now))
  }

  lemma MirrorWrites(w: World, t: Target, e: Expo, now: nat, valid: string -> bool)
    requires w.workload == Some(t) && w.mirror == MirPatch(e, t)
    ensures var w' := MirrorNext(w, MirWrite(now), valid);
            && w'.workload.Some? && w' == w.(workload := w'.workload, nextRv := w'.nextRv, mirror := NoMir)
            && w'.workload.value == Patched(t, e, now, valid).(rv := w'.workload.value.rv)
  {
    var ns := NormalAll(e.conds);
    if !MirrorReports(t.conds, ns, now) { QuietMirror(t.conds, ns, now); }
    assert PatchStatus(t, t, e, now, valid) == Patched(t, e, now, valid);
  }

  lemma MirrorPasses(w: World, now: nat, valid: string -> bool)
    requires w.workload.Some? && w.exposure.Some? && w.mirror.NoMir?
    requires w.exposure.value.ref == w.workload.value.uid
    requires w.exposure.value.generation >= w.workload.value.generation
    ensures var w' := MirrorPass(w, now, valid);
            && w'.workload.Some? && w' == w.(workload := w'.workload, nextRv := w'.nextRv)
            && w'.workload.value == Patched(w.workload.value, w.exposure.value, now, valid).(rv := w'.workload.value.rv)
  {
    MirrorReads(w, valid);
    var w2 := w.(mirror := MirPatch(w.exposure.value, w.workload.value));
    MirrorWrites(w2, w.workload.value, w.exposure.value, now, valid);
  }

  /** One undisturbed pass of the registrar. */
  function RegistrarPass(w: World, klass: string, valid: string -> bool): World {
    Apply(Apply(Apply(w, RegGet(klass), valid), RegSee, valid), RegWrite, valid)
  }

  /** After it there is an exposure that refers to the Workload in its present generation with the
      class; one that was there keeps its status and its owner. */
  lemma RegistrarOutcome(w: World, klass: string, valid: string -> bool)
    requires w.workload.Some? && !w.workload.value.marked && w.registrar.NoReg?
    ensures var w', t := RegistrarPass(w, klass, valid), w.workload.value;
            && w'.workload == w.workload && w'.registrar.NoReg? && w'.exposure.Some?
            && w'.exposure.value.ref == t.uid && w'.exposure.value.generation == t.generation
            && w'.exposure.value.klass == klass
            && (w.exposure.None? ==> w'.exposure.value.owner == t.uid && w'.exposure.value.urls == [])
            && (w.exposure.Some? ==>
                  && w'.exposure.value.owner == w.exposure.value.owner
                     && w'.exposure.value.urls == w.exposure.value.urls
                  && w'.exposure.value.conds == w.exposure.value.conds)
  {
  }

  // ---------------------------------------------------------------- Ready

  lemma SetKeeps(cs: seq<Condition>, typ: string, v: Verdict, reason: string, message: string, now: nat, other: string)
    ensures IsTrue(Set(cs, typ, v, reason, message, now), typ) <==> v == True
    ensures other != typ ==> Lookup(Set(cs, typ, v, reason, message, now), other) == Lookup(cs, other)
  {
    var c := Changed(Lookup(cs, typ), typ, v, reason, message, now);
    LookupPut(cs, c, typ);
    LookupPut(cs, c, other);
  }

  /** What the pipeline stores is Ready exactly when every listed claim was Bound with outputs
      and the plan it read was Ready, and Ready agrees with the three other conditions. */
  lemma FinalReady(cs: seq<Condition>, claims: seq<Claim>, plan: Option<Plan>, now: nat)
    ensures Consistent(FinalConds(cs, claims, plan, now))
    ensures IsTrue(FinalConds(cs, claims, plan, now), READY) <==>
        AllUsable(claims) && plan.Some? && plan.value.phase.PlanReady?
    ensures IsTrue(FinalConds(cs, claims, plan, now), CLAIMS_READY) <==>
              forall c :: c in claims ==> c.status.phase == Bound && c.status.available
    ensures IsTrue(FinalConds(cs, claims, plan, now), RUNTIME_READY) <==> plan.Some? && plan.value.phase == PlanReady
    ensures IsTrue(FinalConds(cs, claims, plan, now), INPUTS_VALID)
  {
    assert INPUTS_VALID[0] != CLAIMS_READY[0] && INPUTS_VALID[0] != RUNTIME_READY[0]
        && CLAIMS_READY[0] != RUNTIME_READY[0];
    assert |READY| != |INPUTS_VALID| && |READY| != |CLAIMS_READY| && |READY| != |RUNTIME_READY|;
    var c1 := Set(cs, INPUTS_VALID, True, "Succeeded", "Workload specification is valid", now);
    SetKeeps(cs, INPUTS_VALID, True, "Succeeded", "Workload specification is valid", now, INPUTS_VALID);
    var v := if AllUsable(claims) then True else False;
    var c2 := Set(c1, CLAIMS_READY, v, Reason(claims), Message(claims), now);
    SetKeeps(c1, CLAIMS_READY, v, Reason(claims), Message(claims), now, INPUTS_VALID);
    var r := RuntimeVerdict(plan);
    var c3 := Set(c2, RUNTIME_READY, r.0, r.1, r.2, now);
    SetKeeps(c2, RUNTIME_READY, r.0, r.1, r.2, now, INPUTS_VALID);
    SetKeeps(c2, RUNTIME_READY, r.0, r.1, r.2, now, CLAIMS_READY);
    var f := ComputeReady(c3);
    SetKeeps(c3, READY, f.0, f.1, f.2, now, INPUTS_VALID);
    SetKeeps(c3, READY, f.0, f.1, f.2, now, CLAIMS_READY);
    SetKeeps(c3, READY, f.0, f.1, f.2, now, RUNTIME_READY);
  }

  /** The runtime reports no condition that the mirror would copy. */
  predicate Plain(e: Event) {
    e.RunWrite? ==> NormalAll(e.conds) == []
  }

  /** No exposure, stored or read, carries such a condition. */
  predicate NoneToCopy(w: World) {
    && (w.exposure.Some? ==> NormalAll(w.exposure.value.conds) == [])
    && (!w.mirror.NoMir? ==> NormalAll(w.mirror.e.conds) == [])
  }

  predicate PlainInv(w: World) {
    NoneToCopy(w) && (w.workload.Some? ==> Consistent(w.workload.value.conds))
  }

  /** The condition list is new and empty, or as before, or the result of a pass. */
  predicate CondsFrom(w: World, e: Event, w': World) {
    w'.workload.Some? ==>
      || w'.workload.value.conds == []
      || (w.workload.Some? && w'.workload.value.conds == w.workload.value.conds)
      || (e.PassStore? && w.pass.PassPlanned?
          && w'.workload.value.conds == FinalConds(w.pass.w.conds, w.pass.claims, w.pass.plan, e.now))
  }

  lemma RegistrarCopiesNothing(w: World, e: Event)
    requires NoneToCopy(w) && ByRegistrar(e)
    ensures NoneToCopy(RegisterNext(w, e)) && CondsFrom(w, e, RegisterNext(w, e))
  {
  }

  lemma RuntimeCopiesNothing(w: World, e: Event)
    requires NoneToCopy(w) && ByRuntime(e) && Plain(e)
    ensures NoneToCopy(RuntimeNext(w, e)) && CondsFrom(w, e, RuntimeNext(w, e))
  {
  }

  lemma UserCopiesNothing(w: World, e: Event)
    requires NoneToCopy(w)
    ensures NoneToCopy(User(w, e)) && CondsFrom(w, e, User(w, e))
  {
  }

  lemma MirrorCopiesNothing(w: World, e: Event, valid: string -> bool)
    requires NoneToCopy(w) && ByMirror(e)
    ensures NoneToCopy(MirrorNext(w, e, valid)) && CondsFrom(w, e, MirrorNext(w, e, valid))
  {
  }

  lemma StoreCopiesNothing(w: World, e: Event)
    requires NoneToCopy(w) && e.PassStore?
    ensures NoneToCopy(PassNext(w, e)) && CondsFrom(w, e, PassNext(w, e))
  {
  }

  lemma PassCopiesNothing(w: World, e: Event)
    requires NoneToCopy(w) && ByPass(e)
    ensures NoneToCopy(PassNext(w, e)) && CondsFrom(w, e, PassNext(w, e))
  {
    if e.PassStore? { StoreCopiesNothing(w, e); }
  }

  lemma EventCopiesNothing(w: World, e: Event, valid: string -> bool)
    requires NoneToCopy(w) && Plain(e)
    ensures NoneToCopy(Apply(w, e, valid)) && CondsFrom(w, e, Apply(w, e, valid))
  {
    if ByRegistrar(e) {
      RegistrarCopiesNothing(w, e);
    } else if ByRuntime(e) {
      RuntimeCopiesNothing(w, e);
    } else if ByMirror(e) {
      MirrorCopiesNothing(w, e, valid);
    } else if ByPass(e) {
      PassCopiesNothing(w, e);
    } else {
      UserCopiesNothing(w, e);
    }
  }

  lemma PlainKeeps(w: World, e: Event, valid: string -> bool)
    requires PlainInv(w) && Plain(e)
    ensures PlainInv(Apply(w, e, valid))
  {
    EventCopiesNothing(w, e, valid);
    CondsEarned(w, e, Apply(w, e, valid));
  }

  lemma CondsEarned(w: World, e: Event, w': World)
    requires CondsFrom(w, e, w') && (w.workload.Some? ==> Consistent(w.workload.value.conds))
    ensures w'.workload.Some? ==> Consistent(w'.workload.value.conds)
    ensures !StoredReady(w) && StoredReady(w') ==>
              && e.PassStore? && w.pass.PassPlanned? && AllUsable(w.pass.claims)
              && w.pass.plan.Some? && w.pass.plan.value.phase.PlanReady?
  {
    if e.PassStore? && w.pass.PassPlanned? {
      FinalReady(w.pass.w.conds, w.pass.claims, w.pass.plan, e.now);
    }
  }

  lemma {:induction false} PlainRunKeeps(w: World, es: seq<Event>, valid: string -> bool)
    requires PlainInv(w) && forall e :: e in es ==> Plain(e)
    ensures PlainInv(Run(w, es, valid))
    decreases |es|
  {
    if es != [] {
      PlainKeeps(w, es[0], valid);
      PlainRunKeeps(Apply(w, es[0], valid), es[1..], valid);
    }
  }

  /** The stored Workload is Ready. */
  predicate StoredReady(w: World) {
    w.workload.Some? && IsTrue(w.workload.value.conds, READY)
  }

  /** In every run whose exposures carry no such conditions, stored Ready is the conjunction of
      the three others, and the next event makes it True only by storing the status of a pass
      that saw every claim Bound with outputs and a Ready plan. */
  lemma ReadyIsEarned(es: seq<Event>, e: Event, valid: string -> bool)
    requires (forall x :: x in es ==> Plain(x)) && Plain(e)
    ensures var w := Run(Init(), es, valid);
            && (w.workload.Some? ==> Consistent(w.workload.value.conds))
            && (!StoredReady(w) && StoredReady(Apply(w, e, valid)) ==>
                  && e.PassStore? && w.pass.PassPlanned? && AllUsable(w.pass.claims)
                  && w.pass.plan.Some? && w.pass.plan.value.phase.PlanReady?)
  {
    PlainRunKeeps(Init(), es, valid);
    var w := Run(Init(), es, valid);
    EventCopiesNothing(w, e, valid);
    CondsEarned(w, e, Apply(w, e, valid));
  }
}
