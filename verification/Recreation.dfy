/** A Workload deleted and created again under the same name: exactly when what is left of the
    old one can give the new one an endpoint that was never published for it. */
module Recreation {
  import opened Api
  import opened Exposure

  // ---------------------------------------------------------------- leftovers

  /** A mirror patch that would set this endpoint on whatever Workload it meets. */
  predicate Sends(m: Mirror, valid: string -> bool) {
    m.MirPatch? && TopUrl(m.e, valid).Some? && m.w.endpoint != TopUrl(m.e, valid)
  }

  /** The Workload is created while an exposure of the previous one is stored or about to be
      created, or while the mirror is about to send an endpoint. */
  predicate Early(w: World, e: Event, valid: string -> bool) {
    e.UserCreate? && w.workload.None? &&
      (|| w.exposure.Some?
       || w.registrar.RegGot? || (w.registrar.RegSeen? && w.registrar.found.None?)
       || Sends(w.mirror, valid))
  }

  predicate Patient(w: World, es: seq<Event>, valid: string -> bool)
    decreases |es|
  {
    es == [] || (!Early(w, es[0], valid) && Patient(Apply(w, es[0], valid), es[1..], valid))
  }

  /** The stored endpoint was never published for the stored incarnation. */
  predicate Foreign(w: World) {
    w.workload.Some? && w.workload.value.endpoint.Some?
        && (w.workload.value.uid, w.workload.value.endpoint.value) !in w.published
  }

  // ---------------------------------------------------------------- one incarnation in play

  predicate Stamped(w: World, e: Expo) {
    e.ref < w.nextUid && (e.urls != [] ==> (e.ref, e.urls[0]) in w.published)
  }

  /** A registrar pass of an older incarnation has nothing left to patch. */
  predicate RegistrarSpent(w: World) {
    w.registrar.RegSeen? && w.registrar.found.Some? && w.exposure.None?
  }

  /** A mirror patch belongs to the last incarnation or sends no endpoint. */
  predicate MirrorTimely(w: World, valid: string -> bool) {
    w.mirror.MirPatch? ==>
        w.mirror.e.ref == w.mirror.w.uid && (w.mirror.e.ref + 1 == w.nextUid || !Sends(w.mirror, valid))
  }

  predicate PassTimely(w: World) {
    !w.pass.NoPass? ==>
      w.pass.w.rv < w.nextRv && (w.workload.Some? && w.workload.value.rv == w.pass.w.rv ==>
          w.workload.value == w.pass.w)
  }

  ghost predicate OneEpoch(w: World, valid: string -> bool) {
    && (w.workload.Some? ==> w.workload.value.uid + 1 == w.nextUid && w.workload.value.rv < w.nextRv)
    && !Foreign(w)
    && (forall p :: p in w.published ==> p.0 < w.nextUid)
    && (w.exposure.Some? ==> Stamped(w, w.exposure.value) && w.exposure.value.ref + 1 == w.nextUid)
    && (!w.registrar.NoReg? ==> w.registrar.w.uid + 1 == w.nextUid || RegistrarSpent(w))
    && (w.registrar.RegSeen? && w.registrar.found.Some? && w.exposure.Some? ==>
       w.registrar.found.value.ref + 1 == w.nextUid)
    && (!w.mirror.NoMir? ==> Stamped(w, w.mirror.e))
    && MirrorTimely(w, valid) && PassTimely(w)
  }

  lemma ReadPassKeepsEpoch(w: World, e: Event, valid: string -> bool)
    requires OneEpoch(w, valid) && ByPass(e) && !e.PassStore?
    ensures OneEpoch(PassNext(w, e), valid)
  {
  }

  lemma StoreKeepsEpoch(w: World, e: Event, valid: string -> bool)
    requires OneEpoch(w, valid) && e.PassStore?
    ensures OneEpoch(PassNext(w, e), valid)
  {
  }

  lemma RegistrarKeepsEpoch(w: World, e: Event, valid: string -> bool)
    requires OneEpoch(w, valid) && ByRegistrar(e)
    ensures OneEpoch(RegisterNext(w, e), valid)
  {
  }

  lemma RuntimeKeepsEpoch(w: World, e: Event, valid: string -> bool)
    requires OneEpoch(w, valid) && ByRuntime(e)
    ensures OneEpoch(RuntimeNext(w, e), valid)
  {
  }

  lemma MirrorKeepsEpoch(w: World, e: Event, valid: string -> bool)
    requires OneEpoch(w, valid) && ByMirror(e) && !e.MirWrite?
    ensures OneEpoch(MirrorNext(w, e, valid), valid)
  {
  }

  lemma PatchKeepsEpoch(w: World, t: Target, valid: string -> bool)
    requires OneEpoch(w, valid) && w.workload.Some? && t.uid == w.workload.value.uid
    requires t.endpoint.Some? ==> (t.uid, t.endpoint.value) in w.published
    ensures OneEpoch(Put(w, t).(mirror := NoMir), valid)
  {
  }

  lemma CopyKeepsEpoch(w: World, now: nat, valid: string -> bool)
    requires OneEpoch(w, valid)
    ensures OneEpoch(MirrorNext(w, MirWrite(now), valid), valid)
  {
    if w.mirror.MirPatch? && w.workload.Some? {
      PatchKeepsEpoch(w, PatchStatus(w.workload.value, w.mirror.w, w.mirror.e, now, valid), valid);
    }
  }

  lemma UserKeepsEpoch(w: World, e: Event, valid: string -> bool)
    requires OneEpoch(w, valid) && !Early(w, e, valid)
    ensures OneEpoch(User(w, e), valid)
  {
  }

  lemma EventKeepsEpoch(w: World, e: Event, valid: string -> bool)
    requires OneEpoch(w, valid) && !Early(w, e, valid)
    ensures OneEpoch(Apply(w, e, valid), valid)
  {
    if ByRegistrar(e) {
      RegistrarKeepsEpoch(w, e, valid);
    } else if ByRuntime(e) {
      RuntimeKeepsEpoch(w, e, valid);
    } else if e.MirWrite? {
      CopyKeepsEpoch(w, e.now, valid);
    } else if ByMirror(e) {
      MirrorKeepsEpoch(w, e, valid);
    } else if e.PassStore? {
      StoreKeepsEpoch(w, e, valid);
    } else if ByPass(e) {
      ReadPassKeepsEpoch(w, e, valid);
    } else {
      UserKeepsEpoch(w, e, valid);
    }
  }

  lemma {:induction false} RunKeepsEpoch(w: World, es: seq<Event>, valid: string -> bool)
    requires OneEpoch(w, valid) && Patient(w, es, valid)
    ensures OneEpoch(Run(w, es, valid), valid)
    decreases |es|
  {
    if es != [] {
      EventKeepsEpoch(w, es[0], valid);
      RunKeepsEpoch(Apply(w, es[0], valid), es[1..], valid);
    }
  }

  /** In patient runs the endpoint was published for this very incarnation. */
  lemma EndpointIsOwn(es: seq<Event>, valid: string -> bool)
    requires Patient(Init(), es, valid)
    ensures !Foreign(Run(Init(), es, valid))
  {
    RunKeepsEpoch(Init(), es, valid);
  }

  // ---------------------------------------------------------------- what goes wrong otherwise

  lemma RunCons(w: World, e: Event, es: seq<Event>, valid: string -> bool)
    ensures Run(w, [e] + es, valid) == Run(Apply(w, e, valid), es, valid)
    ensures Patient(w, [e] + es, valid) <==> !Early(w, e, valid) && Patient(Apply(w, e, valid), es, valid)
  {
    assert ([e] + es)[1..] == es;
  }

  lemma {:induction false} RunAppend(w: World, es: seq<Event>, fs: seq<Event>, valid: string -> bool)
    ensures Run(w, es + fs, valid) == Run(Run(w, es, valid), fs, valid)
    ensures Patient(w, es, valid) && Patient(Run(w, es, valid), fs, valid) ==> Patient(w, es + fs, valid)
    decreases |es|
  {
    if es == [] {
      assert es + fs == fs;
    } else {
      assert (es + fs)[1..] == es[1..] + fs;
      RunAppend(Apply(w, es[0], valid), es[1..], fs, valid);
    }
  }

  /** Patient events that lead from one state to another. */
  predicate Leads(w: World, es: seq<Event>, valid: string -> bool, w': World) {
    Patient(w, es, valid) && Run(w, es, valid) == w'
  }

  /** All passes give up. */
  lemma Quiet(w: World, valid: string -> bool) returns (es: seq<Event>)
    ensures Leads(w, es, valid, w.(registrar := NoReg, runtime := NoRun, mirror := NoMir))
  {
    var w1 := w.(registrar := NoReg);
    var w2 := w1.(runtime := NoRun);
    RunCons(w2, MirAbort, [], valid);
    RunCons(w1, RunAbort, [MirAbort], valid);
    RunCons(w, RegAbort, [RunAbort] + [MirAbort], valid);
    es := [RegAbort] + ([RunAbort] + [MirAbort]);
  }

  /** The runtime publishes a URL in the old exposure. */
  lemma RuntimePublishes(w: World, u: string, valid: string -> bool) returns (es: seq<Event>)
    requires w.exposure.Some? && w.runtime.NoRun?
    ensures var e := w.exposure.value;
            Leads(w, es, valid, w.(exposure := Some(e.(urls := [u], conds := [], rv := w.nextRv)),
                nextRv := w.nextRv + 1,
                                   published := w.published + {(e.ref, u)}))
  {
    RunCons(w.(runtime := RunGot(w.exposure.value)), RunWrite([u], []), [], valid);
    RunCons(w, RunGet, [RunWrite([u], [])], valid);
    es := [RunGet] + [RunWrite([u], [])];
  }

  /** The registrar renews the spec of an exposure it finds and leaves its status. */
  lemma RegistrarRenews(w: World, valid: string -> bool) returns (es: seq<Event>)
    requires w.workload.Some? && !w.workload.value.marked && w.exposure.Some? && w.registrar.NoReg?
        && w.exposure.value.ref != w.workload.value.uid
    ensures var e, t := w.exposure.value, w.workload.value;
            Leads(w, es, valid, w.(exposure := Some(e.(ref := t.uid, generation := t.generation, klass := "",
                rv := w.nextRv)), nextRv := w.nextRv + 1))
  {
    var t := w.workload.value;
    var w1 := w.(registrar := RegGot(t, ""));
    var w2 := w.(registrar := RegSeen(t, "", w.exposure));
    RunCons(w2, RegWrite, [], valid);
    RunCons(w1, RegSee, [RegWrite], valid);
    RunCons(w, RegGet(""), [RegSee] + [RegWrite], valid);
    es := [RegGet("")] + ([RegSee] + [RegWrite]);
  }

  /** The mirror copies the URL. */
  lemma MirrorCopies(w: World, valid: string -> bool) returns (es: seq<Event>)
    requires w.workload.Some? && w.exposure.Some? && w.mirror.NoMir? && w.workload.value.endpoint.None?
    requires w.exposure.value.ref == w.workload.value.uid && w.exposure.value.generation == w.workload.value.generation
    requires TopUrl(w.exposure.value, valid).Some?
    ensures Patient(w, es, valid)
    ensures var w' := Run(w, es, valid);
            && w'.workload.Some? && w'.workload.value.uid == w.workload.value.uid && w'.published == w.published
            && w'.workload.value.endpoint == Some(w.exposure.value.urls[0])
  {
    var w1 := w.(mirror := MirGot(w.exposure.value));
    var w2 := w.(mirror := MirPatch(w.exposure.value, w.workload.value));
    RunCons(w2, MirWrite(0), [], valid);
    RunCons(w1, MirRead, [MirWrite(0)], valid);
    RunCons(w, MirGet, [MirRead] + [MirWrite(0)], valid);
    es := [MirGet] + ([MirRead] + [MirWrite(0)]);
  }

  /** An exposure of another incarnation next to a new Workload. */
  predicate Stale(w: World) {
    && w.workload.Some? && !w.workload.value.marked && w.workload.value.endpoint.None?
    && w.exposure.Some? && w.exposure.value.ref != w.workload.value.uid
  }

  ghost predicate ForeignBy(w: World, es: seq<Event>, valid: string -> bool) {
    Patient(w, es, valid) && Foreign(Run(w, es, valid))
  }

  /** The old exposure, and whatever the runtime still publishes in it, ends at the new Workload. */
  lemma StaleAdopted(w: World, u: string, valid: string -> bool) returns (es: seq<Event>)
    requires Stale(w) && valid(u) && (w.workload.value.uid, u) !in w.published
    ensures ForeignBy(w, es, valid)
  {
    var a := Quiet(w, valid);
    var w1 := Run(w, a, valid);
    var b := RuntimePublishes(w1, u, valid);
    var w2 := Run(w1, b, valid);
    var c := RegistrarRenews(w2, valid);
    var w3 := Run(w2, c, valid);
    var d := MirrorCopies(w3, valid);
    RunAppend(w2, c, d, valid);
    RunAppend(w1, b, c + d, valid);
    RunAppend(w, a, b + (c + d), valid);
    es := a + (b + (c + d));
  }

  /** A registrar pass that saw no exposure creates one for the incarnation it read. */
  lemma LateRegistration(w: World, valid: string -> bool) returns (es: seq<Event>)
    requires w.exposure.None? && (w.registrar.RegGot? || (w.registrar.RegSeen? && w.registrar.found.None?))
    ensures Patient(w, es, valid)
    ensures var w' := Run(w, es, valid);
            && w'.workload == w.workload && w'.published == w.published && w'.nextUid == w.nextUid
            && w'.exposure.Some? && w'.exposure.value.ref == w.registrar.w.uid
            && w'.exposure.value.generation == w.registrar.w.generation && w'.mirror == w.mirror
               && w'.runtime == w.runtime
  {
    if w.registrar.RegSeen? {
      es := [RegWrite];
      RunCons(w, RegWrite, [], valid);
      assert [RegWrite] + [] == [RegWrite];
    } else {
      RunCons(w.(registrar := RegSeen(w.registrar.w, w.registrar.klass, None)), RegWrite, [], valid);
      RunCons(w, RegSee, [RegWrite], valid);
      es := [RegSee] + [RegWrite];
    }
  }

  lemma EarlyAdopts(w: World, u: string, valid: string -> bool) returns (es: seq<Event>)
    requires OneEpoch(w, valid) && Early(w, UserCreate, valid) && valid(u)
    ensures ForeignBy(Apply(w, UserCreate, valid), es, valid)
  {
    var w1 := Apply(w, UserCreate, valid);
    if w.exposure.Some? {
      es := StaleAdopted(w1, u, valid);
    } else if Sends(w.mirror, valid) {
      es := [MirWrite(0)];
      RunCons(w1, MirWrite(0), [], valid);
      assert [MirWrite(0)] + [] == [MirWrite(0)];
    } else {
      var a := LateRegistration(w1, valid);
      var b := StaleAdopted(Run(w1, a, valid), u, valid);
      RunAppend(w1, a, b, valid);
      es := a + b;
    }
  }

  /** In every state of a patient run, whatever the event: it is an early recreation exactly when
      some continuation without another one stores an endpoint that was never published for the
      stored incarnation. */
  lemma EarlyExactly(w: World, e: Event, u: string, valid: string -> bool)
    requires OneEpoch(w, valid) && valid(u)
    ensures Early(w, e, valid) <==> exists es :: ForeignBy(Apply(w, e, valid), es, valid)
  {
    if Early(w, e, valid) {
      var es := EarlyAdopts(w, u, valid);
      assert ForeignBy(Apply(w, e, valid), es, valid);
    } else {
      EventKeepsEpoch(w, e, valid);
      forall es | Patient(Apply(w, e, valid), es, valid)
        ensures !Foreign(Run(Apply(w, e, valid), es, valid))
      {
        RunKeepsEpoch(Apply(w, e, valid), es, valid);
      }
    }
  }

  /** A registered Workload without finalizer is deleted and created again at once. */
  lemma RecreatedAtOnce(w: World, u: string, valid: string -> bool) returns (es: seq<Event>)
    requires w.workload.Some? && !w.workload.value.finalizer && w.exposure.Some? && w.exposure.value.ref < w.nextUid
    requires valid(u) && (w.nextUid, u) !in w.published
    ensures Foreign(Run(w, es, valid))
  {
    var w1 := Apply(w, UserDelete, valid);
    es := StaleAdopted(Apply(w1, UserCreate, valid), u, valid);
    RunCons(w1, UserCreate, es, valid);
    RunCons(w, UserDelete, [UserCreate] + es, valid);
    es := [UserDelete] + ([UserCreate] + es);
  }

  /** It happens: a Workload is registered, deleted and created again before its exposure is
      collected. */
  lemma EarlyReachable(u: string, valid: string -> bool) returns (es: seq<Event>)
    requires valid(u)
    ensures Foreign(Run(Init(), es, valid))
  {
    var w1 := Apply(Init(), UserCreate, valid);
    var w2 := Apply(w1, RegGet(""), valid);
    var a := LateRegistration(w2, valid);
    var b := RecreatedAtOnce(Run(w2, a, valid), u, valid);
    RunAppend(w2, a, b, valid);
    RunCons(w1, RegGet(""), a + b, valid);
    RunCons(Init(), UserCreate, [RegGet("")] + (a + b), valid);
    es := [UserCreate] + ([RegGet("")] + (a + b));
  }

  // ---------------------------------------------------------------- an edit in between

  lemma EditBetween(w: World, u: string, valid: string -> bool) returns (es: seq<Event>)
    requires w.workload.Some? && w.exposure.Some? && w.mirror.NoMir? && w.workload.value.endpoint.None?
    requires w.exposure.value.ref == w.workload.value.uid && w.exposure.value.generation == w.workload.value.generation
    requires TopUrl(w.exposure.value, valid) == Some(u)
    ensures WritesLate(Run(w, es, valid), u, valid)
  {
    var w1 := w.(mirror := MirGot(w.exposure.value));
    var w2 := w.(mirror := MirPatch(w.exposure.value, w.workload.value));
    RunCons(w2, UserEdit, [], valid);
    RunCons(w1, MirRead, [UserEdit], valid);
    RunCons(w, MirGet, [MirRead] + [UserEdit], valid);
    es := [MirGet] + ([MirRead] + [UserEdit]);
  }

  /** The mirror is about to store the endpoint of an older generation. */
  predicate WritesLate(w: World, u: string, valid: string -> bool) {
    && w.mirror.MirPatch?
    && var w' := Apply(w, MirWrite(0), valid);
       && w'.workload.Some? && w'.workload.value.endpoint == Some(u) && w'.workload.value.uid == w.mirror.e.ref
       && w.mirror.e.generation < w'.workload.value.generation
  }

  /** It happens: the Workload is edited between the mirror's read and its patch. */
  lemma LateWriteReachable(u: string, valid: string -> bool) returns (es: seq<Event>)
    requires valid(u)
    ensures WritesLate(Run(Init(), es, valid), u, valid)
  {
    var w1 := Apply(Init(), UserCreate, valid);
    var w2 := Apply(w1, RegGet(""), valid);
    var a := LateRegistration(w2, valid);
    var w3 := Run(w2, a, valid);
    var b := RuntimePublishes(w3, u, valid);
    var c := EditBetween(Run(w3, b, valid), u, valid);
    RunAppend(w3, b, c, valid);
    RunAppend(w2, a, b + c, valid);
    RunCons(w1, RegGet(""), a + (b + c), valid);
    RunCons(Init(), UserCreate, [RegGet("")] + (a + (b + c)), valid);
    es := [UserCreate] + ([RegGet("")] + (a + (b + c)));
  }
}
