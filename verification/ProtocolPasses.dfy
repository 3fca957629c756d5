/** Passes in the middle of arbitrary runs: whatever other events lie between its calls, an
    error-free pass that has work lowers the measure, so a run holds only so many of them. */
module ProtocolPasses {
  import opened Api
  import opened Lifecycle
  import opened Protocol
  import opened ProtocolClaims
  import opened ProtocolSafety
  import opened ProtocolProgress

  // ---------------------------------------------------------------- waiting

  /** The wait has not ended before the end of the run. */
  predicate Awaits(s: Cluster, es: seq<Event>, n: string)
    decreases |es|
  {
    es == [] || (Waiting(s.store, n) && Awaits(Apply(s, es[0]), es[1..], n))
  }

  lemma TransitiveWinding(st: Store, st': Store, st'': Store, n: string)
    requires Winding(st, st', n) && Winding(st', st'', n)
    ensures Winding(st, st'', n)
  {
  }

  /** Over whole runs the measure never rises while the Workload waits. */
  lemma {:induction false} RunNeverRises(s: Cluster, es: seq<Event>, n: string)
    requires Inv(s) && TameRun(s, es) && Awaits(s, es, n) && !Creating(s.pipe, n)
    ensures Inv(Run(s, es)) && !Creating(Run(s, es).pipe, n)
    ensures Winding(s.store, Run(s, es).store, n) && Measure(Run(s, es).store, n) <= Measure(s.store, n)
    decreases |es|
  {
    if es != [] {
      var s1 := Apply(s, es[0]);
      MeasureNeverRises(s, es[0], n);
      EventKeeps(s, es[0]);
      RunNeverRises(s1, es[1..], n);
      TransitiveWinding(s.store, s1.store, Run(s, es).store, n);
    }
  }

  // ---------------------------------------------------------------- deletion passes

  /** There is something for a deletion pass to do: a claim to mark, or nothing left to wait for. */
  predicate HasWork(st: Store, n: string) {
    Waiting(st, n) && (Unmarked(st, n) != {} || Doomed(st, n) == {})
  }

  /** The pass still lists every claim to mark, and what it saw marked is marked. */
  predicate Listing(st: Store, p: Pipe, n: string) {
    p.Dispose? && p.n == n ==>
      && Unmarked(st, n) <= p.rem.Keys
      && forall name :: name in p.rem && name in Doomed(st, n) && p.rem[name].marked ==> st.claims[name].marked
  }

  lemma ListingWinds(st: Store, st': Store, p: Pipe, n: string)
    requires Listing(st, p, n) && Winding(st, st', n)
    ensures Listing(st', p, n)
  {
  }

  lemma ListingStarts(st: Store, w: Workload, n: string)
    ensures Listing(st, Dispose(n, w, ClaimsOf(st, n)), n)
  {
  }

  /** A claim dealt with is no longer to be marked. */
  lemma DisposedMarked(st: Store, n: string, w: Workload, rem: map<string, Claim>, name: string)
    requires StoreOk(st) && PipeOk(st, Dispose(n, w, rem)) && Listing(st, Dispose(n, w, rem), n) && name in rem
    ensures var a := DisposeClaim(st, n, name, rem[name]); a.ok ==> name !in Unmarked(a.store, n)
  {
  }

  lemma ListingStep(st: Store, n: string, w: Workload, rem: map<string, Claim>, name: string)
    requires StoreOk(st) && PipeOk(st, Dispose(n, w, rem)) && Listing(st, Dispose(n, w, rem), n) && name in rem
    ensures var a := DisposeClaim(st, n, name, rem[name]); a.ok ==> Listing(a.store, Dispose(n, w, rem - {name}), n)
  {
    DisposedMarked(st, n, w, rem, name);
    DisposeWinds(st, n, name, rem[name], n);
    ListingWinds(st, DisposeClaim(st, n, name, rem[name]).store, Dispose(n, w, rem), n);
  }

  lemma PipeLists(s: Cluster, choice: string, n: string)
    requires Inv(s) && Listing(s.store, s.pipe, n)
    ensures var t := PipeNext(s.store, s.pipe, choice); Listing(t.store, t.pipe, n)
  {
    var p := s.pipe;
    if p.Got? {
      ListingStarts(s.store, p.w, p.n);
    } else if p.Dispose? && p.n == n && choice in p.rem {
      ListingStep(s.store, n, p.w, p.rem, choice);
    }
  }

  lemma PipeElsewhere(s: Cluster, e: Event)
    requires !e.PipeStep?
    ensures var p := Apply(s, e).pipe; p == s.pipe || p.Idle? || p.Got?
  {
  }

  lemma ListingElsewhere(s: Cluster, s': Cluster, n: string)
    requires Listing(s.store, s.pipe, n) && Winding(s.store, s'.store, n)
    requires s'.pipe == s.pipe || s'.pipe.Idle? || s'.pipe.Got?
    ensures Listing(s'.store, s'.pipe, n)
  {
    ListingWinds(s.store, s'.store, s.pipe, n);
  }

  /** Every event keeps the listing of a pass under way. */
  lemma ListingKept(s: Cluster, e: Event, n: string)
    requires Inv(s) && Tame(s, e) && Waiting(s.store, n) && !Creating(s.pipe, n) && Listing(s.store, s.pipe, n)
    ensures Listing(Apply(s, e).store, Apply(s, e).pipe, n)
  {
    if e.PipeStep? {
      PipeLists(s, e.choice, n);
    } else {
      MeasureNeverRises(s, e, n);
      PipeElsewhere(s, e);
      ListingElsewhere(s, Apply(s, e), n);
    }
  }

  /** The pass is under way all along. */
  predicate Underway(s: Cluster, es: seq<Event>)
    decreases |es|
  {
    !s.pipe.Idle? && (es == [] || Underway(Apply(s, es[0]), es[1..]))
  }

  /** The event is the last call of an error-free deletion pass: all claims were dealt with and
      one is left to wait for, or the Workload is released. */
  predicate PassEnds(s: Cluster, e: Event, n: string) {
    && e.PipeStep? && !s.pipe.Idle? && s.pipe.n == n
    && ((s.pipe.Dispose? && s.pipe.rem == map[] && MustWait(ClaimsOf(s.store, n)))
        || (s.pipe.Release? && n in s.store.workloads && s.store.workloads[n].rv == s.pipe.w.rv))
  }

  /** A deletion pass of a Workload that waits stays one. */
  predicate Deleting(p: Pipe, n: string) {
    (p.Got? && p.n == n && p.w.marked && WORKLOAD_FINALIZER in p.w.finalizers) || (p.Dispose? && p.n == n)
        || (p.Release? && p.n == n)
  }

  lemma DeletingWaits(s: Cluster, n: string)
    requires Inv(s) && Deleting(s.pipe, n)
    ensures Waiting(s.store, n) && !Creating(s.pipe, n)
  {
    assert PipeOk(s.store, s.pipe);
  }

  lemma DeletingStays(s: Cluster, e: Event, n: string)
    requires Deleting(s.pipe, n) && !Apply(s, e).pipe.Idle?
    ensures Deleting(Apply(s, e).pipe, n)
  {
  }

  lemma {:induction false} PassRun(s: Cluster, es: seq<Event>, n: string)
    requires Inv(s) && TameRun(s, es) && Deleting(s.pipe, n) && Listing(s.store, s.pipe, n) && Underway(s, es)
    ensures var t := Run(s, es);
            Inv(t) && Deleting(t.pipe, n) && Listing(t.store, t.pipe, n) && Winding(s.store, t.store, n)
    decreases |es|
  {
    if es != [] {
      var s1 := Apply(s, es[0]);
      DeletingWaits(s, n);
      DeletingStays(s, es[0], n);
      ListingKept(s, es[0], n);
      MeasureNeverRises(s, es[0], n);
      EventKeeps(s, es[0]);
      PassRun(s1, es[1..], n);
      TransitiveWinding(s.store, s1.store, Run(s, es).store, n);
    }
  }

  /** The end of a pass that had work. */
  lemma EndFalls(st: Store, t: Cluster, e: Event, n: string)
    requires HasWork(st, n) && Inv(t) && Deleting(t.pipe, n) && Listing(t.store, t.pipe, n) && Winding(st, t.store, n)
        && PassEnds(t, e, n)
    ensures Measure(Apply(t, e).store, n) < Measure(st, n)
  {
    DeletingWaits(t, n);
    WindingFalls(st, t.store, n);
    if t.pipe.Dispose? {
      WaitsForDoomed(t.store, n);
      assert Apply(t, e).store == t.store;
    } else {
      ReleaseEnds(t, e, n);
    }
  }

  /** The count of claims to wait for is positive exactly when one is left. */
  lemma WaitsForDoomed(st: Store, n: string)
    ensures MustWait(ClaimsOf(st, n)) <==> Doomed(st, n) != {}
  {
    var claims := ClaimsOf(st, n);
    if name :| name in claims && EffectivePolicy(claims[name].spec).Delete? {
      assert name in Doomed(st, n);
    }
    if name :| name in Doomed(st, n) {
      assert name in claims;
    }
  }

  lemma ReleaseEnds(t: Cluster, e: Event, n: string)
    requires Inv(t) && t.pipe.Release? && PassEnds(t, e, n)
    ensures !Waiting(Apply(t, e).store, n)
  {
    assert PipeOk(t.store, t.pipe);
  }

  /** In any tame run: a deletion pass that starts with work and ends without an error lowers
      the measure, whatever events lie between its calls. */
  lemma DeletionPassFalls(s: Cluster, es: seq<Event>, e: Event, n: string)
    requires Inv(s) && s.pipe.Idle? && HasWork(s.store, n)
    requires var s1 := Apply(s, PipeGet(n)); TameRun(s1, es) && Underway(s1, es) && PassEnds(Run(s1, es), e, n)
    ensures Measure(Apply(Run(Apply(s, PipeGet(n)), es), e).store, n) < Measure(s.store, n)
  {
    var s1 := Apply(s, PipeGet(n));
    EventKeeps(s, PipeGet(n));
    PassRun(s1, es, n);
    EndFalls(s.store, Run(s1, es), e, n);
  }

  // ---------------------------------------------------------------- provisioner passes

  /** The claims that still owe the provisioner a pass: not yet marked, or with its finalizer. */
  function Owed(st: Store, n: string): set<string> {
    set name | name in Doomed(st, n) && (!st.claims[name].marked || HasFinalizer(st.claims[name]))
  }

  /** The provisioner's finalizer does not come back to a marked claim. */
  ghost predicate StaysOff(st: Store, st': Store, name: string) {
    name in st.claims && name in st'.claims && st.claims[name].marked && !HasFinalizer(st.claims[name]) ==>
      !HasFinalizer(st'.claims[name])
  }

  lemma UserStaysOff(st: Store, e: Event, name: string)
    ensures StaysOff(st, User(st, e), name)
  {
  }

  lemma PipeStaysOff(st: Store, p: Pipe, choice: string, name: string)
    requires PipeOk(st, p)
    ensures StaysOff(st, PipeNext(st, p, choice).store, name)
  {
  }

  lemma ProvStaysOff(s: Cluster, claim: string, r: ProvisionResult, h: HealthResult, d: bool, name: string)
    requires claim in s.prov && ProvOk(s, claim, s.prov[claim])
    ensures StaysOff(s.store, ProvNext(s, claim, s.prov[claim], r, h, d).store, name)
  {
    var p := s.prov[claim];
    ProvStores(s, claim, p, r, h, d);
    if claim == name { ProvStaysOffOwn(s, claim, p, r, h, d); }
  }

  lemma ProvStaysOffOwn(s: Cluster, claim: string, p: Prov, r: ProvisionResult, h: HealthResult, d: bool)
    requires ProvOk(s, claim, p)
    ensures StaysOff(s.store, ProvNext(s, claim, p, r, h, d).store, claim)
  {
  }

  lemma CollectStaysOff(st: Store, claim: string, name: string)
    ensures StaysOff(st, DeleteClaim(st, claim).store, name)
  {
  }

  lemma EventStaysOff(s: Cluster, e: Event, name: string)
    requires Inv(s)
    ensures StaysOff(s.store, Apply(s, e).store, name)
  {
    if e.PipeStep? {
      PipeStaysOff(s.store, s.pipe, e.choice, name);
    } else if e.ProvStep? {
      if e.claim in s.prov { ProvStaysOff(s, e.claim, e.provision, e.health, e.deprovisioned, name); }
    } else if e.Collect? {
      CollectStaysOff(s.store, e.claim, name);
    } else if !e.PipeGet? && !e.PipeAbort? && !e.ProvGet? && !e.ProvAbort? {
      UserStaysOff(s.store, e, name);
    }
  }

  lemma OwedShrinks(s: Cluster, e: Event, n: string)
    requires Inv(s) && Winding(s.store, Apply(s, e).store, n)
    ensures Owed(Apply(s, e).store, n) <= Owed(s.store, n)
  {
    forall name | name in Owed(Apply(s, e).store, n) ensures name in Owed(s.store, n) {
      EventStaysOff(s, e, name);
    }
  }

  /** The event is the last call of an error-free provisioner pass on a claim the Workload waits
      for: the call that takes the finalizer off, with a current resource version. */
  predicate DropAccepted(s: Cluster, e: Event, n: string) {
    && e.ProvStep? && e.claim in s.prov && s.prov[e.claim].Drop?
    && e.claim in Doomed(s.store, n) && s.store.claims[e.claim].rv == s.prov[e.claim].c.rv
  }

  /** No one else keeps the claim. */
  predicate LastFinalizer(c: Claim) {
    Without(c.finalizers, CLAIM_FINALIZER) == []
  }

  /** What the accepted call does to the claims. */
  lemma DropClaims(s: Cluster, e: Event, n: string)
    requires Inv(s) && DropAccepted(s, e, n)
    ensures var c, claims := s.store.claims[e.claim], Apply(s, e).store.claims;
            && c.marked && HasFinalizer(c)
            && (LastFinalizer(c) ==> claims == s.store.claims - {e.claim})
            && (!LastFinalizer(c) ==>
                  e.claim in claims && claims == s.store.claims[e.claim := claims[e.claim]]
                  && claims[e.claim].spec == c.spec && claims[e.claim].marked && !HasFinalizer(claims[e.claim]))
    ensures Apply(s, e).store.workloads == s.store.workloads
  {
    assert ProvOk(s, e.claim, s.prov[e.claim]);
  }

  lemma DropSets(s: Cluster, e: Event, n: string)
    requires Inv(s) && DropAccepted(s, e, n)
    ensures var st, st' := s.store, Apply(s, e).store;
            && e.claim in Owed(st, n) && Owed(st', n) == Owed(st, n) - {e.claim} && Unmarked(st', n) == Unmarked(st, n)
            && Doomed(st', n) == if LastFinalizer(st.claims[e.claim]) then Doomed(st, n) - {e.claim} else Doomed(st, n)
  {
    var st, st' := s.store, Apply(s, e).store;
    DropClaims(s, e, n);
    if LastFinalizer(st.claims[e.claim]) { GoneSets(st, st', e.claim, n); } else { OffSets(st, st', e.claim, n); }
  }

  lemma GoneSets(st: Store, st': Store, name: string, n: string)
    requires name in Doomed(st, n) && st.claims[name].marked && st'.claims == st.claims - {name}
    ensures Owed(st', n) == Owed(st, n) - {name} && Unmarked(st', n) == Unmarked(st, n)
    ensures Doomed(st', n) == Doomed(st, n) - {name}
  {
  }

  lemma OffSets(st: Store, st': Store, name: string, n: string)
    requires name in Doomed(st, n) && st.claims[name].marked
    requires name in st'.claims && st'.claims == st.claims[name := st'.claims[name]]
    requires st'.claims[name].spec == st.claims[name].spec && st'.claims[name].marked && !HasFinalizer(st'.claims[name])
    ensures Owed(st', n) == Owed(st, n) - {name} && Unmarked(st', n) == Unmarked(st, n)
    ensures Doomed(st', n) == Doomed(st, n)
  {
  }

  /** An accepted last call of a provisioner pass lowers the measure exactly when no other party
      keeps the claim; either way the provisioner is done with it. */
  lemma DropExactly(s: Cluster, e: Event, n: string)
    requires Inv(s) && Waiting(s.store, n) && DropAccepted(s, e, n)
    ensures var st, st' := s.store, Apply(s, e).store;
            && (Measure(st', n) < Measure(st, n) <==> LastFinalizer(st.claims[e.claim]))
            && (e.claim !in st'.claims <==> LastFinalizer(st.claims[e.claim]))
            && |Owed(st', n)| < |Owed(st, n)|
  {
    DropClaims(s, e, n);
    DropSets(s, e, n);
    Subset(Owed(Apply(s, e).store, n), Owed(s.store, n));
    Subset(Doomed(Apply(s, e).store, n), Doomed(s.store, n));
  }

  /** The pass on the claim is under way all along. */
  predicate Busy(s: Cluster, es: seq<Event>, claim: string)
    decreases |es|
  {
    claim in s.prov && (es == [] || Busy(Apply(s, es[0]), es[1..], claim))
  }

  /** In any tame run: a provisioner pass that reads a claim and takes off its last finalizer lowers
      the measure, whatever events lie between its calls. */
  lemma ProvisionerPassFalls(s: Cluster, es: seq<Event>, e: Event, claim: string, n: string)
    requires Inv(s) && Waiting(s.store, n) && !Creating(s.pipe, n) && claim !in s.prov && claim in s.store.claims
    requires var s1 := Apply(s, ProvGet(claim)); TameRun(s1, es) && Busy(s1, es, claim) && Awaits(s1, es, n)
    requires var t := Run(Apply(s, ProvGet(claim)), es);
             && Waiting(t.store, n) && DropAccepted(t, e, n) && e.claim == claim
             && LastFinalizer(t.store.claims[claim])
    ensures claim in Doomed(s.store, n)
    ensures Measure(Apply(Run(Apply(s, ProvGet(claim)), es), e).store, n) < Measure(s.store, n)
  {
    var s1 := Apply(s, ProvGet(claim));
    EventKeeps(s, ProvGet(claim));
    RunNeverRises(s1, es, n);
    DropExactly(Run(s1, es), e, n);
  }

  // ---------------------------------------------------------------- all of them

  predicate PassStarts(s: Cluster, e: Event, n: string) {
    e.PipeGet? && e.n == n && s.pipe.Idle? && n in s.store.workloads
  }

  /** The error-free passes with work that end in the run while the Workload waits. `open` says
      whether a deletion pass that started with work is under way. */
  function Worked(s: Cluster, es: seq<Event>, n: string, open: bool): nat
    decreases |es|
  {
    if es == [] || !Waiting(s.store, n) then 0
    else
      var s' := Apply(s, es[0]);
      var open' := if PassStarts(s, es[0], n) then HasWork(s.store, n) else open && !s'.pipe.Idle?;
      (if DropAccepted(s, es[0], n) || (open && PassEnds(s, es[0], n)) then 1 else 0) + Worked(s', es[1..], n, open')
  }

  /** How many such passes can still end. */
  function Bound(st: Store, n: string, open: bool): nat {
    if Doomed(st, n) == {} then 1
    else |Owed(st, n)| + if open || Unmarked(st, n) != {} then 2 else 1
  }

  lemma BoundWinds(st: Store, st': Store, n: string, open: bool)
    requires Winding(st, st', n) && Owed(st', n) <= Owed(st, n)
    ensures Bound(st', n, open) <= Bound(st, n, open)
    ensures Bound(st, n, false) <= Bound(st, n, open)
  {
    Subset(Owed(st', n), Owed(st, n));
    assert Unmarked(st', n) <= Unmarked(st, n) && Doomed(st', n) <= Doomed(st, n);
  }

  lemma DropPays(s: Cluster, e: Event, n: string, open: bool)
    requires Inv(s) && Waiting(s.store, n) && DropAccepted(s, e, n)
    ensures 1 + Bound(Apply(s, e).store, n, open) <= Bound(s.store, n, open)
  {
    DropSets(s, e, n);
    DropExactly(s, e, n);
  }

  /** The invariant of the count. */
  ghost predicate Counting(s: Cluster, n: string, open: bool) {
    Inv(s) && !Creating(s.pipe, n) && (open ==> Deleting(s.pipe, n) && Listing(s.store, s.pipe, n))
  }

  lemma StepCounts(s: Cluster, e: Event, n: string, open: bool)
    requires Counting(s, n, open) && Tame(s, e) && Waiting(s.store, n)
    ensures var s' := Apply(s, e);
            var open' := if PassStarts(s, e, n) then HasWork(s.store, n) else open && !s'.pipe.Idle?;
            && Counting(s', n, open') && Winding(s.store, s'.store, n)
  {
    MeasureNeverRises(s, e, n);
    EventKeeps(s, e);
    if open { ListingKept(s, e, n); }
    if open && !Apply(s, e).pipe.Idle? { DeletingStays(s, e, n); }
  }

  /** The gain of one event is covered by what the bound loses. */
  lemma StepPays(s: Cluster, e: Event, n: string, open: bool)
    requires Counting(s, n, open) && Tame(s, e) && Waiting(s.store, n) && Winding(s.store, Apply(s, e).store, n)
    ensures var s' := Apply(s, e);
            var open' := if PassStarts(s, e, n) then HasWork(s.store, n) else open && !s'.pipe.Idle?;
            var gain := if DropAccepted(s, e, n) || (open && PassEnds(s, e, n)) then 1 else 0;
            gain + (if Waiting(s'.store, n) then Bound(s'.store, n, open') else 0) <= Bound(s.store, n, open)
  {
    var s' := Apply(s, e);
    OwedShrinks(s, e, n);
    BoundWinds(s.store, s'.store, n, open);
    BoundWinds(s.store, s'.store, n, false);
    BoundWinds(s'.store, s'.store, n, open);
    if DropAccepted(s, e, n) {
      DropPays(s, e, n, open);
    } else if open && PassEnds(s, e, n) {
      EndPays(s, e, n);
    } else if PassStarts(s, e, n) {
      assert s'.store == s.store;
    }
  }

  lemma EndPays(s: Cluster, e: Event, n: string)
    requires Counting(s, n, true) && Waiting(s.store, n) && PassEnds(s, e, n)
    ensures var s' := Apply(s, e);
            s'.pipe.Idle? && 1 + (if Waiting(s'.store, n) then Bound(s'.store, n, false)
                else 0) <= Bound(s.store, n, true)
  {
    if s.pipe.Dispose? {
      WaitsForDoomed(s.store, n);
      assert Apply(s, e).store == s.store;
    } else {
      ReleaseEnds(s, e, n);
    }
  }

  lemma {:induction false} RunPays(s: Cluster, es: seq<Event>, n: string, open: bool)
    requires Counting(s, n, open) && TameRun(s, es) && Waiting(s.store, n)
    ensures Worked(s, es, n, open) <= Bound(s.store, n, open)
    decreases |es|
  {
    if es != [] {
      var s' := Apply(s, es[0]);
      var open' := if PassStarts(s, es[0], n) then HasWork(s.store, n) else open && !s'.pipe.Idle?;
      StepCounts(s, es[0], n, open);
      StepPays(s, es[0], n, open);
      if Waiting(s'.store, n) { RunPays(s', es[1..], n, open'); }
    }
  }

  /** Every tame run from a state in which the Workload waits and no old pass is still creating
      claims for it holds at most as many working passes as the measure says: at most one for
      each claim that owes the provisioner one, one for marking them, one for the release. */
  lemma PassesBounded(s: Cluster, es: seq<Event>, n: string)
    requires Inv(s) && TameRun(s, es) && Waiting(s.store, n) && !Creating(s.pipe, n)
    ensures Worked(s, es, n, false) <= |Owed(s.store, n)| + 2
    ensures Worked(s, es, n, false) <= Measure(s.store, n)
  {
    RunPays(s, es, n, false);
    Subset({}, Unmarked(s.store, n));
    Subset(Owed(s.store, n), Doomed(s.store, n));
  }

  // ---------------------------------------------------------------- what can hold it up

  /** All claims left are marked and kept by other parties only. */
  predicate HeldUp(st: Store, n: string) {
    Waiting(st, n) && Doomed(st, n) != {} && forall name :: name in Doomed(st, n) ==> ForeignOnly(st.claims[name])
  }

  predicate ForeignOnly(c: Claim) {
    c.marked && !HasFinalizer(c) && c.finalizers != []
  }

  /** While the Workload waits there is work for a deletion pass, or a marked claim with the
      provisioner's finalizer, exactly as long as not all claims left are kept by other parties only. */
  lemma WorkRemains(s: Cluster, n: string)
    requires Inv(s) && Waiting(s.store, n)
    ensures HasWork(s.store, n)
            || (exists name ::
                 name in Doomed(s.store, n) && s.store.claims[name].marked && HasFinalizer(s.store.claims[name]))
            <==> !HeldUp(s.store, n)
  {
    var st := s.store;
    if HeldUp(st, n) {
      assert Unmarked(st, n) == {};
    } else if Doomed(st, n) != {} && Unmarked(st, n) == {} {
      var name :| name in Doomed(st, n) && !ForeignOnly(st.claims[name]);
      assert name !in Unmarked(st, n) && ClaimOk(st, st.claims[name]);
    }
  }

  /** The claim stays, and stays one that the Workload waits for. */
  ghost predicate Stands(st: Store, st': Store, name: string) {
    name in st.claims && name in st'.claims && st'.claims[name].spec == st.claims[name].spec
  }

  lemma StandsDoomed(st: Store, st': Store, name: string, n: string)
    requires name in Doomed(st, n) && Stands(st, st', name)
    ensures name in Doomed(st', n)
  {
  }

  /** A claim that only other parties keep stays until one of them empties its finalizers. */
  lemma UserLeavesForeign(s: Cluster, e: Event, n: string, name: string)
    requires Waiting(s.store, n) && !LatePolicy(s, e)
    requires name in Doomed(s.store, n) && ForeignOnly(s.store.claims[name]) && e != ClaimFinalizers(name, [])
    ensures Stands(s.store, User(s.store, e), name)
  {
    if e.UserPolicy? || e.UserDeleteClaim? || e.ClaimFinalizers? {
      if e.claim == name { UserLeavesForeignOwn(s, e, n); }
    } else {
      UserLeavesClaims(s.store, e);
    }
  }

  lemma UserLeavesForeignOwn(s: Cluster, e: Event, n: string)
    requires e.UserPolicy? || e.UserDeleteClaim? || e.ClaimFinalizers?
    requires Waiting(s.store, n) && !LatePolicy(s, e)
    requires e.claim in Doomed(s.store, n) && ForeignOnly(s.store.claims[e.claim]) && e != ClaimFinalizers(e.claim, [])
    ensures Stands(s.store, User(s.store, e), e.claim)
  {
  }

  lemma UpsertLeavesForeign(
    st: Store, m: string, w: Workload, key: string, r: ResourceSpec, found: Option<Claim>, n: string, name: string)
    requires found.Some? ==> Snapshot(st, ClaimName(m, key), found.value) && found.value.spec.ref == m
    requires name in Doomed(st, n) && ForeignOnly(st.claims[name])
    ensures name in Doomed(UpsertClaim(st, m, w, key, r, found).store, n)
  {
  }

  lemma DisposeLeavesForeign(st: Store, m: string, claim: string, c: Claim, n: string, name: string)
    requires Snapshot(st, claim, c) && name in Doomed(st, n) && ForeignOnly(st.claims[name])
    ensures name in Doomed(DisposeClaim(st, m, claim, c).store, n)
  {
  }

  lemma PipeLeavesForeign(s: Cluster, choice: string, n: string, name: string)
    requires Inv(s) && Tame(s, PipeStep(choice))
    requires name in Doomed(s.store, n) && ForeignOnly(s.store.claims[name])
    ensures name in Doomed(PipeNext(s.store, s.pipe, choice).store, n)
  {
    var st, p := s.store, s.pipe;
    assert PipeOk(st, p);
    if p.Found? {
      if p.key in p.w.resources { UpsertLeavesForeign(st, p.n, p.w, p.key, p.w.resources[p.key], p.found, n, name); }
    } else if p.Dispose? {
      if choice in p.rem { DisposeLeavesForeign(st, p.n, choice, p.rem[choice], n, name); }
    }
  }

  lemma ProvLeavesForeign(s: Cluster, claim: string, r: ProvisionResult, h: HealthResult, d: bool, n: string,
      name: string)
    requires Inv(s) && claim in s.prov
    requires name in Doomed(s.store, n) && ForeignOnly(s.store.claims[name])
    ensures Stands(s.store, ProvNext(s, claim, s.prov[claim], r, h, d).store, name)
  {
    var p := s.prov[claim];
    assert ProvOk(s, claim, p);
    ProvStores(s, claim, p, r, h, d);
    if claim == name { ProvLeavesForeignOwn(s, claim, p, r, h, d); }
  }

  lemma ProvLeavesForeignOwn(s: Cluster, claim: string, p: Prov, r: ProvisionResult, h: HealthResult, d: bool)
    requires ProvOk(s, claim, p) && claim in s.store.claims && ForeignOnly(s.store.claims[claim])
    ensures var st' := ProvNext(s, claim, p, r, h, d).store;
            Stands(s.store, st', claim)
  {
  }

  lemma CollectLeavesForeign(st: Store, claim: string, n: string, name: string)
    requires name in Doomed(st, n) && ForeignOnly(st.claims[name])
    ensures Stands(st, DeleteClaim(st, claim).store, name)
  {
  }

  /** Reading and giving up changes nothing in the store. */
  predicate Reads(e: Event) {
    e.PipeGet? || e.PipeAbort? || e.ProvGet? || e.ProvAbort?
  }

  lemma ReadsOnly(s: Cluster, e: Event)
    requires Reads(e)
    ensures Apply(s, e).store == s.store
  {
  }

  lemma UserOnly(s: Cluster, e: Event)
    requires !Reads(e) && !e.PipeStep? && !e.ProvStep? && !e.Collect?
    ensures Apply(s, e).store == User(s.store, e)
  {
  }

  lemma OtherLeavesForeign(s: Cluster, e: Event, n: string, name: string)
    requires Inv(s) && Tame(s, e) && Waiting(s.store, n) && !e.PipeStep?
    requires name in Doomed(s.store, n) && ForeignOnly(s.store.claims[name]) && e != ClaimFinalizers(name, [])
    ensures Stands(s.store, Apply(s, e).store, name)
  {
    if Reads(e) {
      ReadsOnly(s, e);
    } else if e.ProvStep? {
      if e.claim in s.prov { ProvLeavesForeign(s, e.claim, e.provision, e.health, e.deprovisioned, n, name); }
    } else if e.Collect? {
      CollectLeavesForeign(s.store, e.claim, n, name);
    } else {
      UserOnly(s, e);
      UserLeavesForeign(s, e, n, name);
    }
  }

  lemma EventLeavesForeign(s: Cluster, e: Event, n: string, name: string)
    requires Inv(s) && Tame(s, e) && Waiting(s.store, n)
    requires name in Doomed(s.store, n) && ForeignOnly(s.store.claims[name]) && e != ClaimFinalizers(name, [])
    ensures name in Doomed(Apply(s, e).store, n)
  {
    if e.PipeStep? {
      PipeLeavesForeign(s, e.choice, n, name);
    } else {
      OtherLeavesForeign(s, e, n, name);
      StandsDoomed(s.store, Apply(s, e).store, name, n);
    }
  }

  lemma ForeignRelease(s: Cluster, name: string, n: string)
    requires Inv(s) && HeldUp(s.store, n) && name in Doomed(s.store, n)
    ensures Measure(Apply(s, ClaimFinalizers(name, [])).store, n) < Measure(s.store, n)
  {
    var e := ClaimFinalizers(name, []);
    assert ForeignOnly(s.store.claims[name]) && name !in Apply(s, e).store.claims;
    EventOnward(s, e, n);
    WindingFalls(s.store, Apply(s, e).store, n);
  }

  lemma ForeignHolds(s: Cluster, e: Event, n: string)
    requires Inv(s) && Tame(s, e) && HeldUp(s.store, n)
    requires forall name :: name in Doomed(s.store, n) ==> e != ClaimFinalizers(name, [])
    ensures Measure(Apply(s, e).store, n) >= Measure(s.store, n)
  {
    var st, st' := s.store, Apply(s, e).store;
    forall name | name in Doomed(st, n) ensures name in Doomed(st', n) {
      EventLeavesForeign(s, e, n, name);
    }
    MeasureRisesExactly(s, e, n);
    Subset(Doomed(st, n), Doomed(st', n));
    assert Unmarked(st, n) == {};
  }

  /** Once only other parties hold it up, deletion goes on exactly when one of them takes the last
      finalizer off a claim. */
  lemma HeldUpExactly(s: Cluster, e: Event, n: string)
    requires Inv(s) && Tame(s, e) && HeldUp(s.store, n)
    ensures Measure(Apply(s, e).store, n) < Measure(s.store, n) <==>
            exists name :: name in Doomed(s.store, n) && e == ClaimFinalizers(name, [])
  {
    if name :| name in Doomed(s.store, n) && e == ClaimFinalizers(name, []) {
      ForeignRelease(s, name, n);
    } else {
      ForeignHolds(s, e, n);
    }
  }
}
