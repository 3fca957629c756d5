/** The claim manager: one claim per resource key of a Workload, and the aggregate of the
    claims' statuses. */
module Claims {
  import opened Api
  import opened Protocol
  import opened ProtocolClaims
  import ProtocolNames

  // ---------------------------------------------------------------- aggregation

  datatype Summary = Summary(key: string, phase: Phase, reason: string, message: string, available: bool)

  datatype Aggregation = Aggregation(ready: bool, reason: string, message: string, claims: seq<Summary>)

  function Summarize(c: Claim): Summary {
    var phase := if c.status.phase.Unset? then Pending else c.status.phase;
    Summary(c.spec.key, phase, c.status.reason, c.status.message, c.status.available)
  }

  predicate Usable(c: Claim) {
    c.status.phase.Bound? && c.status.available
  }

  predicate AllUsable(cs: seq<Claim>) {
    forall c :: c in cs ==> Usable(c)
  }

  predicate AnyFailed(cs: seq<Claim>) {
    exists c :: c in cs && c.status.phase.Failed?
  }

  function Reason(cs: seq<Claim>): string {
    if AnyFailed(cs) then "ClaimFailed" else if AllUsable(cs) then "Succeeded" else "ClaimPending"
  }

  function Message(cs: seq<Claim>): string {
    if cs == [] then "No resource dependencies"
    else if AnyFailed(cs) then "One or more resource claims have failed"
    else if AllUsable(cs) then "All resource claims are ready"
    else "Resource claims are being provisioned"
  }

  function Count(cs: seq<Claim>, p: Claim -> bool): (n: nat)
    ensures n <= |cs|
  {
    if cs == [] then 0 else Count(cs[..|cs| - 1], p) + if p(cs[|cs| - 1]) then 1 else 0
  }

  lemma {:induction false} CountAll(cs: seq<Claim>, p: Claim -> bool)
    ensures Count(cs, p) == |cs| <==> forall c :: c in cs ==> p(c)
    ensures Count(cs, p) > 0 <==> exists c :: c in cs && p(c)
  {
    if cs != [] {
      var init, last := cs[..|cs| - 1], cs[|cs| - 1];
      CountAll(init, p);
      assert cs == init + [last];
    }
  }

  method CountPhases(cs: seq<Claim>) returns (summaries: seq<Summary>, bound: nat, failed: nat)
    ensures |summaries| == |cs| && forall i :: 0 <= i < |cs| ==> summaries[i] == Summarize(cs[i])
    ensures bound == |cs| <==> AllUsable(cs)
    ensures failed > 0 <==> AnyFailed(cs)
  {
    summaries, bound, failed := [], 0, 0;
    ghost var isBound := (c: Claim) => Usable(c);
    ghost var isFailed := (c: Claim) => c.status.phase.Failed?;
    for i := 0 to |cs|
      invariant |summaries| == i && forall j :: 0 <= j < i ==> summaries[j] == Summarize(cs[j])
      invariant bound == Count(cs[..i], isBound) && failed == Count(cs[..i], isFailed)
    {
      assert cs[..i + 1][..i] == cs[..i];
      var phase := cs[i].status.phase;
      if phase == Unset { phase := Pending; }
      summaries := summaries + [Summary(cs[i].spec.key, phase, cs[i].status.reason, cs[i].status.message,
          cs[i].status.available)];
      match cs[i].status.phase {
        case Bound => if cs[i].status.available { bound := bound + 1; }
        case Failed => failed := failed + 1;
        case _ =>
      }
    }
    assert cs[..|cs|] == cs;
    CountAll(cs, isBound);
    CountAll(cs, isFailed);
  }

  /** The aggregate is ready exactly when every claim is Bound with outputs; a failed claim
      is reported before a pending one. */
  method AggregateStatus(cs: seq<Claim>) returns (agg: Aggregation)
    ensures agg.ready <==> AllUsable(cs)
    ensures agg.reason == Reason(cs) && agg.message == Message(cs)
    ensures agg.ready <==> forall c :: c in cs ==> c.status.phase == Bound && c.status.available
    ensures agg.reason == "ClaimFailed" <==> exists c :: c in cs && c.status.phase == Failed
    ensures agg.reason == "Succeeded" <==> agg.ready
    ensures !agg.ready && agg.reason != "ClaimFailed" ==> agg.reason == "ClaimPending"
    ensures |agg.claims| == |cs| && forall i :: 0 <= i < |cs| ==> agg.claims[i] == Summarize(cs[i])
    ensures forall i :: 0 <= i < |cs| ==>
              && agg.claims[i].key == cs[i].spec.key && agg.claims[i].available == cs[i].status.available
              && agg.claims[i].reason == cs[i].status.reason && agg.claims[i].message == cs[i].status.message
              && agg.claims[i].phase != Unset
              && (cs[i].status.phase != Unset ==> agg.claims[i].phase == cs[i].status.phase)
              && (cs[i].status.phase == Unset ==> agg.claims[i].phase == Pending)
  {
    if |cs| == 0 {
      return Aggregation(true, "Succeeded", "No resource dependencies", []);
    }
    var summaries, bound, failed := CountPhases(cs);
    if failed > 0 {
      agg := Aggregation(false, "ClaimFailed", "One or more resource claims have failed", summaries);
    } else if bound == |cs| {
      agg := Aggregation(true, "Succeeded", "All resource claims are ready", summaries);
    } else {
      agg := Aggregation(false, "ClaimPending", "Resource claims are being provisioned", summaries);
    }
  }

  /** The verdict does not depend on the order in which the claims are listed. */
  lemma AggregateOrder(cs: seq<Claim>, ds: seq<Claim>)
    requires multiset(cs) == multiset(ds)
    ensures AllUsable(cs) <==> AllUsable(ds)
    ensures AnyFailed(cs) <==> AnyFailed(ds)
  {
    forall c
      ensures c in cs <==> c in ds
    {
      assert c in multiset(cs) <==> c in multiset(ds);
    }
  }

  // ---------------------------------------------------------------- one claim per key

  /** A claim's name is made of its reference and key. */
  ghost predicate Named(st: Store) {
    forall name :: name in st.claims ==> name == ClaimName(st.claims[name].spec.ref, st.claims[name].spec.key)
  }

  /** The API server keeps no marked object without finalizers. */
  ghost predicate Lasting(st: Store) {
    forall name :: name in st.claims && st.claims[name].marked ==> st.claims[name].finalizers != []
  }

  /** Both hold in every reachable store, so a key never has two claims. */
  lemma ReachableStore(strategies: set<string>, es: seq<Event>, n: string, key: string)
    ensures var st := Run(Init(strategies), es).store;
            Named(st) && Lasting(st) && Holders(st, n, key) <= {ClaimName(n, key)}
  {
    ProtocolNames.ReachableNames(strategies, es);
    CoreReachable(strategies, es);
    var st := Run(Init(strategies), es).store;
    forall name | name in st.claims
      ensures name == ClaimName(st.claims[name].spec.ref, st.claims[name].spec.key)
      ensures st.claims[name].marked ==> st.claims[name].finalizers != []
    {
      assert ClaimOk(st, st.claims[name]);
      assert ProtocolNames.NamedIn(name, st.claims[name].spec, ProtocolNames.AllDeclared(es));
    }
  }

  /** The claim is for this resource: everything is as declared but the contents of the parameters,
      of which only the presence counts, and the deprovision policy. */
  predicate Agrees(spec: ClaimSpec, n: string, key: string, r: ResourceSpec) {
    && spec.ref == n && spec.key == key && spec.typ == r.typ && spec.klass == r.klass
    && spec.id == None && (spec.params != None <==> r.params != None)
  }

  /** The claim of a resource key exists and agrees with the resource. */
  predicate Ensured(st: Store, n: string, w: Workload, key: string)
    requires key in w.resources
  {
    ClaimName(n, key) in st.claims && Agrees(st.claims[ClaimName(n, key)].spec, n, key, w.resources[key])
  }

  /** What an upsert does to a claim that is there: one that agrees is left untouched, any other gets
      the spec of the resource, without a policy, and keeps everything else. */
  ghost predicate Updated(before: Claim, after: Claim, n: string, key: string, r: ResourceSpec) {
    if Agrees(before.spec, n, key, r) then after == before
    else
      && after.spec == ClaimSpec(n, key, r.typ, r.klass, None, r.params, None)
      && after.uid == before.uid && after.status == before.status && after.marked == before.marked
      && after.finalizers == before.finalizers && after.owners == before.owners
  }

  /** And one that is not there is created with the Workload as its owner. */
  ghost predicate Upserted(before: Store, after: Store, n: string, w: Workload, key: string)
    requires key in w.resources
  {
    var name, r := ClaimName(n, key), w.resources[key];
    && name in after.claims
    && (name in before.claims ==> Updated(before.claims[name], after.claims[name], n, key, r))
    && (name !in before.claims ==>
          && after.claims[name].spec == ClaimSpec(n, key, r.typ, r.klass, None, r.params, None)
          && after.claims[name].owners == [OwnerRef("Workload", n, w.uid)])
  }

  /** The names of all claims that refer to a Workload and a key. */
  function Holders(st: Store, n: string, key: string): set<string> {
    set name | name in st.claims && st.claims[name].spec.ref == n && st.claims[name].spec.key == key
  }

  predicate Mine(n: string, w: Workload, name: string) {
    exists key :: key in w.resources && name == ClaimName(n, key)
  }

  predicate Alike(a: Store, b: Store, name: string) {
    && (name in a.claims <==> name in b.claims)
    && (name in a.claims && name in b.claims ==> a.claims[name] == b.claims[name])
  }

  /** The pass without interference; the interleaved one is part of the protocol. */
  class ClaimManager {
    var store: Store

    constructor (initial: Store)
      ensures store == initial
    {
      store := initial;
    }

    method Upsert(n: string, w: Workload, key: string)
      requires key in w.resources && Lasting(store)
      modifies this
      ensures Ensured(store, n, w, key) && Upserted(old(store), store, n, w, key) && Lasting(store)
      ensures old(Named(store)) ==> Named(store)
      ensures UpsertClaim(old(store), n, w, key, w.resources[key], Existing(old(store), n, key)) == Answer(true, store)
      ensures forall name :: name != ClaimName(n, key) ==> Alike(store, old(store), name)
      ensures store.workloads == old(store.workloads)
    {
      var name := ClaimName(n, key);
      var desired := DesiredSpec(n, key, w.resources[key]);
      if name !in store.claims {
        store := CreateClaim(store, name, desired, [OwnerRef("Workload", n, w.uid)]).store;
      } else {
        var c := store.claims[name];
        if !SpecEqual(c.spec, desired) {
          store := UpdateClaim(store, name, c.(spec := desired)).store;
        }
      }
    }

    /** Visits the resource keys in whatever order the map yields them: afterwards every key
        has exactly one claim, and claims of other names are untouched. */
    method EnsureClaims(n: string, w: Workload) returns (ghost choices: seq<string>)
      requires Lasting(store)
      modifies this
      ensures Lasting(store)
      ensures old(Named(store)) ==> Named(store)
      ensures forall key :: key in w.resources ==> Ensured(store, n, w, key) && Upserted(old(store), store, n, w, key)
      ensures old(Named(store)) ==> forall key :: key in w.resources ==> Holders(store, n, key) == {ClaimName(n, key)}
      ensures forall name :: !Mine(n, w, name) ==> Alike(store, old(store), name)
      ensures store.workloads == old(store.workloads)
      ensures PipeRun(PipeTurn(old(store), Pipe.Upsert(n, w, w.resources.Keys)), choices) ==
          PipeTurn(store, Pipe.Upsert(n, w, {}))
    {
      var todo := w.resources.Keys;
      choices := [];
      while todo != {}
        invariant PipeRun(PipeTurn(old(store), Pipe.Upsert(n, w, w.resources.Keys)), choices) ==
            PipeTurn(store, Pipe.Upsert(n, w, todo))
        invariant Lasting(store)
        invariant old(Named(store)) ==> Named(store)
        invariant todo <= w.resources.Keys
        invariant forall key :: key in w.resources && key !in todo ==>
                    Ensured(store, n, w, key) && Upserted(old(store), store, n, w, key)
        invariant forall key :: key in todo ==> Alike(store, old(store), ClaimName(n, key))
        invariant forall name :: !Mine(n, w, name) ==> Alike(store, old(store), name)
        invariant store.workloads == old(store.workloads)
      {
        var key :| key in todo;
        KeysApart(n, w.resources.Keys, key);
        ghost var before := store;
        Upsert(n, w, key);
        forall other | other in w.resources && other !in todo
          ensures Ensured(store, n, w, other) && Upserted(old(store), store, n, w, other)
        {
          assert Alike(store, before, ClaimName(n, other));
        }
        forall other | other in todo && other != key
          ensures Alike(store, old(store), ClaimName(n, other))
        {
          assert Alike(store, before, ClaimName(n, other)) && Alike(before, old(store), ClaimName(n, other));
        }
        assert Alike(before, old(store), ClaimName(n, key));
        forall name | !Mine(n, w, name)
          ensures Alike(store, old(store), name)
        {
          assert Alike(store, before, name) && Alike(before, old(store), name);
        }
        PipeUpserts(PipeTurn(old(store), Pipe.Upsert(n, w, w.resources.Keys)), choices, before, n, w, todo, key);
        choices := choices + [key] + [""];
        todo := todo - {key};
      }
    }
  }

  function Existing(st: Store, n: string, key: string): Option<Claim> {
    if ClaimName(n, key) in st.claims then Some(st.claims[ClaimName(n, key)]) else None
  }

  /** Reading a claim and writing it are two steps of the pipeline. */
  lemma PipeUpserts(t: PipeTurn, choices: seq<string>, st: Store, n: string, w: Workload, todo: set<string>,
      key: string)
    requires PipeRun(t, choices) == PipeTurn(st, Pipe.Upsert(n, w, todo)) && key in todo && todo <= w.resources.Keys
    ensures var a := UpsertClaim(st, n, w, key, w.resources[key], Existing(st, n, key));
            a.ok ==> PipeRun(t, choices + [key] + [""]) == PipeTurn(a.store, Pipe.Upsert(n, w, todo - {key}))
  {
    var one, two := choices + [key], choices + [key] + [""];
    assert one[..|one| - 1] == choices && two[..|two| - 1] == one;
    assert PipeRun(t, one) == PipeTurn(st, Pipe.Found(n, w, todo - {key}, key, Existing(st, n, key)));
  }

  // ---------------------------------------------------------------- names

  lemma KeysApart(n: string, keys: set<string>, key: string)
    ensures forall other :: other in keys && other != key ==> ClaimName(n, other) != ClaimName(n, key)
  {
    forall other | other in keys && ClaimName(n, other) == ClaimName(n, key)
      ensures other == key
    {
      assert ClaimName(n, other)[|n| + 1..] == other;
      assert ClaimName(n, key)[|n| + 1..] == key;
    }
  }

  /** The second Workload's name continues the first one's into its key. */
  ghost predicate Straddles(n: string, key: string, n': string, key': string) {
    exists x: string :: n' == ClaimName(n, x) && key == ClaimName(x, key')
  }

  lemma StraddlesMiddle(n: string, key: string, n': string, key': string)
    requires ClaimName(n, key) == ClaimName(n', key') && |n| < |n'|
    ensures Straddles(n, key, n', key')
  {
    var name := ClaimName(n, key);
    var x := n'[|n| + 1..];
    assert n'[..|n|] == name[..|n|] == n;
    assert n'[|n|] == name[|n|] == '-';
    assert n' == ClaimName(n, x);
    assert key == name[|n| + 1..] == ClaimName(x, key');
  }

  /** Exactly which claims of two Workloads share a name. */
  lemma NamesCollide(n: string, key: string, n': string, key': string)
    ensures ClaimName(n, key) == ClaimName(n', key') <==>
            (n == n' && key == key') || Straddles(n, key, n', key') || Straddles(n', key', n, key)
  {
    if ClaimName(n, key) == ClaimName(n', key') {
      if |n| < |n'| {
        StraddlesMiddle(n, key, n', key');
      } else if |n'| < |n| {
        StraddlesMiddle(n', key', n, key);
      } else {
        assert n == ClaimName(n, key)[..|n|] == n';
        KeysApart(n, {key'}, key);
      }
    }
    if Straddles(n, key, n', key') {
      var x: string :| n' == ClaimName(n, x) && key == ClaimName(x, key');
      assert ClaimName(n, key) == ClaimName(n', key');
    }
    if Straddles(n', key', n, key) {
      var x: string :| n == ClaimName(n', x) && key' == ClaimName(x, key);
      assert ClaimName(n, key) == ClaimName(n', key');
    }
  }
}
