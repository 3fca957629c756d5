/** The Workload and ResourceClaim objects of the score.dev API, and the calls of the API
    server on them. Every call is one atomic step; spec and status are separate subresources,
    updates are guarded by the resource version, and deletion waits for finalizers. */
module Api {

  datatype Option<+T> = None | Some(value: T)

  const WORKLOAD_FINALIZER := "workloads.score.dev/finalizer"
  const CLAIM_FINALIZER := "provisioner.score.dev/finalizer"

  datatype Policy = Delete | Retain | Orphan

  datatype OwnerRef = OwnerRef(kind: string, name: string, uid: nat)

  datatype ClaimSpec = ClaimSpec(
    ref: string, key: string, typ: string, klass: Option<string>,
    id: Option<string>, params: Option<string>, policy: Option<Policy>)

  /** `Unset` is the empty phase of a claim that has no status yet. */
  datatype Phase = Unset | Pending | Claiming | Bound | Failed | Unknown(text: string)

  datatype Cert = Cert(secretName: Option<string>, data: map<string, string>)

  datatype Outputs = Outputs(
    secretRef: Option<string>, configMapRef: Option<string>,
    uri: Option<string>, image: Option<string>, cert: Option<Cert>)

  datatype ClaimStatus = ClaimStatus(
    phase: Phase, reason: string, message: string,
    outputs: Option<Outputs>, available: bool, observed: nat)

  datatype Claim = Claim(
    uid: nat, rv: nat, generation: nat, marked: bool,
    finalizers: seq<string>, owners: seq<OwnerRef>, spec: ClaimSpec, status: ClaimStatus)

  datatype ResourceSpec = ResourceSpec(typ: string, klass: Option<string>, params: Option<string>)

  datatype Workload = Workload(
    uid: nat, rv: nat, generation: nat, marked: bool,
    finalizers: seq<string>, resources: map<string, ResourceSpec>)

  const NO_STATUS := ClaimStatus(Unset, "", "", None, false, 0)

  datatype Store = Store(
    workloads: map<string, Workload>, claims: map<string, Claim>, nextUid: nat, nextRv: nat)

  /** The answer of a write: whether it was accepted, and the store afterwards. */
  datatype Answer = Answer(ok: bool, store: Store)

  // ---------------------------------------------------------------- list helpers

  /** The list without the entry `f`, order kept. */
  function Without(fs: seq<string>, f: string): (r: seq<string>)
    ensures forall x :: x in r <==> x in fs && x != f
    ensures f !in fs ==> r == fs
  {
    if fs == [] then []
    else if fs[0] == f then Without(fs[1..], f)
    else [fs[0]] + Without(fs[1..], f)
  }

  predicate RefersTo(o: OwnerRef, workload: string) {
    o.kind == "Workload" && o.name == workload
  }

  /** The owner references other than those to the named Workload, order kept. */
  function Disowned(owners: seq<OwnerRef>, workload: string): (r: seq<OwnerRef>)
    ensures forall o :: o in r <==> o in owners && !RefersTo(o, workload)
    ensures (forall o :: o in owners ==> RefersTo(o, workload)) ==> r == []
  {
    if owners == [] then []
    else if RefersTo(owners[0], workload) then Disowned(owners[1..], workload)
    else [owners[0]] + Disowned(owners[1..], workload)
  }

  // ---------------------------------------------------------------- naming and specs

  function ClaimName(workload: string, key: string): string {
    workload + "-" + key
  }

  function DesiredSpec(workload: string, key: string, r: ResourceSpec): ClaimSpec {
    ClaimSpec(workload, key, r.typ, r.klass, None, r.params, None)
  }

  /** The comparison that decides whether a claim is updated: it looks at neither the
      contents of the parameters nor the deprovision policy. */
  predicate SpecEqual(a: ClaimSpec, b: ClaimSpec) {
    && a.ref == b.ref && a.key == b.key && a.typ == b.typ
    && a.klass == b.klass && a.id == b.id
    && a.params.Some? == b.params.Some?
  }

  function EffectivePolicy(spec: ClaimSpec): Policy {
    if spec.policy.Some? then spec.policy.value else Delete
  }

  // ---------------------------------------------------------------- claim calls

  function CreateClaim(st: Store, name: string, spec: ClaimSpec, owners: seq<OwnerRef>): Answer {
    if name in st.claims then Answer(false, st)
    else
      var c := Claim(st.nextUid, st.nextRv, 1, false, [], owners, spec, NO_STATUS);
      Answer(true, st.(claims := st.claims[name := c], nextUid := st.nextUid + 1, nextRv := st.nextRv + 1))
  }

  /** Update of metadata and spec. An object marked for deletion disappears with its last finalizer. */
  function UpdateClaim(st: Store, name: string, c: Claim): Answer {
    if name !in st.claims || st.claims[name].rv != c.rv then Answer(false, st)
    else
      var cur := st.claims[name];
      if cur.marked && c.finalizers == [] then
        Answer(true, st.(claims := st.claims - {name}, nextRv := st.nextRv + 1))
      else
        var g := if c.spec == cur.spec then cur.generation else cur.generation + 1;
        var c' := cur.(finalizers := c.finalizers, owners := c.owners, spec := c.spec, generation := g,
            rv := st.nextRv);
        Answer(true, st.(claims := st.claims[name := c'], nextRv := st.nextRv + 1))
  }

  function UpdateClaimStatus(st: Store, name: string, rv: nat, status: ClaimStatus): Answer {
    if name !in st.claims || st.claims[name].rv != rv then Answer(false, st)
    else
      var c' := st.claims[name].(status := status, rv := st.nextRv);
      Answer(true, st.(claims := st.claims[name := c'], nextRv := st.nextRv + 1))
  }

  /** Delete by name: marks an object that has finalizers, removes one that has none. */
  function DeleteClaim(st: Store, name: string): Answer {
    if name !in st.claims then Answer(false, st)
    else
      var cur := st.claims[name];
      if cur.finalizers == [] then
        Answer(true, st.(claims := st.claims - {name}, nextRv := st.nextRv + 1))
      else if cur.marked then Answer(true, st)
      else
        var c' := cur.(marked := true, generation := cur.generation + 1, rv := st.nextRv);
        Answer(true, st.(claims := st.claims[name := c'], nextRv := st.nextRv + 1))
  }

  // ---------------------------------------------------------------- workload calls

  function CreateWorkload(st: Store, n: string, resources: map<string, ResourceSpec>): Answer {
    if n in st.workloads then Answer(false, st)
    else
      var w := Workload(st.nextUid, st.nextRv, 1, false, [], resources);
      Answer(true, st.(workloads := st.workloads[n := w], nextUid := st.nextUid + 1, nextRv := st.nextRv + 1))
  }

  function UpdateWorkload(st: Store, n: string, w: Workload): Answer {
    if n !in st.workloads || st.workloads[n].rv != w.rv then Answer(false, st)
    else
      var cur := st.workloads[n];
      if cur.marked && w.finalizers == [] then
        Answer(true, st.(workloads := st.workloads - {n}, nextRv := st.nextRv + 1))
      else
        var g := if w.resources == cur.resources then cur.generation else cur.generation + 1;
        var w' := cur.(finalizers := w.finalizers, resources := w.resources, generation := g, rv := st.nextRv);
        Answer(true, st.(workloads := st.workloads[n := w'], nextRv := st.nextRv + 1))
  }

  /** Any write to the status subresource of a Workload, whose contents do not matter here. */
  function TouchWorkload(st: Store, n: string): Answer {
    if n !in st.workloads then Answer(false, st)
    else
      Answer(true, st.(workloads := st.workloads[n := st.workloads[n].(rv := st.nextRv)], nextRv := st.nextRv + 1))
  }

  function DeleteWorkload(st: Store, n: string): Answer {
    if n !in st.workloads then Answer(false, st)
    else
      var cur := st.workloads[n];
      if cur.finalizers == [] then
        Answer(true, st.(workloads := st.workloads - {n}, nextRv := st.nextRv + 1))
      else if cur.marked then Answer(true, st)
      else
        var w' := cur.(marked := true, generation := cur.generation + 1, rv := st.nextRv);
        Answer(true, st.(workloads := st.workloads[n := w'], nextRv := st.nextRv + 1))
  }

  // ---------------------------------------------------------------- reads

  /** The claims listed for a Workload: selected by the back reference in their spec. */
  function ClaimsOf(st: Store, workload: string): (r: map<string, Claim>)
    ensures forall name :: name in r <==> name in st.claims && st.claims[name].spec.ref == workload
    ensures forall name :: name in r ==> r[name] == st.claims[name]
  {
    map name | name in st.claims && st.claims[name].spec.ref == workload :: st.claims[name]
  }

  predicate Alive(st: Store, o: OwnerRef) {
    o.kind == "Workload" && o.name in st.workloads && st.workloads[o.name].uid == o.uid
  }

  lemma Smaller<K, V>(m: map<K, V>, k: K)
    requires k in m
    ensures |m - {k}| < |m|
  {
    assert (m - {k}).Keys == m.Keys - {k};
    assert |(m - {k}).Keys| == |m - {k}|;
    assert |m.Keys| == |m|;
  }
}
