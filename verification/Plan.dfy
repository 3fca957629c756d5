/** The projection of a Workload into its WorkloadPlan: resolved values, the gate on unresolved
    placeholders, the plan that is stored, and the runtime's reading of it. */
module Plan {
  import opened Api
  import opened Json
  import opened Resolver

  import Protocol
  import ProtocolTheorems

  // ---------------------------------------------------------------- the gate

  /** Some string inside the value still holds a placeholder. */
  predicate Scan(v: Json) {
    match v
    case Str(s) => Unresolved(s)
    case Arr(items) => exists i :: 0 <= i < |items| && Scan(items[i])
    case Obj(m) => exists k :: k in m && Scan(m[k])
    case _ => false
  }

  /** `s` is one of the string leaves of the value; keys are not leaves. */
  predicate Leaf(v: Json, s: string) {
    match v
    case Str(t) => s == t
    case Arr(items) => exists i :: 0 <= i < |items| && Leaf(items[i], s)
    case Obj(m) => exists k :: k in m && Leaf(m[k], s)
    case _ => false
  }

  lemma {:induction false} ScanLeaves(v: Json, s: string)
    requires Leaf(v, s) && Unresolved(s)
    ensures Scan(v)
    decreases v
  {
    match v
    case Arr(items) =>
      var i :| 0 <= i < |items| && Leaf(items[i], s);
      ScanLeaves(items[i], s);
    case Obj(m) =>
      var k :| k in m && Leaf(m[k], s);
      ScanLeaves(m[k], s);
    case _ =>
  }

  lemma {:induction false} ScanFinds(v: Json) returns (s: string)
    requires Scan(v)
    ensures Leaf(v, s) && Unresolved(s)
    decreases v
  {
    match v
    case Str(t) => s := t;
    case Arr(items) =>
      var i :| 0 <= i < |items| && Scan(items[i]);
      s := ScanFinds(items[i]);
    case Obj(m) =>
      var k :| k in m && Scan(m[k]);
      s := ScanFinds(m[k]);
  }

  /** The recursive scan finds a placeholder exactly when a string leaf holds one. */
  lemma {:induction false} ScanExactly(v: Json)
    ensures Scan(v) <==> exists s :: Leaf(v, s) && Unresolved(s)
  {
    if Scan(v) {
      var s := ScanFinds(v);
    } else if s :| Leaf(v, s) && Unresolved(s) {
      ScanLeaves(v, s);
    }
  }

  /** Said with the pattern itself. */
  lemma NoPlaceholder(v: Json)
    requires forall s :: Leaf(v, s) ==> !Unresolved(s)
    ensures forall a: string, x: string, c: string :: x != "" && '}' !in x ==> !Leaf(v, a + "${" + x + "}" + c)
  {
    forall a: string, x: string, c: string | x != "" && '}' !in x
      ensures !Leaf(v, a + "${" + x + "}" + c)
    {
      PlaceholderFound(a, x, c);
    }
  }

  // ---------------------------------------------------------------- available outputs

  /** What a claim refers to through its Secret: the Secret's data, or made-up values for a
      postgres claim whose Secret cannot be read. */
  function SecretOutputs(name: string, c: Claim, data: Option<map<string, string>>): map<string, string> {
    if data.Some? then data.value
    else if c.spec.typ == "postgres" then
      var user, password, host, db := "postgres-" + name, "password-" + name, name + "-postgres", "db_" + name;
      map["username" := user, "password" := password, "host" := host, "port" := "5432", "database" := db,
          "uri" := "postgresql://" + user + ":" + password + "@" + host + ":5432/" + db]
    else map[]
  }

  function Single(key: string, value: Option<string>): map<string, string> {
    if value.Some? then map[key := value.value] else map[]
  }

  /** The outputs of one claim; later entries win. */
  function ClaimOutputs(name: string, c: Claim, secrets: map<string, map<string, string>>): map<string, string>
    requires c.status.outputs.Some?
  {
    var o := c.status.outputs.value;
    var data := if o.secretRef.Some? && o.secretRef.value in secrets then Some(secrets[o.secretRef.value]) else None;
    Single("uri", o.uri) + (if o.secretRef.Some? then SecretOutputs(name, c, data) else map[])
    + Single("image", o.image) + (if o.cert.Some? then Single("cert", o.cert.value.secretName) else map[])
  }

  /** The index of the last claim that offers outputs for a key. */
  predicate LastFor(claims: seq<(string, Claim)>, key: string, i: int) {
    && 0 <= i < |claims| && claims[i].1.status.available && claims[i].1.spec.key == key
    && forall j :: i < j < |claims| && claims[j].1.status.available ==> claims[j].1.spec.key != key
  }

  /** Available outputs are present. */
  predicate Coherent(claims: seq<(string, Claim)>) {
    forall p :: p in claims ==> p.1.status.available ==> p.1.status.outputs.Some?
  }

  /** So they are in every list of claims read from a reachable store. */
  lemma ReadersAreSafe(strategies: set<string>, es: seq<Protocol.Event>, claims: seq<(string, Claim)>)
    requires var st := Protocol.Run(Protocol.Init(strategies), es).store;
             forall p :: p in claims ==> p.0 in st.claims && st.claims[p.0] == p.1
    ensures Coherent(claims)
  {
    forall p | p in claims ensures p.1.status.available ==> p.1.status.outputs.Some? {
      ProtocolTheorems.BoundMeansGranted(strategies, es, p.0);
    }
  }

  function Offered(claims: seq<(string, Claim)>, secrets: map<string, map<string, string>>): Available
    requires Coherent(claims)
  {
    if claims == [] then map[]
    else
      var rest, (name, c) := Offered(claims[..|claims| - 1], secrets), claims[|claims| - 1];
      if c.status.available then rest[c.spec.key := ClaimOutputs(name, c, secrets)] else rest
  }

  /** Dereferences no missing outputs. */
  method BuildResolvedOutputs(claims: seq<(string, Claim)>, secrets: map<string, map<string, string>>)
    returns (outs: Available)
    requires Coherent(claims)
    ensures outs == Offered(claims, secrets)
  {
    outs := map[];
    for n := 0 to |claims|
      invariant outs == Offered(claims[..n], secrets)
    {
      assert claims[..n + 1][..n] == claims[..n];
      var (name, c) := claims[n];
      if c.status.available {
        outs := outs[c.spec.key := ClaimOutputs(name, c, secrets)];
      }
    }
    assert claims[..|claims|] == claims;
  }

  /** Outputs are offered for exactly the keys of available claims, by the last claim of a key. */
  lemma {:induction false} OfferedByLast(claims: seq<(string, Claim)>, secrets: map<string, map<string, string>>,
      key: string)
    requires Coherent(claims)
    ensures key in Offered(claims, secrets) <==> exists i :: LastFor(claims, key, i)
    ensures forall i :: LastFor(claims, key, i) ==>
              claims[i] in claims && Offered(claims, secrets)[key] == ClaimOutputs(claims[i].0, claims[i].1, secrets)
  {
    if claims != [] {
      var init, last := claims[..|claims| - 1], claims[|claims| - 1];
      OfferedByLast(init, secrets, key);
      if last.1.status.available && last.1.spec.key == key {
        assert LastFor(claims, key, |claims| - 1);
      } else {
        forall i ensures LastFor(claims, key, i) <==> LastFor(init, key, i) {
          LastBefore(claims, key, i);
        }
      }
    }
  }

  /** The Secret that a claim refers to, if it can be read. */
  function Readable(o: Outputs, secrets: map<string, map<string, string>>): map<string, string> {
    if o.secretRef.Some? && o.secretRef.value in secrets then secrets[o.secretRef.value] else map[]
  }

  predicate Certified(o: Outputs) {
    o.cert.Some? && o.cert.value.secretName.Some?
  }

  /** The claim's image or certificate takes this name. */
  predicate Replaced(o: Outputs, k: string) {
    (k == "image" && o.image.Some?) || (k == "cert" && Certified(o))
  }

  /** A postgres claim whose Secret cannot be read. */
  predicate Guessed(c: Claim, o: Outputs, secrets: map<string, map<string, string>>) {
    o.secretRef.Some? && o.secretRef.value !in secrets && c.spec.typ == "postgres"
  }

  const GUESSES := {"username", "password", "host", "port", "database", "uri"}

  /** What a claim gives: its image, the Secret name of its certificate, what is in its Secret, and
      its URI unless the Secret has one. */
  lemma OutputsOf(name: string, c: Claim, secrets: map<string, map<string, string>>)
    requires c.status.outputs.Some?
    ensures var o, out := c.status.outputs.value, ClaimOutputs(name, c, secrets);
            && (o.image.Some? ==> "image" in out && out["image"] == o.image.value)
            && (Certified(o) ==> "cert" in out && out["cert"] == o.cert.value.secretName.value)
            && (o.uri.Some? && "uri" !in Readable(o, secrets) && !Guessed(c, o, secrets) ==>
                  "uri" in out && out["uri"] == o.uri.value)
            && forall k :: k in Readable(o, secrets) && !Replaced(o, k) ==>
               k in out && out[k] == Readable(o, secrets)[k]
  {
  }

  /** And nothing else, but for the values made up for a postgres claim whose Secret cannot be read. */
  lemma NoOtherOutputs(name: string, c: Claim, secrets: map<string, map<string, string>>, k: string)
    requires c.status.outputs.Some?
    ensures var o, out := c.status.outputs.value, ClaimOutputs(name, c, secrets);
            k in out <==>
              || k in Readable(o, secrets) || (k == "uri" && o.uri.Some?) || (k == "image" && o.image.Some?)
              || (k == "cert" && Certified(o)) || (k in GUESSES && Guessed(c, o, secrets))
  {
  }

  lemma FromSecret(name: string, c: Claim, secrets: map<string, map<string, string>>, k: string)
    requires c.status.outputs.Some? && Guessed(c, c.status.outputs.value, secrets)
    requires k in SecretOutputs(name, c, None) && |k| != |"image"| && |k| != |"cert"|
    ensures k in ClaimOutputs(name, c, secrets) && ClaimOutputs(name, c, secrets)[k] == SecretOutputs(name, c, None)[k]
  {
  }

  /** The values made up for a claim of this name. */
  predicate AreGuesses(out: map<string, string>, name: string) {
    && GUESSES <= out.Keys
    && out["username"] == "postgres-" + name && out["password"] == "password-" + name
    && out["host"] == name + "-postgres" && out["port"] == "5432" && out["database"] == "db_" + name
    && out["uri"] == "postgresql://postgres-" + name + ":password-" + name + "@" + name + "-postgres:5432/db_" + name
  }

  lemma MadeUp(name: string, c: Claim)
    requires c.spec.typ == "postgres"
    ensures AreGuesses(SecretOutputs(name, c, None), name)
  {
    var m := SecretOutputs(name, c, None);
    assert "username" in m && "password" in m && "host" in m && "port" in m && "database" in m && "uri" in m;
    assert m["uri"] == "postgresql://postgres-" + name + ":password-" + name + "@" + name + "-postgres:5432/db_" + name;
  }

  lemma GuessedOutputs(name: string, c: Claim, secrets: map<string, map<string, string>>)
    requires c.status.outputs.Some? && Guessed(c, c.status.outputs.value, secrets)
    ensures AreGuesses(ClaimOutputs(name, c, secrets), name)
  {
    MadeUp(name, c);
    FromSecret(name, c, secrets, "username");
    FromSecret(name, c, secrets, "password");
    FromSecret(name, c, secrets, "database");
    GuessedShort(name, c, secrets);
  }

  /** The names as short as those that an image or a certificate take. */
  lemma GuessedShort(name: string, c: Claim, secrets: map<string, map<string, string>>)
    requires c.status.outputs.Some? && Guessed(c, c.status.outputs.value, secrets)
    ensures var out, made := ClaimOutputs(name, c, secrets), SecretOutputs(name, c, None);
            {"host", "port", "uri"} <= out.Keys && {"host", "port", "uri"} <= made.Keys
            && out["host"] == made["host"] && out["port"] == made["port"] && out["uri"] == made["uri"]
  {
    assert "host"[0] != "cert"[0] && "port"[0] != "cert"[0] && |"uri"| == 3;
  }

  lemma LastBefore(claims: seq<(string, Claim)>, key: string, i: int)
    requires claims != [] && !(claims[|claims| - 1].1.status.available && claims[|claims| - 1].1.spec.key == key)
    ensures LastFor(claims, key, i) <==> LastFor(claims[..|claims| - 1], key, i)
  {
    var init := claims[..|claims| - 1];
    assert forall j :: 0 <= j < |init| ==> init[j] == claims[j];
  }

  // ---------------------------------------------------------------- resolved values

  /** The variables of a container, if it has any. */
  type Containers = map<string, Option<map<string, string>>>

  predicate Resolvable(value: string, outs: Available) {
    forall m :: m in Relevant(value) ==> Defined(m, outs)
  }

  function Resolved(value: string, outs: Available): string
    requires Resolvable(value, outs)
  {
    ReplaceEach(value, Relevant(value), outs)
  }

  predicate AllResolvable(vars: map<string, string>, outs: Available) {
    forall v :: v in vars ==> Resolvable(vars[v], outs)
  }

  /** The environment of one container. */
  function Env(vars: map<string, string>, outs: Available): map<string, string>
    requires AllResolvable(vars, outs)
  {
    map v | v in vars :: Resolved(vars[v], outs)
  }

  function Quoted(env: map<string, string>): Json {
    Obj(map v | v in env :: Str(env[v]))
  }

  predicate Projectable(cs: Containers, outs: Available) {
    forall c :: c in cs && cs[c].Some? ==> AllResolvable(cs[c].value, outs)
  }

  function ContainerValues(vars: Option<map<string, string>>, outs: Available): Json
    requires vars.Some? ==> AllResolvable(vars.value, outs)
  {
    if vars.None? then Obj(map[]) else Obj(map["env" := Quoted(Env(vars.value, outs))])
  }

  function PlanValues(cs: Containers, outs: Available): Fields
    requires Projectable(cs, outs)
  {
    map["containers" := Obj(map c | c in cs :: ContainerValues(cs[c], outs))]
  }

  lemma QuotedEnv(fields: Fields, env: map<string, string>)
    requires fields.Keys == env.Keys && forall v :: v in env ==> fields[v] == Str(env[v])
    ensures Obj(fields) == Quoted(env)
  {
    assert fields == Quoted(env).m;
  }

  predicate IsResolved(value: string, outs: Available, v: Json) {
    Resolvable(value, outs) && v == Str(Resolved(value, outs))
  }

  method ResolveOne(value: string, outs: Available) returns (r: Option<Json>)
    ensures r.Some? <==> Resolvable(value, outs)
    ensures r.Some? ==> IsResolved(value, outs, r.value)
  {
    var resolved := ResolveValue(value, outs);
    r := if resolved.Ok? then Some(Str(resolved.value)) else None;
  }

  lemma EnvDone(vars: map<string, string>, outs: Available, env: Fields)
    requires env.Keys == vars.Keys && forall v :: v in vars ==> IsResolved(vars[v], outs, env[v])
    ensures AllResolvable(vars, outs) && Obj(env) == Quoted(Env(vars, outs))
  {
    QuotedEnv(env, Env(vars, outs));
  }

  method ResolveEnv(vars: map<string, string>, outs: Available) returns (r: Option<Fields>)
    ensures r.Some? <==> AllResolvable(vars, outs)
    ensures r.Some? ==> Obj(r.value) == Quoted(Env(vars, outs))
  {
    var env: Fields := map[];
    var todo := vars.Keys;
    while todo != {}
      invariant todo <= vars.Keys && env.Keys == vars.Keys - todo
      invariant forall v :: v in env ==> IsResolved(vars[v], outs, env[v])
    {
      var name :| name in todo;
      var value := ResolveOne(vars[name], outs);
      if value.None? { return None; }
      env := env[name := value.value];
      todo := todo - {name};
    }
    EnvDone(vars, outs, env);
    r := Some(env);
  }

  /** Succeeds exactly when every variable of every container resolves. */
  method ResolveAllPlaceholders(cs: Containers, outs: Available) returns (r: Option<Fields>)
    ensures r.Some? <==> Projectable(cs, outs)
    ensures r.Some? ==> r.value == PlanValues(cs, outs)
  {
    var containers: Fields := map[];
    var todo := cs.Keys;
    while todo != {}
      invariant todo <= cs.Keys && containers.Keys == cs.Keys - todo
      invariant forall c :: c in containers ==>
                  (cs[c].Some? ==> AllResolvable(cs[c].value, outs)) && containers[c] == ContainerValues(cs[c], outs)
    {
      var name :| name in todo;
      var container: Fields := map[];
      if cs[name].Some? {
        var env := ResolveEnv(cs[name].value, outs);
        if env.None? {
          return None;
        }
        container := container["env" := Obj(env.value)];
      }
      containers := containers[name := Obj(container)];
      todo := todo - {name};
    }
    assert Projectable(cs, outs);
    assert containers == map c | c in cs :: ContainerValues(cs[c], outs);
    r := Some(map["containers" := Obj(containers)]);
  }

  // ---------------------------------------------------------------- the runtime's reading

  /** How Go prints a decoded value. */
  function Shown(v: Json, show: Json -> string): string {
    match v case Null => "" case Str(s) => s case _ => show(v)
  }

  /** The environment of a container as the runtime extracts it; errors are shape errors. */
  method ExtractResolvedEnv(values: Fields, name: string, show: Json -> string)
    returns (r: Result<map<string, string>, string>)
    ensures r.Err? <==> Malformed(values, name)
    ensures r.Ok? ==> r.value == Extracted(values, name, show)
  {
    if "containers" !in values { return Ok(map[]); }
    if !values["containers"].Obj? { return Err("containers field is not a map"); }
    var containers := values["containers"].m;
    if name !in containers { return Ok(map[]); }
    if !containers[name].Obj? { return Err("container is not a map"); }
    var container := containers[name].m;
    if "env" !in container { return Ok(map[]); }
    if !container["env"].Obj? { return Err("env field is not a map"); }
    var env := container["env"].m;
    var result: map<string, string> := map[];
    var todo := env.Keys;
    while todo != {}
      invariant todo <= env.Keys && result.Keys == env.Keys - todo
      invariant forall v :: v in result ==> result[v] == Shown(env[v], show)
    {
      var key :| key in todo;
      if env[key] == Null {
        result := result[key := ""];
      } else {
        result := result[key := if env[key].Str? then env[key].s else show(env[key])];
      }
      todo := todo - {key};
    }
    assert result == map v | v in env :: Shown(env[v], show);
    r := Ok(result);
  }

  function ContainerAt(values: Fields, name: string): Option<Json> {
    if "containers" in values && values["containers"].Obj? && name in values["containers"].m then
        Some(values["containers"].m[name])
    else None
  }

  function EnvAt(values: Fields, name: string): Option<Json> {
    var c := ContainerAt(values, name);
    if c.Some? && c.value.Obj? && "env" in c.value.m then Some(c.value.m["env"]) else None
  }

  predicate Malformed(values: Fields, name: string) {
    || ("containers" in values && !values["containers"].Obj?)
    || (ContainerAt(values, name).Some? && !ContainerAt(values, name).value.Obj?)
    || (EnvAt(values, name).Some? && !EnvAt(values, name).value.Obj?)
  }

  function Extracted(values: Fields, name: string, show: Json -> string): map<string, string> {
    var env := EnvAt(values, name);
    if env.Some? && env.value.Obj? then map v | v in env.value.m :: Shown(env.value.m[v], show) else map[]
  }

  lemma ExtractedEnv(values: Fields, name: string, env: map<string, string>, show: Json -> string)
    requires ContainerAt(values, name) == Some(Obj(map["env" := Quoted(env)]))
    ensures !Malformed(values, name) && Extracted(values, name, show) == env
  {
    assert EnvAt(values, name) == Some(Quoted(env));
  }

  /** Extracting a container's environment from the plan values gives exactly its resolved
      variables. */
  lemma EnvRoundTrip(cs: Containers, outs: Available, name: string, show: Json -> string)
    requires Projectable(cs, outs)
    ensures !Malformed(PlanValues(cs, outs), name)
    ensures Extracted(PlanValues(cs, outs), name, show) ==
            if name in cs && cs[name].Some? then Env(cs[name].value, outs) else map[]
  {
    if name in cs && cs[name].Some? {
      ExtractedEnv(PlanValues(cs, outs), name, Env(cs[name].value, outs), show);
    }
  }

  // ---------------------------------------------------------------- the stored plan

  datatype PlanClaim = PlanClaim(key: string, typ: string, klass: Option<string>)

  datatype PlanSpec = PlanSpec(
    ref: string, generation: nat, runtimeClass: string, template: string, values: Fields, claims: seq<PlanClaim>)

  /** The comparison that decides on an update: it looks at neither the values, nor the
      template, nor the contents of the claims. */
  predicate SameSpec(a: PlanSpec, b: PlanSpec) {
    a.ref == b.ref && a.generation == b.generation && a.runtimeClass == b.runtimeClass && |a.claims| == |b.claims|
  }

  function PlanClaims(cs: seq<Claim>): seq<PlanClaim> {
    seq(|cs|, i requires 0 <= i < |cs| => PlanClaim(cs[i].spec.key, cs[i].spec.typ, cs[i].spec.klass))
  }

  method BuildPlanClaims(cs: seq<Claim>) returns (r: seq<PlanClaim>)
    ensures |r| == |cs|
    ensures forall i :: 0 <= i < |cs| ==>
              r[i].key == cs[i].spec.key && r[i].typ == cs[i].spec.typ && r[i].klass == cs[i].spec.klass
  {
    r := [];
    for i := 0 to |cs|
      invariant |r| == i
      invariant forall j :: 0 <= j < i ==>
                  r[j].key == cs[j].spec.key && r[j].typ == cs[j].spec.typ && r[j].klass == cs[j].spec.klass
    {
      r := r + [PlanClaim(cs[i].spec.key, cs[i].spec.typ, cs[i].spec.klass)];
    }
  }

  datatype Backend = Backend(runtimeClass: string, template: string)

  function DesiredPlan(n: string, generation: nat, cs: Containers, outs: Available, claims: seq<Claim>,
      b: Backend): PlanSpec
    requires Projectable(cs, outs)
  {
    PlanSpec(n, generation, b.runtimeClass, b.template, PlanValues(cs, outs), PlanClaims(claims))
  }

  /** The plan is for another generation, runtime class or number of claims, or another Workload. */
  predicate Outdated(p: PlanSpec, n: string, generation: nat, b: Backend, claims: seq<Claim>) {
    p.ref != n || p.generation != generation || p.runtimeClass != b.runtimeClass || |p.claims| != |claims|
  }

  /** The plan lists the claims in their order, with key, type and class. */
  predicate Lists(p: PlanSpec, claims: seq<Claim>) {
    && |p.claims| == |claims|
    && forall i :: 0 <= i < |claims| ==>
         && p.claims[i].key == claims[i].spec.key && p.claims[i].typ == claims[i].spec.typ
         && p.claims[i].klass == claims[i].spec.klass
  }

  /** The plan of one Workload in the store. The runtime writes only its status. */
  class PlanStore {
    var plan: Option<PlanSpec>

    constructor ()
      ensures plan.None? && Valid()
    {
      plan := None;
    }

    /** No stored plan holds a placeholder in any string leaf. */
    ghost predicate Valid()
      reads this
    {
      plan.Some? ==> forall s :: Leaf(Obj(plan.value.values), s) ==> !Unresolved(s)
    }

    /** Fails and changes nothing when a variable does not resolve or the gate finds a
        placeholder; otherwise keeps a plan that compares equal and replaces any other. */
    method Upsert(n: string, generation: nat, cs: Containers, outs: Available, claims: seq<Claim>, b: Backend)
      returns (ok: bool)
      requires Valid()
      modifies this
      ensures Valid()
      ensures plan.Some? ==>
                forall a: string, x: string, c: string :: x != "" && '}' !in x ==>
                  !Leaf(Obj(plan.value.values), a + "${" + x + "}" + c)
      ensures ok <==> n != "" && Projectable(cs, outs) && !Scan(Obj(PlanValues(cs, outs)))
      ensures !ok ==> plan == old(plan)
      ensures ok ==> var desired := DesiredPlan(n, generation, cs, outs, claims, b);
                     plan == if old(plan).Some? && SameSpec(old(plan).value, desired) then old(plan) else Some(desired)
      ensures ok ==>
                && plan.Some? && plan.value.ref == n && plan.value.generation == generation
                && plan.value.runtimeClass == b.runtimeClass && |plan.value.claims| == |claims|
      ensures ok && old(plan).Some? && !Outdated(old(plan).value, n, generation, b, claims) ==> plan == old(plan)
      ensures ok && (old(plan).None? || Outdated(old(plan).value, n, generation, b, claims)) ==>
                plan.value.template == b.template && plan.value.values == PlanValues(cs, outs)
                    && Lists(plan.value, claims)
    {
      if plan.Some? { NoPlaceholder(Obj(plan.value.values)); }
      if n == "" { return false; }
      var values := ResolveAllPlaceholders(cs, outs);
      if values.None? { return false; }
      if Scan(Obj(values.value)) { return false; }
      ScanExactly(Obj(values.value));
      var planClaims := BuildPlanClaims(claims);
      assert planClaims == PlanClaims(claims);
      var desired := PlanSpec(n, generation, b.runtimeClass, b.template, values.value, planClaims);
      if plan.None? || !SameSpec(plan.value, desired) {
        plan := Some(desired);
      }
      ok := true;
      NoPlaceholder(Obj(plan.value.values));
    }
  }

  // ---------------------------------------------------------------- references

  /** Both ways to write a reference give the output of that key and name, for all keys and names that
      can be written and all outputs that hold no `$`. */
  lemma ReferenceResolves(key: string, name: string, outs: Available)
    requires key != "" && name != "" && '.' !in key && '$' !in key && '}' !in name && '$' !in name
    requires key in outs && name in outs[key] && '$' !in outs[key][name]
    ensures var text := "${resources." + key + ".outputs." + name + "}";
            Resolvable(text, outs) && Resolved(text, outs) == outs[key][name]
    ensures !("outputs." < name) ==>
              var text := "${resources." + key + "." + name + "}";
              Resolvable(text, outs) && Resolved(text, outs) == outs[key][name]
  {
    var long, short := Match(key, "outputs." + name), Match(key, name);
    assert Text(long) == "${resources." + key + ".outputs." + name + "}";
    assert ("outputs." + name)[|OUTPUTS|..] == name;
    SoleReference(long, outs);
    if !("outputs." < name) { SoleReference(short, outs); }
  }

  /** Text without references stays as it is. */
  lemma PlainStays(s: string, outs: Available)
    requires '$' !in s
    ensures Resolvable(s, outs) && Resolved(s, outs) == s
  {
    assert s + "" == s;
    FindAllSkips(s, "", true);
    FindAllSkips(s, "", false);
  }

  // ---------------------------------------------------------------- plans that compare equal

  /** Every variable resolves to the same text. */
  ghost predicate SameText(cs: Containers, outs: Available, outs': Available)
    requires Projectable(cs, outs) && Projectable(cs, outs')
  {
    forall c, v :: c in cs && cs[c].Some? && v in cs[c].value ==>
      Resolved(cs[c].value[v], outs) == Resolved(cs[c].value[v], outs')
  }

  lemma ValuesDiffer(cs: Containers, outs: Available, outs': Available, c: string, v: string)
    requires Projectable(cs, outs) && Projectable(cs, outs') && c in cs && cs[c].Some? && v in cs[c].value
    requires Resolved(cs[c].value[v], outs) != Resolved(cs[c].value[v], outs')
    ensures PlanValues(cs, outs) != PlanValues(cs, outs')
  {
    var show: Json -> string := j => "";
    EnvRoundTrip(cs, outs, c, show);
    EnvRoundTrip(cs, outs', c, show);
    assert Env(cs[c].value, outs)[v] != Env(cs[c].value, outs')[v];
  }

  lemma ContainersSame(cs: Containers, outs: Available, outs': Available, c: string)
    requires Projectable(cs, outs) && Projectable(cs, outs') && SameText(cs, outs, outs') && c in cs
    ensures ContainerValues(cs[c], outs) == ContainerValues(cs[c], outs')
  {
    if cs[c].Some? { assert Env(cs[c].value, outs) == Env(cs[c].value, outs'); }
  }

  /** The values of two plans of the same containers agree exactly when every variable resolves to
      the same text. */
  lemma ValuesAgree(cs: Containers, outs: Available, outs': Available)
    requires Projectable(cs, outs) && Projectable(cs, outs')
    ensures PlanValues(cs, outs) == PlanValues(cs, outs') <==> SameText(cs, outs, outs')
  {
    if SameText(cs, outs, outs') {
      forall c | c in cs ensures ContainerValues(cs[c], outs) == ContainerValues(cs[c], outs') {
        ContainersSame(cs, outs, outs', c);
      }
      assert PlanValues(cs, outs)["containers"].m == PlanValues(cs, outs')["containers"].m;
    } else {
      var c, v :| c in cs && cs[c].Some? && v in cs[c].value
        && Resolved(cs[c].value[v], outs) != Resolved(cs[c].value[v], outs');
      ValuesDiffer(cs, outs, outs', c, v);
    }
  }

  lemma SoleReference(m: Match, outs: Available)
    requires Clean(Ref(m)) && Defined(m, outs) && DollarFree(ValueOf(m, outs))
    ensures Resolvable(Text(m), outs) && Resolved(Text(m), outs) == ValueOf(m, outs)
  {
    var ts := [Ref(m)];
    assert Unparse(ts) == Text(m) + "" == Text(m);
    CleanIsInert(ts, outs);
    ResolutionIsOnePass(ts, outs);
    assert Simultaneous(ts, outs) == ValueOf(m, outs) + "" == ValueOf(m, outs);
  }

  /** One container with one variable that refers to an output. */
  function SoleVariable(m: Match): Containers {
    map["main" := Some(map["URI" := Text(m)])]
  }

  lemma SolePasses(m: Match, outs: Available)
    requires Clean(Ref(m)) && Defined(m, outs) && DollarFree(ValueOf(m, outs))
    ensures Projectable(SoleVariable(m), outs) && !Scan(Obj(PlanValues(SoleVariable(m), outs)))
  {
    var value := ValueOf(m, outs);
    SoleReference(m, outs);
    assert !Unresolved(value) by { assert forall i :: 0 <= i < |value| ==> value[i] in value; }
    GateExactly(SoleVariable(m), outs);
  }

  /** The output of a claim changes: the new plan compares equal to the stored one, which keeps the
      old value. */
  method OutputChanges(m: Match, outs: Available, outs': Available, claims: seq<Claim>, b: Backend)
    returns (stored: Fields, wanted: Fields)
    requires Clean(Ref(m)) && Defined(m, outs) && Defined(m, outs')
    requires DollarFree(ValueOf(m, outs)) && DollarFree(ValueOf(m, outs')) && ValueOf(m, outs) != ValueOf(m, outs')
    ensures Projectable(SoleVariable(m), outs') && wanted == PlanValues(SoleVariable(m), outs') && stored != wanted
  {
    var cs := SoleVariable(m);
    SolePasses(m, outs);
    SolePasses(m, outs');
    SoleReference(m, outs);
    SoleReference(m, outs');
    ValuesDiffer(cs, outs, outs', "main", "URI");
    var store := new PlanStore();
    var first := store.Upsert("w", 1, cs, outs, claims, b);
    var second := store.Upsert("w", 1, cs, outs', claims, b);
    stored, wanted := store.plan.value.values, PlanValues(cs, outs');
  }

  /** Such outputs exist. */
  lemma OutputExample() returns (m: Match, outs: Available, outs': Available)
    ensures Clean(Ref(m)) && Defined(m, outs) && Defined(m, outs')
    ensures DollarFree(ValueOf(m, outs)) && DollarFree(ValueOf(m, outs')) && ValueOf(m, outs) != ValueOf(m, outs')
  {
    m, outs, outs' := Match("db", "uri"), map["db" := map["uri" := "old"]], map["db" := map["uri" := "new"]];
    assert Wanted(m) == "uri" && "old"[0] != "new"[0];
  }

  // ---------------------------------------------------------------- the gate

  lemma EnvScan(env: map<string, string>)
    ensures Scan(Obj(map["env" := Quoted(env)])) <==> exists v :: v in env && Unresolved(env[v])
  {
    var q, m := Quoted(env).m, map["env" := Quoted(env)];
    assert forall v :: v in q <==> v in env;
    assert forall v :: v in q ==> Scan(q[v]) == Unresolved(env[v]);
    assert "env" in m && Scan(m["env"]) == Scan(Quoted(env));
  }

  /** The gate stops a Workload exactly when a variable of a container keeps a placeholder. */
  lemma GateExactly(cs: Containers, outs: Available)
    requires Projectable(cs, outs)
    ensures Scan(Obj(PlanValues(cs, outs))) <==>
            exists c, v :: c in cs && cs[c].Some? && v in cs[c].value && Unresolved(Resolved(cs[c].value[v], outs))
  {
    var containers := PlanValues(cs, outs)["containers"];
    forall c | c in cs
      ensures Scan(ContainerValues(cs[c], outs)) <==>
              cs[c].Some? && exists v :: v in cs[c].value && Unresolved(Resolved(cs[c].value[v], outs))
    {
      ContainerScan(cs[c], outs);
    }
    assert Scan(Obj(PlanValues(cs, outs))) == Scan(containers);
    assert forall c :: c in containers.m <==> c in cs;
    assert forall c :: c in containers.m ==> containers.m[c] == ContainerValues(cs[c], outs);
  }

  lemma ContainerScan(vars: Option<map<string, string>>, outs: Available)
    requires vars.Some? ==> AllResolvable(vars.value, outs)
    ensures Scan(ContainerValues(vars, outs)) <==>
            vars.Some? && exists v :: v in vars.value && Unresolved(Resolved(vars.value[v], outs))
  {
    if vars.Some? {
      var env := Env(vars.value, outs);
      EnvScan(env);
      if v :| v in vars.value && Unresolved(Resolved(vars.value[v], outs)) {
        assert v in env && Unresolved(env[v]);
      }
    }
  }

  /** A clean template that mixes both formats never reaches a plan. */
  lemma MixedNeverPlanned(cs: Containers, outs: Available, c: string, v: string, ts: seq<Token>)
    requires Projectable(cs, outs) && CleanAll(ts)
    requires c in cs && cs[c].Some? && v in cs[c].value && cs[c].value[v] == Unparse(ts) && Mixed(ts)
    ensures Scan(Obj(PlanValues(cs, outs)))
  {
    assert Resolvable(cs[c].value[v], outs);
    MixedIsBlocked(ts, outs);
    assert Unresolved(Resolved(cs[c].value[v], outs));
    GateExactly(cs, outs);
  }
}
