/** The orchestrator configuration and its validator. */
module Config {
  import opened Api
  import opened Quantity

  datatype Resources = Resources(cpu: string, memory: string, storage: string)

  datatype Constraints = Constraints(
    selectors: seq<Selector>, features: seq<string>, regions: seq<string>, resources: Option<Resources>)

  datatype Requirement = Requirement(key: string, operator: string, values: seq<string>)

  datatype Selector = Selector(
    labels: map<string, string>, expressions: seq<Requirement>, profile: string, constraints: Option<Constraints>)

  /** Values and parameters are raw documents that the orchestrator only passes on. */
  datatype Template = Template(kind: string, ref: string, values: Option<string>)

  datatype Backend = Backend(
    id: string, runtimeClass: string, template: Template, priority: int, version: string,
    constraints: Option<Constraints>)

  datatype Profile = Profile(name: string, description: string, backends: seq<Backend>)

  datatype Class = Class(name: string, description: string, parameters: Option<string>,
      constraints: Option<Constraints>)

  datatype ProvisionerDefaults = ProvisionerDefaults(klass: string, params: Option<string>)

  datatype Provisioner = Provisioner(
    typ: string, provisioner: string, classes: seq<Class>, defaults: Option<ProvisionerDefaults>)

  datatype Config = Config(
    apiVersion: string, kind: string, name: string, version: string,
    profiles: seq<Profile>, provisioners: seq<Provisioner>, defaultProfile: string, selectors: seq<Selector>,
    reconciler: Option<string>)

  datatype Problem = Required(field: string) | Invalid(field: string) | Duplicate(field: string)
                   | NotSupported(field: string) | NotFound(field: string)

  // ---------------------------------------------------------------- what a valid configuration is

  predicate Distinct(s: seq<string>) {
    forall i, j :: 0 <= i < j < |s| ==> s[i] != s[j]
  }

  predicate LabelChar(c: char) {
    'a' <= c <= 'z' || '0' <= c <= '9'
  }

  /** A DNS label: lower case letters, digits and inner dashes, at most 63. */
  predicate DnsLabel(s: string) {
    && 1 <= |s| <= 63 && LabelChar(s[0]) && LabelChar(s[|s| - 1])
    && forall c :: c in s ==> LabelChar(c) || c == '-'
  }

  /** One character, or two with others between them that may also be dashes. */
  predicate LabelParts(s: string, first: char, inner: string, last: char) {
    && (s == [first] + inner + [last] || (s == [first] && inner == "" && last == first))
    && LabelChar(first) && LabelChar(last) && forall c :: c in inner ==> LabelChar(c) || c == '-'
  }

  /** As the regular expression for labels in RFC 1123 says it, with its limit on the length. */
  lemma DnsLabelExactly(s: string)
    ensures DnsLabel(s) <==> |s| <= 63 && exists first, inner, last :: LabelParts(s, first, inner, last)
  {
    if DnsLabel(s) {
      if |s| == 1 {
        assert LabelParts(s, s[0], "", s[0]);
      } else {
        assert s == [s[0]] + s[1..|s| - 1] + [s[|s| - 1]];
        assert LabelParts(s, s[0], s[1..|s| - 1], s[|s| - 1]);
      }
    }
  }

  predicate ValidFormat(c: string) {
    c == "" || Pattern(c)
  }

  predicate ValidConstraints(c: Option<Constraints>) {
    c.Some? && c.value.resources.Some? ==>
      var r := c.value.resources.value;
      ValidFormat(r.cpu) && ValidFormat(r.memory) && ValidFormat(r.storage)
  }

  const RUNTIME_CLASSES := {"kubernetes", "ecs", "nomad"}
  const TEMPLATE_KINDS := {"manifests", "helm", "kustomize"}

  predicate ValidTemplate(t: Template) {
    t.kind in {"manifests", "helm", "kustomize"} && t.ref != ""
  }

  predicate ValidBackend(b: Backend) {
    && b.id != "" && b.runtimeClass in {"kubernetes", "ecs", "nomad"} && ValidTemplate(b.template)
    && b.version != "" && b.priority >= 0 && ValidConstraints(b.constraints)
  }

  function BackendIds(bs: seq<Backend>): seq<string> {
    seq(|bs|, i requires 0 <= i < |bs| => bs[i].id)
  }

  function Names(ps: seq<Profile>): seq<string> {
    seq(|ps|, i requires 0 <= i < |ps| => ps[i].name)
  }

  /** The ids of all backends of all profiles. */
  function Ids(ps: seq<Profile>): seq<string> {
    if ps == [] then [] else Ids(ps[..|ps| - 1]) + BackendIds(ps[|ps| - 1].backends)
  }

  predicate ValidBackends(bs: seq<Backend>) {
    forall b :: b in bs ==> ValidBackend(b)
  }

  predicate ValidProfile(p: Profile) {
    DnsLabel(p.name) && p.backends != [] && ValidBackends(p.backends)
  }

  predicate ProfilesOk(ps: seq<Profile>) {
    (forall p :: p in ps ==> ValidProfile(p)) && Distinct(Names(ps)) && Distinct(Ids(ps))
  }

  predicate ValidProfiles(ps: seq<Profile>) {
    ps != [] && ProfilesOk(ps)
  }

  function ClassNames(cs: seq<Class>): seq<string> {
    seq(|cs|, i requires 0 <= i < |cs| => cs[i].name)
  }

  predicate ValidClasses(cs: seq<Class>) {
    (forall c :: c in cs ==> c.name != "" && ValidConstraints(c.constraints)) && Distinct(ClassNames(cs))
  }

  function Types(ps: seq<Provisioner>): seq<string> {
    seq(|ps|, i requires 0 <= i < |ps| => ps[i].typ)
  }

  predicate ValidProvisioners(ps: seq<Provisioner>) {
    && (forall p :: p in ps ==> p.typ != "" && p.provisioner != "" && ValidClasses(p.classes))
    && Distinct(Types(ps))
  }

  predicate ValidDefaults(profile: string, selectors: seq<Selector>) {
    && profile != ""
    && forall s :: s in selectors ==> (s.labels != map[] || s.expressions != []) && ValidConstraints(s.constraints)
  }

  predicate ValidDefaultClass(p: Provisioner) {
    p.defaults.Some? && p.defaults.value.klass != "" ==> p.defaults.value.klass in ClassNames(p.classes)
  }

  predicate ValidReferences(c: Config) {
    && (c.defaultProfile != "" ==> c.defaultProfile in Names(c.profiles))
    && (forall s :: s in c.selectors ==> s.profile == "" || s.profile in Names(c.profiles))
    && (forall p :: p in c.provisioners ==> ValidDefaultClass(p))
  }

  predicate Valid(c: Config) {
    && c.apiVersion == "score.dev/v1b1" && c.kind == "OrchestratorConfig" && c.name != ""
    && ValidProfiles(c.profiles) && ValidProvisioners(c.provisioners)
    && ValidDefaults(c.defaultProfile, c.selectors) && ValidReferences(c)
  }

  // ---------------------------------------------------------------- helpers

  lemma DistinctSnoc(s: seq<string>, x: string)
    ensures Distinct(s + [x]) <==> Distinct(s) && x !in s
  {
    var t := s + [x];
    assert forall i :: 0 <= i < |s| ==> t[i] == s[i];
    assert t[|s|] == x;
    if Distinct(t) {
      assert forall i :: 0 <= i < |s| ==> t[i] != t[|s|];
    }
  }

  function Elements(s: seq<string>): set<string> {
    set x | x in s
  }

  lemma ElementsSnoc(s: seq<string>, x: string)
    ensures Elements(s + [x]) == Elements(s) + {x}
  {
  }

  // ---------------------------------------------------------------- the validator

  method ValidateConstraints(c: Option<Constraints>) returns (errs: seq<Problem>)
    ensures errs == [] <==> ValidConstraints(c)
    ensures errs == [] <==>
              (c.Some? && c.value.resources.Some? ==>
                 var r := c.value.resources.value;
                 forall q :: q in {r.cpu, r.memory, r.storage} ==> q == "" || Pattern(q))
  {
    errs := [];
    if c.Some? && c.value.resources.Some? {
      var r := c.value.resources.value;
      if r.cpu != "" && !Pattern(r.cpu) { errs := errs + [Invalid("cpu")]; }
      if r.memory != "" && !Pattern(r.memory) { errs := errs + [Invalid("memory")]; }
      if r.storage != "" && !Pattern(r.storage) { errs := errs + [Invalid("storage")]; }
    }
  }

  method ValidateTemplate(t: Template) returns (errs: seq<Problem>)
    ensures errs == [] <==> ValidTemplate(t)
  {
    errs := [];
    if t.kind == "" {
      errs := errs + [Required("kind")];
    } else if t.kind !in TEMPLATE_KINDS {
      errs := errs + [NotSupported("kind")];
    }
    if t.ref == "" { errs := errs + [Required("ref")]; }
  }

  method ValidateBackend(b: Backend, seen: set<string>) returns (errs: seq<Problem>, seen': set<string>)
    ensures errs == [] <==> ValidBackend(b) && b.id !in seen
    ensures errs == [] <==>
              && b.id != "" && b.id !in seen && b.runtimeClass in {"kubernetes", "ecs", "nomad"}
              && b.template.kind in {"manifests", "helm", "kustomize"} && b.template.ref != ""
              && b.version != "" && b.priority >= 0 && ValidConstraints(b.constraints)
    ensures seen' == if b.id == "" then seen else seen + {b.id}
  {
    errs, seen' := [], seen;
    if b.id == "" {
      errs := errs + [Required("backendId")];
    } else {
      if b.id in seen { errs := errs + [Duplicate("backendId")]; }
      seen' := seen + {b.id};
    }
    if b.runtimeClass == "" {
      errs := errs + [Required("runtimeClass")];
    } else if b.runtimeClass !in RUNTIME_CLASSES {
      errs := errs + [NotSupported("runtimeClass")];
    }
    var more := ValidateTemplate(b.template);
    errs := errs + more;
    if b.version == "" { errs := errs + [Required("version")]; }
    if b.priority < 0 { errs := errs + [Invalid("priority")]; }
    more := ValidateConstraints(b.constraints);
    errs := errs + more;
  }

  /** `ids` are the backend ids met before. */
  method ValidateBackends(bs: seq<Backend>, seen: set<string>, ghost ids: seq<string>)
    returns (errs: seq<Problem>, seen': set<string>)
    ensures Distinct(ids) && seen == Elements(ids) ==>
              && (errs == [] <==> ValidBackends(bs) && Distinct(ids + BackendIds(bs)))
              && (errs == [] ==> seen' == Elements(ids + BackendIds(bs)))
  {
    errs, seen' := [], seen;
    assert ids + BackendIds(bs[..0]) == ids;
    for j := 0 to |bs|
      invariant Distinct(ids) && seen == Elements(ids) ==>
                  && (errs == [] <==> ValidBackends(bs[..j]) && Distinct(ids + BackendIds(bs[..j])))
                  && (errs == [] ==> seen' == Elements(ids + BackendIds(bs[..j])))
    {
      ghost var before := ids + BackendIds(bs[..j]);
      assert ids + BackendIds(bs[..j + 1]) == before + [bs[j].id];
      DistinctSnoc(before, bs[j].id);
      ElementsSnoc(before, bs[j].id);
      assert bs[..j + 1] == bs[..j] + [bs[j]];
      var more;
      more, seen' := ValidateBackend(bs[j], seen');
      errs := errs + more;
    }
    assert bs[..|bs|] == bs;
  }

  method ValidateName(name: string, seen: set<string>) returns (errs: seq<Problem>, seen': set<string>)
    ensures errs == [] <==> DnsLabel(name) && name !in seen
    ensures seen' == if name == "" then seen else seen + {name}
  {
    errs, seen' := [], seen;
    if name == "" {
      errs := errs + [Required("name")];
    } else {
      if !DnsLabel(name) { errs := errs + [Invalid("name")]; }
      if name in seen { errs := errs + [Duplicate("name")]; }
      seen' := seen + {name};
    }
  }

  lemma ProfilesSnoc(ps: seq<Profile>, p: Profile)
    ensures ProfilesOk(ps + [p]) <==>
            && ProfilesOk(ps) && ValidProfile(p) && p.name !in Elements(Names(ps))
            && Distinct(Ids(ps) + BackendIds(p.backends))
    ensures Elements(Names(ps + [p])) == Elements(Names(ps)) + {p.name}
    ensures Ids(ps + [p]) == Ids(ps) + BackendIds(p.backends)
  {
    var qs := ps + [p];
    assert qs[..|qs| - 1] == ps;
    assert Names(qs) == Names(ps) + [p.name];
    DistinctSnoc(Names(ps), p.name);
    ElementsSnoc(Names(ps), p.name);
    if Distinct(Ids(qs)) { DistinctPrefix(Ids(ps), BackendIds(p.backends)); }
  }

  lemma DistinctPrefix(s: seq<string>, t: seq<string>)
    requires Distinct(s + t)
    ensures Distinct(s)
  {
    assert forall i :: 0 <= i < |s| ==> (s + t)[i] == s[i];
  }

  method ValidateProfiles(ps: seq<Profile>) returns (errs: seq<Problem>)
    ensures errs == [] <==> ValidProfiles(ps)
  {
    errs := [];
    if |ps| == 0 { return [Required("profiles")]; }
    var names, ids := {}, {};
    for i := 0 to |ps|
      invariant errs == [] <==> ProfilesOk(ps[..i])
      invariant errs == [] ==> names == Elements(Names(ps[..i])) && ids == Elements(Ids(ps[..i]))
    {
      ProfilesSnoc(ps[..i], ps[i]);
      assert ps[..i + 1] == ps[..i] + [ps[i]];
      var more;
      more, names := ValidateName(ps[i].name, names);
      errs := errs + more;
      if |ps[i].backends| == 0 { errs := errs + [Required("backends")]; }
      more, ids := ValidateBackends(ps[i].backends, ids, Ids(ps[..i]));
      errs := errs + more;
    }
    assert ps[..|ps|] == ps;
  }

  lemma ClassesSnoc(cs: seq<Class>, c: Class)
    ensures ValidClasses(cs + [c]) <==>
            ValidClasses(cs) && c.name != "" && ValidConstraints(c.constraints) && c.name !in Elements(ClassNames(cs))
    ensures Elements(ClassNames(cs + [c])) == Elements(ClassNames(cs)) + {c.name}
  {
    assert ClassNames(cs + [c]) == ClassNames(cs) + [c.name];
    DistinctSnoc(ClassNames(cs), c.name);
    ElementsSnoc(ClassNames(cs), c.name);
  }

  method ValidateClasses(cs: seq<Class>) returns (errs: seq<Problem>)
    ensures errs == [] <==> ValidClasses(cs)
  {
    errs := [];
    var names := {};
    for i := 0 to |cs|
      invariant errs == [] <==> ValidClasses(cs[..i])
      invariant errs == [] ==> names == Elements(ClassNames(cs[..i]))
    {
      ClassesSnoc(cs[..i], cs[i]);
      assert cs[..i + 1] == cs[..i] + [cs[i]];
      if cs[i].name == "" {
        errs := errs + [Required("name")];
      } else {
        if cs[i].name in names { errs := errs + [Duplicate("name")]; }
        names := names + {cs[i].name};
      }
      var more := ValidateConstraints(cs[i].constraints);
      errs := errs + more;
    }
    assert cs[..|cs|] == cs;
  }

  lemma ProvisionersSnoc(ps: seq<Provisioner>, p: Provisioner)
    ensures ValidProvisioners(ps + [p]) <==>
            && ValidProvisioners(ps) && p.typ != "" && p.provisioner != "" && ValidClasses(p.classes)
            && p.typ !in Elements(Types(ps))
    ensures Elements(Types(ps + [p])) == Elements(Types(ps)) + {p.typ}
  {
    assert Types(ps + [p]) == Types(ps) + [p.typ];
    DistinctSnoc(Types(ps), p.typ);
    ElementsSnoc(Types(ps), p.typ);
  }

  method ValidateProvisioners(ps: seq<Provisioner>) returns (errs: seq<Problem>)
    ensures errs == [] <==> ValidProvisioners(ps)
  {
    errs := [];
    var types := {};
    for i := 0 to |ps|
      invariant errs == [] <==> ValidProvisioners(ps[..i])
      invariant errs == [] ==> types == Elements(Types(ps[..i]))
    {
      ProvisionersSnoc(ps[..i], ps[i]);
      assert ps[..i + 1] == ps[..i] + [ps[i]];
      if ps[i].typ == "" {
        errs := errs + [Required("type")];
      } else {
        if ps[i].typ in types { errs := errs + [Duplicate("type")]; }
        types := types + {ps[i].typ};
      }
      if ps[i].provisioner == "" { errs := errs + [Required("provisioner")]; }
      var more := ValidateClasses(ps[i].classes);
      errs := errs + more;
    }
    assert ps[..|ps|] == ps;
  }

  method ValidateDefaults(profile: string, selectors: seq<Selector>) returns (errs: seq<Problem>)
    ensures errs == [] <==> ValidDefaults(profile, selectors)
  {
    errs := [];
    if profile == "" { errs := errs + [Required("profile")]; }
    for i := 0 to |selectors|
      invariant errs == [] <==> ValidDefaults(profile, selectors[..i])
    {
      assert selectors[..i + 1] == selectors[..i] + [selectors[i]];
      if |selectors[i].labels| == 0 && |selectors[i].expressions| == 0 { errs := errs + [Required("selectors")]; }
      var more := ValidateConstraints(selectors[i].constraints);
      errs := errs + more;
    }
    assert selectors[..|selectors|] == selectors;
  }

  method ValidateReferences(c: Config) returns (errs: seq<Problem>)
    ensures errs == [] <==> ValidReferences(c)
  {
    errs := [];
    var names := {};
    for i := 0 to |c.profiles|
      invariant names == Elements(Names(c.profiles[..i]))
    {
      assert Names(c.profiles[..i + 1]) == Names(c.profiles[..i]) + [c.profiles[i].name];
      ElementsSnoc(Names(c.profiles[..i]), c.profiles[i].name);
      names := names + {c.profiles[i].name};
    }
    assert c.profiles[..|c.profiles|] == c.profiles;
    if c.defaultProfile != "" && c.defaultProfile !in names { errs := errs + [NotFound("profile")]; }
    ghost var first := errs == [];
    for i := 0 to |c.selectors|
      invariant errs == [] <==> first && forall s :: s in c.selectors[..i] ==>
          s.profile == "" || s.profile in Names(c.profiles)
    {
      assert c.selectors[..i + 1] == c.selectors[..i] + [c.selectors[i]];
      if c.selectors[i].profile != "" && c.selectors[i].profile !in names { errs := errs + [NotFound("selectors")]; }
    }
    assert c.selectors[..|c.selectors|] == c.selectors;
    var more := ValidateDefaultClasses(c.provisioners);
    errs := errs + more;
  }

  method ValidateDefaultClasses(ps: seq<Provisioner>) returns (errs: seq<Problem>)
    ensures errs == [] <==> forall p :: p in ps ==> ValidDefaultClass(p)
  {
    errs := [];
    for i := 0 to |ps|
      invariant errs == [] <==> forall p :: p in ps[..i] ==> ValidDefaultClass(p)
    {
      var p := ps[i];
      assert ps[..i + 1] == ps[..i] + [p];
      var found := true;
      if p.defaults.Some? && p.defaults.value.klass != "" { found := ClassExists(p.classes, p.defaults.value.klass); }
      assert found <==> ValidDefaultClass(p);
      if !found { errs := errs + [NotFound("class")]; }
    }
    assert ps[..|ps|] == ps;
  }

  method ClassExists(cs: seq<Class>, name: string) returns (found: bool)
    ensures found <==> name in ClassNames(cs)
  {
    for i := 0 to |cs|
      invariant forall j :: 0 <= j < i ==> cs[j].name != name
    {
      if cs[i].name == name {
        assert ClassNames(cs)[i] == name;
        return true;
      }
    }
    found := false;
  }

  /** Two backends at different places. */
  predicate Elsewhere(c: Config, i: int, j: int, k: int, l: int) {
    && 0 <= i < |c.profiles| && 0 <= j < |c.profiles[i].backends|
    && 0 <= k < |c.profiles| && 0 <= l < |c.profiles[k].backends| && (i < k || (i == k && j < l))
  }

  lemma {:induction false} IdAt(ps: seq<Profile>, i: nat, j: nat) returns (at: nat)
    requires i < |ps| && j < |ps[i].backends|
    ensures at < |Ids(ps)| && Ids(ps)[at] == ps[i].backends[j].id
    ensures |Ids(ps[..i])| + j == at
    decreases |ps|
  {
    var init := ps[..|ps| - 1];
    if i < |init| {
      at := IdAt(init, i, j);
      assert init[..i] == ps[..i];
    } else {
      at := |Ids(init)| + j;
    }
  }

  lemma {:induction false} IdsGrow(ps: seq<Profile>, i: nat, k: nat)
    requires i < k <= |ps|
    ensures |Ids(ps[..i])| + |ps[i].backends| <= |Ids(ps[..k])|
    decreases k
  {
    assert ps[..k][..k - 1] == ps[..k - 1];
    if i < k - 1 { IdsGrow(ps, i, k - 1); }
  }

  /** What a valid configuration promises, place by place. */
  lemma ValidMeans(c: Config)
    requires Valid(c)
    ensures c.apiVersion == "score.dev/v1b1" && c.kind == "OrchestratorConfig" && c.name != "" && c.profiles != []
    ensures exists i :: 0 <= i < |c.profiles| && c.profiles[i].name == c.defaultProfile
    ensures forall i :: 0 <= i < |c.profiles| ==> c.profiles[i].backends != [] && DnsLabel(c.profiles[i].name)
    ensures forall i, k :: 0 <= i < k < |c.profiles| ==> c.profiles[i].name != c.profiles[k].name
    ensures forall i, j, k, l :: Elsewhere(c, i, j, k, l) ==>
              c.profiles[i].backends[j].id != c.profiles[k].backends[l].id
    ensures forall s :: s in c.selectors ==> s.labels != map[] || s.expressions != []
    ensures forall p :: p in c.provisioners ==> p.typ != "" && p.provisioner != ""
  {
    var names := Names(c.profiles);
    var i :| 0 <= i < |names| && names[i] == c.defaultProfile;
    assert c.profiles[i].name == c.defaultProfile;
    forall i | 0 <= i < |c.profiles| ensures c.profiles[i].backends != [] && DnsLabel(c.profiles[i].name) {
      assert ValidProfile(c.profiles[i]);
    }
    forall i, k | 0 <= i < k < |c.profiles| ensures c.profiles[i].name != c.profiles[k].name {
      assert names[i] != names[k];
    }
    forall i, j, k, l | Elsewhere(c, i, j, k, l)
      ensures c.profiles[i].backends[j].id != c.profiles[k].backends[l].id
    {
      IdsApart(c, i, j, k, l);
    }
  }

  lemma IdsApart(c: Config, i: int, j: int, k: int, l: int)
    requires Distinct(Ids(c.profiles)) && Elsewhere(c, i, j, k, l)
    ensures c.profiles[i].backends[j].id != c.profiles[k].backends[l].id
  {
    var a := IdAt(c.profiles, i, j);
    var b := IdAt(c.profiles, k, l);
    if i < k { IdsGrow(c.profiles, i, k); }
  }

  /** No error is reported exactly when the configuration is valid. */
  method Validate(c: Config) returns (errs: seq<Problem>)
    ensures errs == [] <==> Valid(c)
  {
    errs := [];
    if c.apiVersion != "score.dev/v1b1" { errs := errs + [Invalid("apiVersion")]; }
    if c.kind != "OrchestratorConfig" { errs := errs + [Invalid("kind")]; }
    if c.name == "" { errs := errs + [Required("name")]; }
    var more := ValidateProfiles(c.profiles);
    errs := errs + more;
    more := ValidateProvisioners(c.provisioners);
    errs := errs + more;
    more := ValidateDefaults(c.defaultProfile, c.selectors);
    errs := errs + more;
    more := ValidateReferences(c);
    errs := errs + more;
  }
}
