/** A configuration as it lies on the heap, and its deep copy. Structs are values; what they
    point to, slices, maps and pointers, are objects that whoever holds them can change. A nil
    slice or map is null, and has the same contents as an empty one. */
module ConfigObjects {
  import opened Api
  import opened Config

  class RawExtension {
    var raw: array?<char>

    constructor (raw: array?<char>)
      ensures this.raw == raw
    {
      this.raw := raw;
    }
  }

  class ResourceConstraints {
    var cpu: string
    var memory: string
    var storage: string

    constructor (cpu: string, memory: string, storage: string)
      ensures this.cpu == cpu && this.memory == memory && this.storage == storage
    {
      this.cpu, this.memory, this.storage := cpu, memory, storage;
    }
  }

  class LabelMap {
    var entries: map<string, string>

    constructor ()
      ensures entries == map[]
    {
      entries := map[];
    }
  }

  datatype RequirementSpec = RequirementSpec(key: string, operator: string, values: array?<string>)

  datatype SelectorSpec = SelectorSpec(
    labels: LabelMap?, expressions: array?<RequirementSpec>, profile: string, constraints: ConstraintsSpec?)

  class ConstraintsSpec {
    var selectors: array?<SelectorSpec>
    var features: array?<string>
    var regions: array?<string>
    var resources: ResourceConstraints?

    constructor (selectors: array?<SelectorSpec>, features: array?<string>, regions: array?<string>,
        resources: ResourceConstraints?)
      ensures this.selectors == selectors && this.features == features && this.regions == regions
          && this.resources == resources
    {
      this.selectors, this.features, this.regions, this.resources := selectors, features, regions, resources;
    }
  }

  datatype TemplateSpec = TemplateSpec(kind: string, ref: string, values: RawExtension?)

  datatype BackendSpec = BackendSpec(
    id: string, runtimeClass: string, template: TemplateSpec, priority: int, version: string,
    constraints: ConstraintsSpec?)

  datatype ProfileSpec = ProfileSpec(name: string, description: string, backends: array?<BackendSpec>)

  datatype ClassSpec = ClassSpec(name: string, description: string, parameters: RawExtension?,
      constraints: ConstraintsSpec?)

  class DefaultsObject {
    var klass: string
    var params: RawExtension?

    constructor (klass: string, params: RawExtension?)
      ensures this.klass == klass && this.params == params
    {
      this.klass, this.params := klass, params;
    }
  }

  datatype ProvisionerSpec = ProvisionerSpec(typ: string, provisioner: string, classes: array?<ClassSpec>,
      defaults: DefaultsObject?)

  datatype DefaultsSpec = DefaultsSpec(profile: string, selectors: array?<SelectorSpec>)

  class OrchestratorConfig {
    var apiVersion: string
    var kind: string
    var name: string
    var version: string
    var profiles: array?<ProfileSpec>
    var provisioners: array?<ProvisionerSpec>
    var defaults: DefaultsSpec
    var reconciler: RawExtension?

    constructor (apiVersion: string, kind: string, name: string, version: string,
                 defaults: DefaultsSpec, profiles: array?<ProfileSpec>, provisioners: array?<ProvisionerSpec>)
      ensures this.apiVersion == apiVersion && this.kind == kind && this.name == name && this.version == version
      ensures this.defaults == defaults && this.profiles == profiles && this.provisioners == provisioners
          && reconciler == null
    {
      this.apiVersion, this.kind, this.name, this.version := apiVersion, kind, name, version;
      this.defaults, this.profiles, this.provisioners, reconciler := defaults, profiles, provisioners, null;
    }
  }

  // ---------------------------------------------------------------- what the objects hold

  // Each predicate says that the object holds the value and that everything it points to, at
  // any depth, lies in `r`.

  ghost predicate HoldsText(a: array?<char>, v: string, r: set<object>)
    reads r
  {
    if a == null then v == [] else a in r && a[..] == v
  }

  ghost predicate HoldsRaw(x: RawExtension?, v: Option<string>, r: set<object>)
    reads r
  {
    if x == null then v.None? else v.Some? && x in r && HoldsText(x.raw, v.value, r)
  }

  ghost predicate HoldsStrings(a: array?<string>, v: seq<string>, r: set<object>)
    reads r
  {
    if a == null then v == [] else a in r && a[..] == v
  }

  ghost predicate HoldsResources(x: ResourceConstraints?, v: Option<Resources>, r: set<object>)
    reads r
  {
    if x == null then v.None? else x in r && v == Some(Resources(x.cpu, x.memory, x.storage))
  }

  ghost predicate HoldsLabels(m: LabelMap?, v: map<string, string>, r: set<object>)
    reads r
  {
    if m == null then v == map[] else m in r && m.entries == v
  }

  ghost predicate HoldsRequirement(s: RequirementSpec, v: Requirement, r: set<object>)
    reads r
  {
    s.key == v.key && s.operator == v.operator && HoldsStrings(s.values, v.values, r)
  }

  ghost predicate HoldsRequirements(a: array?<RequirementSpec>, v: seq<Requirement>, r: set<object>)
    reads r
  {
    if a == null then v == [] else a in r && a.Length == |v| && forall i :: 0 <= i < |v| ==>
        HoldsRequirement(a[i], v[i], r)
  }

  ghost predicate HoldsSelector(s: SelectorSpec, v: Selector, r: set<object>)
    reads r
    decreases v
  {
    && HoldsLabels(s.labels, v.labels, r) && HoldsRequirements(s.expressions, v.expressions, r)
       && s.profile == v.profile
    && if s.constraints == null then v.constraints.None?
       else v.constraints.Some? && HoldsConstraints(s.constraints, v.constraints.value, r)
  }

  ghost predicate HoldsConstraints(c: ConstraintsSpec, v: Constraints, r: set<object>)
    reads r
    decreases v
  {
    && c in r && HoldsStrings(c.features, v.features, r) && HoldsStrings(c.regions, v.regions, r)
    && HoldsResources(c.resources, v.resources, r) && HoldsSelectors(c.selectors, v.selectors, r)
  }

  ghost predicate HoldsSelectors(a: array?<SelectorSpec>, v: seq<Selector>, r: set<object>)
    reads r
    decreases v
  {
    if a == null then v == [] else a in r && a.Length == |v| && forall i :: 0 <= i < |v| ==>
        HoldsSelector(a[i], v[i], r)
  }

  ghost predicate HoldsLimits(c: ConstraintsSpec?, v: Option<Constraints>, r: set<object>)
    reads r
  {
    if c == null then v.None? else v.Some? && HoldsConstraints(c, v.value, r)
  }

  ghost predicate HoldsTemplate(t: TemplateSpec, v: Template, r: set<object>)
    reads r
  {
    t.kind == v.kind && t.ref == v.ref && HoldsRaw(t.values, v.values, r)
  }

  ghost predicate HoldsBackend(b: BackendSpec, v: Backend, r: set<object>)
    reads r
  {
    && b.id == v.id && b.runtimeClass == v.runtimeClass && b.priority == v.priority && b.version == v.version
    && HoldsTemplate(b.template, v.template, r) && HoldsLimits(b.constraints, v.constraints, r)
  }

  ghost predicate HoldsBackends(a: array?<BackendSpec>, v: seq<Backend>, r: set<object>)
    reads r
  {
    if a == null then v == [] else a in r && a.Length == |v| && forall i :: 0 <= i < |v| ==> HoldsBackend(a[i], v[i], r)
  }

  ghost predicate HoldsProfile(p: ProfileSpec, v: Profile, r: set<object>)
    reads r
  {
    p.name == v.name && p.description == v.description && HoldsBackends(p.backends, v.backends, r)
  }

  ghost predicate HoldsProfiles(a: array?<ProfileSpec>, v: seq<Profile>, r: set<object>)
    reads r
  {
    if a == null then v == [] else a in r && a.Length == |v| && forall i :: 0 <= i < |v| ==> HoldsProfile(a[i], v[i], r)
  }

  ghost predicate HoldsClass(c: ClassSpec, v: Class, r: set<object>)
    reads r
  {
    && c.name == v.name && c.description == v.description
    && HoldsRaw(c.parameters, v.parameters, r) && HoldsLimits(c.constraints, v.constraints, r)
  }

  ghost predicate HoldsClasses(a: array?<ClassSpec>, v: seq<Class>, r: set<object>)
    reads r
  {
    if a == null then v == [] else a in r && a.Length == |v| && forall i :: 0 <= i < |v| ==> HoldsClass(a[i], v[i], r)
  }

  ghost predicate HoldsChoice(d: DefaultsObject?, v: Option<ProvisionerDefaults>, r: set<object>)
    reads r
  {
    if d == null then v.None?
    else v.Some? && d in r && d.klass == v.value.klass && HoldsRaw(d.params, v.value.params, r)
  }

  ghost predicate HoldsProvisioner(p: ProvisionerSpec, v: Provisioner, r: set<object>)
    reads r
  {
    && p.typ == v.typ && p.provisioner == v.provisioner
    && HoldsClasses(p.classes, v.classes, r) && HoldsChoice(p.defaults, v.defaults, r)
  }

  ghost predicate HoldsProvisioners(a: array?<ProvisionerSpec>, v: seq<Provisioner>, r: set<object>)
    reads r
  {
    if a == null then v == [] else a in r && a.Length == |v| && forall i :: 0 <= i < |v| ==>
        HoldsProvisioner(a[i], v[i], r)
  }

  ghost predicate HoldsConfig(c: OrchestratorConfig, v: Config, r: set<object>)
    reads r
  {
    && c in r && c.apiVersion == v.apiVersion && c.kind == v.kind && c.name == v.name && c.version == v.version
    && HoldsProfiles(c.profiles, v.profiles, r) && HoldsProvisioners(c.provisioners, v.provisioners, r)
    && c.defaults.profile == v.defaultProfile && HoldsSelectors(c.defaults.selectors, v.selectors, r)
    && HoldsRaw(c.reconciler, v.reconciler, r)
  }

  // ---------------------------------------------------------------- one value only

  lemma {:induction false} SelectorHoldsOne(s: SelectorSpec, v: Selector, r: set<object>, v': Selector, r': set<object>)
    requires HoldsSelector(s, v, r) && HoldsSelector(s, v', r')
    ensures v == v'
    decreases v
  {
    RequirementsHoldOne(s.expressions, v.expressions, r, v'.expressions, r');
    if s.constraints != null { ConstraintsHoldOne(s.constraints, v.constraints.value, r, v'.constraints.value, r'); }
  }

  lemma RequirementsHoldOne(a: array?<RequirementSpec>, v: seq<Requirement>, r: set<object>, v': seq<Requirement>,
      r': set<object>)
    requires HoldsRequirements(a, v, r) && HoldsRequirements(a, v', r')
    ensures v == v'
  {
    if a != null {
      assert forall i :: 0 <= i < |v| ==> HoldsRequirement(a[i], v[i], r) && HoldsRequirement(a[i], v'[i], r');
    }
  }

  lemma {:induction false} ConstraintsHoldOne(c: ConstraintsSpec, v: Constraints, r: set<object>, v': Constraints,
      r': set<object>)
    requires HoldsConstraints(c, v, r) && HoldsConstraints(c, v', r')
    ensures v == v'
    decreases v
  {
    SelectorsHoldOne(c.selectors, v.selectors, r, v'.selectors, r');
  }

  lemma {:induction false} SelectorsHoldOne(a: array?<SelectorSpec>, v: seq<Selector>, r: set<object>,
      v': seq<Selector>, r': set<object>)
    requires HoldsSelectors(a, v, r) && HoldsSelectors(a, v', r')
    ensures v == v'
    decreases v
  {
    if a != null {
      forall i | 0 <= i < |v| ensures v[i] == v'[i] {
        SelectorHoldsOne(a[i], v[i], r, v'[i], r');
      }
    }
  }

  lemma LimitsHoldOne(c: ConstraintsSpec?, v: Option<Constraints>, r: set<object>, v': Option<Constraints>,
      r': set<object>)
    requires HoldsLimits(c, v, r) && HoldsLimits(c, v', r')
    ensures v == v'
  {
    if c != null { ConstraintsHoldOne(c, v.value, r, v'.value, r'); }
  }

  lemma ProfileHoldsOne(p: ProfileSpec, v: Profile, r: set<object>, v': Profile, r': set<object>)
    requires HoldsProfile(p, v, r) && HoldsProfile(p, v', r')
    ensures v == v'
  {
    if p.backends != null {
      forall i | 0 <= i < |v.backends| ensures v.backends[i] == v'.backends[i] {
        assert HoldsBackend(p.backends[i], v.backends[i], r) && HoldsBackend(p.backends[i], v'.backends[i], r');
        LimitsHoldOne(p.backends[i].constraints, v.backends[i].constraints, r, v'.backends[i].constraints, r');
      }
    }
    assert v.backends == v'.backends;
  }

  lemma ProvisionerHoldsOne(p: ProvisionerSpec, v: Provisioner, r: set<object>, v': Provisioner, r': set<object>)
    requires HoldsProvisioner(p, v, r) && HoldsProvisioner(p, v', r')
    ensures v == v'
  {
    if p.classes != null {
      forall i | 0 <= i < |v.classes| ensures v.classes[i] == v'.classes[i] {
        assert HoldsClass(p.classes[i], v.classes[i], r) && HoldsClass(p.classes[i], v'.classes[i], r');
        LimitsHoldOne(p.classes[i].constraints, v.classes[i].constraints, r, v'.classes[i].constraints, r');
      }
    }
    assert v.classes == v'.classes;
  }

  /** An object holds one configuration only. */
  lemma ConfigHoldsOne(c: OrchestratorConfig, v: Config, r: set<object>, v': Config, r': set<object>)
    requires HoldsConfig(c, v, r) && HoldsConfig(c, v', r')
    ensures v == v'
  {
    if c.profiles != null {
      forall i | 0 <= i < |v.profiles| ensures v.profiles[i] == v'.profiles[i] {
        ProfileHoldsOne(c.profiles[i], v.profiles[i], r, v'.profiles[i], r');
      }
    }
    assert v.profiles == v'.profiles;
    if c.provisioners != null {
      forall i | 0 <= i < |v.provisioners| ensures v.provisioners[i] == v'.provisioners[i] {
        ProvisionerHoldsOne(c.provisioners[i], v.provisioners[i], r, v'.provisioners[i], r');
      }
    }
    assert v.provisioners == v'.provisioners;
    SelectorsHoldOne(c.defaults.selectors, v.selectors, r, v'.selectors, r');
  }

  // ---------------------------------------------------------------- larger footprints

  lemma {:induction false} SelectorGrows(s: SelectorSpec, v: Selector, r: set<object>, r': set<object>)
    requires HoldsSelector(s, v, r) && r <= r'
    ensures HoldsSelector(s, v, r')
    decreases v
  {
    if s.constraints != null { ConstraintsGrow(s.constraints, v.constraints.value, r, r'); }
  }

  lemma {:induction false} ConstraintsGrow(c: ConstraintsSpec, v: Constraints, r: set<object>, r': set<object>)
    requires HoldsConstraints(c, v, r) && r <= r'
    ensures HoldsConstraints(c, v, r')
    decreases v
  {
    SelectorsGrow(c.selectors, v.selectors, r, r');
  }

  lemma {:induction false} SelectorsGrow(a: array?<SelectorSpec>, v: seq<Selector>, r: set<object>, r': set<object>)
    requires HoldsSelectors(a, v, r) && r <= r'
    ensures HoldsSelectors(a, v, r')
    decreases v
  {
    if a != null {
      forall i | 0 <= i < |v| ensures HoldsSelector(a[i], v[i], r') {
        SelectorGrows(a[i], v[i], r, r');
      }
    }
  }

  /** The first `n` elements are in place. */
  ghost predicate SelectorsTo(a: array<SelectorSpec>, n: nat, v: seq<Selector>, r: set<object>)
    reads a, r
  {
    n <= a.Length && n <= |v| && forall i :: 0 <= i < n ==> HoldsSelector(a[i], v[i], r)
  }

  lemma PrefixGrows(a: array<SelectorSpec>, n: nat, v: seq<Selector>, r: set<object>, r': set<object>)
    requires SelectorsTo(a, n, v, r) && r <= r'
    ensures SelectorsTo(a, n, v, r')
  {
    forall i | 0 <= i < n ensures HoldsSelector(a[i], v[i], r') {
      SelectorGrows(a[i], v[i], r, r');
    }
  }

  lemma LimitsGrow(c: ConstraintsSpec?, v: Option<Constraints>, r: set<object>, r': set<object>)
    requires HoldsLimits(c, v, r) && r <= r'
    ensures HoldsLimits(c, v, r')
  {
    if c != null { ConstraintsGrow(c, v.value, r, r'); }
  }

  lemma BackendGrows(b: BackendSpec, v: Backend, r: set<object>, r': set<object>)
    requires HoldsBackend(b, v, r) && r <= r'
    ensures HoldsBackend(b, v, r')
  {
    LimitsGrow(b.constraints, v.constraints, r, r');
  }

  /** The first `n` elements are in place. */
  ghost predicate BackendsTo(a: array<BackendSpec>, n: nat, v: seq<Backend>, r: set<object>)
    reads a, r
  {
    n <= a.Length && n <= |v| && forall i :: 0 <= i < n ==> HoldsBackend(a[i], v[i], r)
  }

  lemma BackendsGrow(a: array<BackendSpec>, n: nat, v: seq<Backend>, r: set<object>, r': set<object>)
    requires BackendsTo(a, n, v, r) && r <= r'
    ensures BackendsTo(a, n, v, r')
  {
    forall i | 0 <= i < n ensures HoldsBackend(a[i], v[i], r') {
      BackendGrows(a[i], v[i], r, r');
    }
  }

  lemma ProfileGrows(p: ProfileSpec, v: Profile, r: set<object>, r': set<object>)
    requires HoldsProfile(p, v, r) && r <= r'
    ensures HoldsProfile(p, v, r')
  {
    if p.backends != null { BackendsGrow(p.backends, |v.backends|, v.backends, r, r'); }
  }

  /** The first `n` elements are in place. */
  ghost predicate ProfilesTo(a: array<ProfileSpec>, n: nat, v: seq<Profile>, r: set<object>)
    reads a, r
  {
    n <= a.Length && n <= |v| && forall i :: 0 <= i < n ==> HoldsProfile(a[i], v[i], r)
  }

  lemma ProfilesGrow(a: array<ProfileSpec>, n: nat, v: seq<Profile>, r: set<object>, r': set<object>)
    requires ProfilesTo(a, n, v, r) && r <= r'
    ensures ProfilesTo(a, n, v, r')
  {
    forall i | 0 <= i < n ensures HoldsProfile(a[i], v[i], r') {
      ProfileGrows(a[i], v[i], r, r');
    }
  }

  lemma ClassGrows(c: ClassSpec, v: Class, r: set<object>, r': set<object>)
    requires HoldsClass(c, v, r) && r <= r'
    ensures HoldsClass(c, v, r')
  {
    LimitsGrow(c.constraints, v.constraints, r, r');
  }

  /** The first `n` elements are in place. */
  ghost predicate ClassesTo(a: array<ClassSpec>, n: nat, v: seq<Class>, r: set<object>)
    reads a, r
  {
    n <= a.Length && n <= |v| && forall i :: 0 <= i < n ==> HoldsClass(a[i], v[i], r)
  }

  lemma ClassesGrow(a: array<ClassSpec>, n: nat, v: seq<Class>, r: set<object>, r': set<object>)
    requires ClassesTo(a, n, v, r) && r <= r'
    ensures ClassesTo(a, n, v, r')
  {
    forall i | 0 <= i < n ensures HoldsClass(a[i], v[i], r') {
      ClassGrows(a[i], v[i], r, r');
    }
  }

  lemma ProvisionerGrows(p: ProvisionerSpec, v: Provisioner, r: set<object>, r': set<object>)
    requires HoldsProvisioner(p, v, r) && r <= r'
    ensures HoldsProvisioner(p, v, r')
  {
    if p.classes != null { ClassesGrow(p.classes, |v.classes|, v.classes, r, r'); }
  }

  /** The first `n` elements are in place. */
  ghost predicate ProvisionersTo(a: array<ProvisionerSpec>, n: nat, v: seq<Provisioner>, r: set<object>)
    reads a, r
  {
    n <= a.Length && n <= |v| && forall i :: 0 <= i < n ==> HoldsProvisioner(a[i], v[i], r)
  }

  lemma ProvisionersGrow(a: array<ProvisionerSpec>, n: nat, v: seq<Provisioner>, r: set<object>, r': set<object>)
    requires ProvisionersTo(a, n, v, r) && r <= r'
    ensures ProvisionersTo(a, n, v, r')
  {
    forall i | 0 <= i < n ensures HoldsProvisioner(a[i], v[i], r') {
      ProvisionerGrows(a[i], v[i], r, r');
    }
  }

  // ---------------------------------------------------------------- copies

  // Every copy holds the same value in objects of its own: whatever it points to is new.

  method CopyText(a: array?<char>, ghost v: string, ghost q: set<object>)
    returns (c: array?<char>, ghost r: set<object>)
    requires HoldsText(a, v, q)
    ensures fresh(r) && HoldsText(c, v, r)
  {
    c, r := null, {};
    if a != null {
      c := new char[a.Length];
      for i := 0 to a.Length
        invariant c[..i] == a[..i]
      {
        c[i] := a[i];
      }
      r := {c};
    }
  }

  method DeepCopyRaw(x: RawExtension?, ghost v: Option<string>, ghost q: set<object>)
    returns (c: RawExtension?, ghost r: set<object>)
    requires HoldsRaw(x, v, q)
    ensures fresh(r) && HoldsRaw(c, v, r)
  {
    c, r := null, {};
    if x != null {
      var raw;
      raw, r := CopyText(x.raw, v.value, q);
      c := new RawExtension(raw);
      r := r + {c};
    }
  }

  method CopyStrings(a: array?<string>, ghost v: seq<string>, ghost q: set<object>)
    returns (c: array?<string>, ghost r: set<object>)
    requires HoldsStrings(a, v, q)
    ensures fresh(r) && HoldsStrings(c, v, r)
  {
    c, r := null, {};
    if a != null && a.Length > 0 {
      c := new string[a.Length];
      for i := 0 to a.Length
        invariant c[..i] == a[..i]
      {
        c[i] := a[i];
      }
      r := {c};
    }
  }

  method CopyLabels(m: LabelMap?, ghost v: map<string, string>, ghost q: set<object>)
    returns (c: LabelMap?, ghost r: set<object>)
    requires HoldsLabels(m, v, q)
    ensures fresh(r) && HoldsLabels(c, v, r)
  {
    c, r := null, {};
    if m != null {
      c := new LabelMap();
      r := {c};
      var rest := m.entries.Keys;
      while rest != {}
        invariant rest <= m.entries.Keys
        invariant c.entries == map k | k in m.entries && k !in rest :: m.entries[k]
        decreases |rest|
      {
        var k :| k in rest;
        c.entries := c.entries[k := m.entries[k]];
        rest := rest - {k};
      }
    }
  }

  method CopyRequirements(a: array?<RequirementSpec>, ghost v: seq<Requirement>, ghost q: set<object>)
    returns (c: array?<RequirementSpec>, ghost r: set<object>)
    requires HoldsRequirements(a, v, q)
    ensures fresh(r) && HoldsRequirements(c, v, r)
  {
    c, r := null, {};
    if a != null && a.Length > 0 {
      c := new RequirementSpec[a.Length];
      for i := 0 to a.Length
        invariant fresh(r) && c !in r
        invariant forall j :: 0 <= j < i ==> HoldsRequirement(c[j], v[j], r)
      {
        var values;
        ghost var more;
        assert HoldsRequirement(a[i], v[i], q);
        values, more := CopyStrings(a[i].values, v[i].values, q);
        c[i] := RequirementSpec(a[i].key, a[i].operator, values);
        r := r + more;
      }
      r := r + {c};
    }
  }

  method DeepCopySelector(s: SelectorSpec, ghost v: Selector, ghost q: set<object>)
    returns (c: SelectorSpec, ghost r: set<object>)
    requires HoldsSelector(s, v, q)
    ensures fresh(r) && HoldsSelector(c, v, r)
    decreases v
  {
    var labels, expressions;
    ghost var more;
    labels, r := CopyLabels(s.labels, v.labels, q);
    expressions, more := CopyRequirements(s.expressions, v.expressions, q);
    r := r + more;
    c := SelectorSpec(labels, expressions, s.profile, null);
    if s.constraints != null {
      var constraints;
      constraints, more := DeepCopyConstraints(s.constraints, v.constraints.value, q);
      ConstraintsGrow(constraints, v.constraints.value, more, r + more);
      c := c.(constraints := constraints);
      r := r + more;
    }
  }

  method StoreSelector(c: array<SelectorSpec>, i: nat, s: SelectorSpec, ghost v: seq<Selector>, ghost r: set<object>)
    requires i < c.Length && i < |v| && c !in r && HoldsSelector(s, v[i], r) && SelectorsTo(c, i, v, r)
    modifies c
    ensures SelectorsTo(c, i + 1, v, r)
  {
    c[i] := s;
  }

  method CopySelectors(a: array?<SelectorSpec>, ghost v: seq<Selector>, ghost q: set<object>)
    returns (c: array?<SelectorSpec>, ghost r: set<object>)
    requires HoldsSelectors(a, v, q)
    ensures fresh(r) && HoldsSelectors(c, v, r)
    decreases v
  {
    c, r := null, {};
    if a != null && a.Length > 0 {
      c := new SelectorSpec[a.Length];
      for i := 0 to a.Length
        invariant fresh(r) && c !in r
        invariant SelectorsTo(c, i, v, r)
      {
        var s;
        ghost var more;
        s, more := DeepCopySelector(a[i], v[i], q);
        ghost var r' := r + more;
        SelectorGrows(s, v[i], more, r');
        PrefixGrows(c, i, v, r, r');
        StoreSelector(c, i, s, v, r');
        r := r';
      }
      PrefixGrows(c, |v|, v, r, r + {c});
      r := r + {c};
    }
  }

  method CopyResources(x: ResourceConstraints?, ghost v: Option<Resources>, ghost q: set<object>)
    returns (c: ResourceConstraints?, ghost r: set<object>)
    requires HoldsResources(x, v, q)
    ensures fresh(r) && HoldsResources(c, v, r)
  {
    c, r := null, {};
    if x != null {
      c := new ResourceConstraints(x.cpu, x.memory, x.storage);
      r := {c};
    }
  }

  method DeepCopyConstraints(o: ConstraintsSpec, ghost v: Constraints, ghost q: set<object>)
    returns (c: ConstraintsSpec, ghost r: set<object>)
    requires HoldsConstraints(o, v, q)
    ensures fresh(r) && HoldsConstraints(c, v, r)
    decreases v
  {
    var selectors, features, regions, resources;
    ghost var r1, r2, r3, r4;
    selectors, r1 := CopySelectors(o.selectors, v.selectors, q);
    features, r2 := CopyStrings(o.features, v.features, q);
    regions, r3 := CopyStrings(o.regions, v.regions, q);
    resources, r4 := CopyResources(o.resources, v.resources, q);
    c := new ConstraintsSpec(selectors, features, regions, resources);
    r := r1 + r2 + r3 + r4 + {c};
    SelectorsGrow(selectors, v.selectors, r1, r);
  }

  method CopyLimits(o: ConstraintsSpec?, ghost v: Option<Constraints>, ghost q: set<object>)
    returns (c: ConstraintsSpec?, ghost r: set<object>)
    requires HoldsLimits(o, v, q)
    ensures fresh(r) && HoldsLimits(c, v, r)
  {
    c, r := null, {};
    if o != null { c, r := DeepCopyConstraints(o, v.value, q); }
  }

  method DeepCopyTemplate(t: TemplateSpec, ghost v: Template, ghost q: set<object>)
    returns (c: TemplateSpec, ghost r: set<object>)
    requires HoldsTemplate(t, v, q)
    ensures fresh(r) && HoldsTemplate(c, v, r)
  {
    var values;
    values, r := DeepCopyRaw(t.values, v.values, q);
    c := TemplateSpec(t.kind, t.ref, values);
  }

  method DeepCopyBackend(b: BackendSpec, ghost v: Backend, ghost q: set<object>)
    returns (c: BackendSpec, ghost r: set<object>)
    requires HoldsBackend(b, v, q)
    ensures fresh(r) && HoldsBackend(c, v, r)
  {
    var template, constraints;
    ghost var r1, r2;
    template, r1 := DeepCopyTemplate(b.template, v.template, q);
    constraints, r2 := CopyLimits(b.constraints, v.constraints, q);
    c := BackendSpec(b.id, b.runtimeClass, template, b.priority, b.version, constraints);
    r := r1 + r2;
    LimitsGrow(constraints, v.constraints, r2, r);
  }

  method StoreBackend(c: array<BackendSpec>, i: nat, b: BackendSpec, ghost v: seq<Backend>, ghost r: set<object>)
    requires i < c.Length && i < |v| && c !in r && HoldsBackend(b, v[i], r) && BackendsTo(c, i, v, r)
    modifies c
    ensures BackendsTo(c, i + 1, v, r)
  {
    c[i] := b;
  }

  method CopyBackends(a: array?<BackendSpec>, ghost v: seq<Backend>, ghost q: set<object>)
    returns (c: array?<BackendSpec>, ghost r: set<object>)
    requires HoldsBackends(a, v, q)
    ensures fresh(r) && HoldsBackends(c, v, r)
  {
    c, r := null, {};
    if a != null && a.Length > 0 {
      c := new BackendSpec[a.Length];
      for i := 0 to a.Length
        invariant fresh(r) && c !in r
        invariant BackendsTo(c, i, v, r)
      {
        var b;
        ghost var more;
        b, more := DeepCopyBackend(a[i], v[i], q);
        ghost var r' := r + more;
        BackendGrows(b, v[i], more, r');
        BackendsGrow(c, i, v, r, r');
        StoreBackend(c, i, b, v, r');
        r := r';
      }
      BackendsGrow(c, |v|, v, r, r + {c});
      r := r + {c};
    }
  }

  method DeepCopyProfile(p: ProfileSpec, ghost v: Profile, ghost q: set<object>)
    returns (c: ProfileSpec, ghost r: set<object>)
    requires HoldsProfile(p, v, q)
    ensures fresh(r) && HoldsProfile(c, v, r)
  {
    var backends;
    backends, r := CopyBackends(p.backends, v.backends, q);
    c := ProfileSpec(p.name, p.description, backends);
  }

  method StoreProfile(c: array<ProfileSpec>, i: nat, p: ProfileSpec, ghost v: seq<Profile>, ghost r: set<object>)
    requires i < c.Length && i < |v| && c !in r && HoldsProfile(p, v[i], r) && ProfilesTo(c, i, v, r)
    modifies c
    ensures ProfilesTo(c, i + 1, v, r)
  {
    c[i] := p;
  }

  method CopyProfiles(a: array?<ProfileSpec>, ghost v: seq<Profile>, ghost q: set<object>)
    returns (c: array?<ProfileSpec>, ghost r: set<object>)
    requires HoldsProfiles(a, v, q)
    ensures fresh(r) && HoldsProfiles(c, v, r)
  {
    c, r := null, {};
    if a != null && a.Length > 0 {
      c := new ProfileSpec[a.Length];
      for i := 0 to a.Length
        invariant fresh(r) && c !in r
        invariant ProfilesTo(c, i, v, r)
      {
        var p;
        ghost var more;
        p, more := DeepCopyProfile(a[i], v[i], q);
        ghost var r' := r + more;
        ProfileGrows(p, v[i], more, r');
        ProfilesGrow(c, i, v, r, r');
        StoreProfile(c, i, p, v, r');
        r := r';
      }
      ProfilesGrow(c, |v|, v, r, r + {c});
      r := r + {c};
    }
  }

  method DeepCopyClass(o: ClassSpec, ghost v: Class, ghost q: set<object>) returns (c: ClassSpec, ghost r: set<object>)
    requires HoldsClass(o, v, q)
    ensures fresh(r) && HoldsClass(c, v, r)
  {
    var parameters, constraints;
    ghost var r1, r2;
    parameters, r1 := DeepCopyRaw(o.parameters, v.parameters, q);
    constraints, r2 := CopyLimits(o.constraints, v.constraints, q);
    c := ClassSpec(o.name, o.description, parameters, constraints);
    r := r1 + r2;
    LimitsGrow(constraints, v.constraints, r2, r);
  }

  method StoreClass(c: array<ClassSpec>, i: nat, o: ClassSpec, ghost v: seq<Class>, ghost r: set<object>)
    requires i < c.Length && i < |v| && c !in r && HoldsClass(o, v[i], r) && ClassesTo(c, i, v, r)
    modifies c
    ensures ClassesTo(c, i + 1, v, r)
  {
    c[i] := o;
  }

  method CopyClasses(a: array?<ClassSpec>, ghost v: seq<Class>, ghost q: set<object>)
    returns (c: array?<ClassSpec>, ghost r: set<object>)
    requires HoldsClasses(a, v, q)
    ensures fresh(r) && HoldsClasses(c, v, r)
  {
    c, r := null, {};
    if a != null && a.Length > 0 {
      c := new ClassSpec[a.Length];
      for i := 0 to a.Length
        invariant fresh(r) && c !in r
        invariant ClassesTo(c, i, v, r)
      {
        var o;
        ghost var more;
        o, more := DeepCopyClass(a[i], v[i], q);
        ghost var r' := r + more;
        ClassGrows(o, v[i], more, r');
        ClassesGrow(c, i, v, r, r');
        StoreClass(c, i, o, v, r');
        r := r';
      }
      ClassesGrow(c, |v|, v, r, r + {c});
      r := r + {c};
    }
  }

  method CopyChoice(d: DefaultsObject?, ghost v: Option<ProvisionerDefaults>, ghost q: set<object>)
    returns (c: DefaultsObject?, ghost r: set<object>)
    requires HoldsChoice(d, v, q)
    ensures fresh(r) && HoldsChoice(c, v, r)
  {
    c, r := null, {};
    if d != null {
      var params;
      params, r := DeepCopyRaw(d.params, v.value.params, q);
      c := new DefaultsObject(d.klass, params);
      r := r + {c};
    }
  }

  method DeepCopyProvisioner(p: ProvisionerSpec, ghost v: Provisioner, ghost q: set<object>)
    returns (c: ProvisionerSpec, ghost r: set<object>)
    requires HoldsProvisioner(p, v, q)
    ensures fresh(r) && HoldsProvisioner(c, v, r)
  {
    var classes, defaults;
    ghost var r1, r2;
    classes, r1 := CopyClasses(p.classes, v.classes, q);
    defaults, r2 := CopyChoice(p.defaults, v.defaults, q);
    c := ProvisionerSpec(p.typ, p.provisioner, classes, defaults);
    r := r1 + r2;
    ProvisionerGrows(c.(defaults := null), v.(defaults := None), r1, r);
  }

  method StoreProvisioner(c: array<ProvisionerSpec>, i: nat, p: ProvisionerSpec, ghost v: seq<Provisioner>,
      ghost r: set<object>)
    requires i < c.Length && i < |v| && c !in r && HoldsProvisioner(p, v[i], r) && ProvisionersTo(c, i, v, r)
    modifies c
    ensures ProvisionersTo(c, i + 1, v, r)
  {
    c[i] := p;
  }

  method CopyProvisioners(a: array?<ProvisionerSpec>, ghost v: seq<Provisioner>, ghost q: set<object>)
    returns (c: array?<ProvisionerSpec>, ghost r: set<object>)
    requires HoldsProvisioners(a, v, q)
    ensures fresh(r) && HoldsProvisioners(c, v, r)
  {
    c, r := null, {};
    if a != null && a.Length > 0 {
      c := new ProvisionerSpec[a.Length];
      for i := 0 to a.Length
        invariant fresh(r) && c !in r
        invariant ProvisionersTo(c, i, v, r)
      {
        var p;
        ghost var more;
        p, more := DeepCopyProvisioner(a[i], v[i], q);
        ghost var r' := r + more;
        ProvisionerGrows(p, v[i], more, r');
        ProvisionersGrow(c, i, v, r, r');
        StoreProvisioner(c, i, p, v, r');
        r := r';
      }
      ProvisionersGrow(c, |v|, v, r, r + {c});
      r := r + {c};
    }
  }

  method DeepCopyDefaults(d: DefaultsSpec, ghost v: seq<Selector>, ghost q: set<object>)
    returns (c: DefaultsSpec, ghost r: set<object>)
    requires HoldsSelectors(d.selectors, v, q)
    ensures fresh(r) && c.profile == d.profile && HoldsSelectors(c.selectors, v, r)
  {
    var selectors;
    selectors, r := CopySelectors(d.selectors, v, q);
    c := DefaultsSpec(d.profile, selectors);
  }

  /** What a copy of the whole configuration keeps: not the reconciler section. */
  function Stripped(v: Config): Config {
    v.(reconciler := None)
  }

  /** The copy holds the document itself exactly when that has no reconciler section. */
  lemma StrippedHolds(c: OrchestratorConfig, v: Config, r: set<object>)
    requires HoldsConfig(c, Stripped(v), r)
    ensures HoldsConfig(c, v, r) <==> v.reconciler.None?
  {
    if HoldsConfig(c, v, r) { ConfigHoldsOne(c, v, r, Stripped(v), r); }
  }

  lemma ConfigGrows(c: OrchestratorConfig, v: Config, r1: set<object>, r2: set<object>, r3: set<object>, r: set<object>)
    requires c in r && c.apiVersion == v.apiVersion && c.kind == v.kind && c.name == v.name && c.version == v.version
    requires r1 <= r && HoldsProfiles(c.profiles, v.profiles, r1)
    requires r2 <= r && HoldsProvisioners(c.provisioners, v.provisioners, r2)
    requires r3 <= r && c.defaults.profile == v.defaultProfile && HoldsSelectors(c.defaults.selectors, v.selectors, r3)
    requires c.reconciler == null && v.reconciler.None?
    ensures HoldsConfig(c, v, r)
  {
    if c.profiles != null { ProfilesGrow(c.profiles, |v.profiles|, v.profiles, r1, r); }
    if c.provisioners != null { ProvisionersGrow(c.provisioners, |v.provisioners|, v.provisioners, r2, r); }
    SelectorsGrow(c.defaults.selectors, v.selectors, r3, r);
  }

  method DeepCopyConfig(o: OrchestratorConfig, ghost v: Config, ghost q: set<object>)
    returns (c: OrchestratorConfig, ghost r: set<object>)
    requires HoldsConfig(o, v, q)
    ensures fresh(r) && HoldsConfig(c, Stripped(v), r)
  {
    var defaults, profiles, provisioners;
    ghost var r1, r2, r3;
    defaults, r3 := DeepCopyDefaults(o.defaults, v.selectors, q);
    profiles, r1 := CopyProfiles(o.profiles, v.profiles, q);
    provisioners, r2 := CopyProvisioners(o.provisioners, v.provisioners, q);
    c := new OrchestratorConfig(o.apiVersion, o.kind, o.name, o.version, defaults, profiles, provisioners);
    r := r1 + r2 + r3 + {c};
    ConfigGrows(c, Stripped(v), r1, r2, r3, r);
  }
}
