/** The configuration loader and its cache: deep copies keep what callers do to the
    configurations they were given away from the cached one. */
module Cache {
  import opened Api
  import Configuration = Config
  import opened ConfigObjects
  import opened Resolver

  datatype LoadError = NoConfig | Malformed | Rejected(problems: seq<Configuration.Problem>)

  /** What reading the ConfigMap and decoding it gives: an object and the document it holds. */
  datatype Fetched = Missing | Unparsable | Parsed(config: OrchestratorConfig, doc: Configuration.Config)

  predicate Usable(f: Fetched) {
    f.Parsed? && Configuration.Valid(f.doc)
  }

  class Loader {
    const enabled: bool
    const ttl: nat
    var config: OrchestratorConfig?
    var cachedAt: nat

    /** History: the objects of the cached copy, every object ever handed to a caller, and the
        document cached last. */
    ghost var own: set<object>
    ghost var handed: set<object>
    ghost var source: Configuration.Config

    /** The cached object is a private copy of a valid document. */
    ghost predicate Valid()
      reads this, own
    {
      && this !in handed && this !in own && own !! handed && (!enabled ==> config == null)
      && (config != null ==> HoldsConfig(config, Stripped(source), own) && Configuration.Valid(source))
    }

    constructor (enabled: bool, ttl: nat)
      ensures Valid() && config == null && own == {} && handed == {} && this.enabled == enabled && this.ttl == ttl
    {
      this.enabled, this.ttl, config, cachedAt := enabled, ttl, null, 0;
      own, handed := {}, {};
    }

    predicate Live(now: nat)
      reads this
    {
      config != null && now - cachedAt <= ttl
    }

    /** A decoded object belongs to nobody yet. */
    ghost predicate Decoded(f: Fetched, objects: set<object>)
      reads this, objects
    {
      f.Parsed? ==> HoldsConfig(f.config, f.doc, objects) && this !in objects && own !! objects
    }

    method Get(now: nat) returns (r: OrchestratorConfig?, ghost objects: set<object>)
      requires Valid()
      ensures r != null <==> Live(now)
      ensures r != null ==> now <= cachedAt + ttl
      ensures r != null ==> fresh(objects) && HoldsConfig(r, Stripped(source), objects)
    {
      r, objects := null, {};
      if config == null { return; }
      if now - cachedAt > ttl { return; }
      r, objects := DeepCopyConfig(config, Stripped(source), own);
    }

    method Keep(copy: OrchestratorConfig, now: nat, ghost doc: Configuration.Config, ghost r: set<object>)
      requires enabled && HoldsConfig(copy, Stripped(doc), r) && Configuration.Valid(doc) && this !in r && r !! handed
          && this !in handed
      modifies this
      ensures Valid() && config == copy && own == r && cachedAt == now && source == doc && handed == old(handed)
    {
      config, cachedAt, source, own := copy, now, doc, r;
    }

    method Set(c: OrchestratorConfig, now: nat, ghost doc: Configuration.Config, ghost objects: set<object>)
      requires Valid() && enabled && HoldsConfig(c, doc, objects) && Configuration.Valid(doc)
      modifies this
      ensures Valid() && config != null && fresh(own) && cachedAt == now && source == doc && handed == old(handed)
    {
      var copy;
      ghost var r;
      copy, r := DeepCopyConfig(c, doc, objects);
      Keep(copy, now, doc, r);
    }

    method Invalidate()
      requires Valid()
      modifies this
      ensures Valid() && config == null && own == old(own) && handed == old(handed)
    {
      config, cachedAt := null, 0;
    }

    /** Caches and hands out a decoded object that validates. */
    method Accept(now: nat, c: OrchestratorConfig, doc: Configuration.Config, ghost decoded: set<object>)
      returns (problems: seq<Configuration.Problem>)
      requires Valid() && HoldsConfig(c, doc, decoded) && this !in decoded && own !! decoded
      modifies this
      ensures Valid() && (problems == [] <==> Configuration.Valid(doc)) && (own == old(own) || fresh(own))
      ensures problems == [] ==>
          handed == old(handed) + decoded && (enabled ==> config != null && cachedAt == now && source == doc)
      ensures problems != [] ==> unchanged(this)
    {
      problems := Configuration.Validate(doc);
      if problems == [] {
        if enabled { Set(c, now, doc, decoded); }
        handed := handed + decoded;
      }
    }

    /** The cache first, then the ConfigMap. */
    method Load(now: nat, fetched: Fetched, ghost decoded: set<object>)
      returns (r: Result<OrchestratorConfig, LoadError>, ghost objects: set<object>)
      requires Valid() && Decoded(fetched, decoded)
      modifies this
      ensures Valid() && (own == old(own) || fresh(own)) && handed == old(handed) + objects
      ensures old(Live(now)) ==>
                && r.Ok? && fresh(objects) && HoldsConfig(r.value, Stripped(old(source)), objects)
                && (HoldsConfig(r.value, old(source), objects) <==> old(source).reconciler.None?)
                && config == old(config) && cachedAt == old(cachedAt) && source == old(source)
      ensures !old(Live(now)) ==>
                && (r.Ok? <==> Usable(fetched))
                && (r.Ok? ==>
                     && r.value == fetched.config && objects == decoded
                      && (enabled ==> config != null && cachedAt == now && source == fetched.doc))
                && (r.Err? ==>
                     objects == {} && config == old(config) && cachedAt == old(cachedAt) && source == old(source))
    {
      var cached;
      cached, objects := Get(now);
      if cached != null {
        handed := handed + objects;
        r := Ok(cached);
        StrippedHolds(cached, source, objects);
        return;
      }
      objects := {};
      match fetched
      case Missing => r := Err(NoConfig);
      case Unparsable => r := Err(Malformed);
      case Parsed(c, doc) =>
        var problems := Accept(now, c, doc, decoded);
        if problems != [] {
          r := Err(Rejected(problems));
        } else {
          objects := decoded;
          r := Ok(c);
        }
    }

    /** Answers from the cache for at most the TTL, with a new object that holds the document as
        it was set apart from its reconciler section; otherwise exactly with a document that
        validates, and then with the decoded object itself. */
    method LoadConfig(now: nat, fetched: Fetched, ghost decoded: set<object>)
      returns (r: Result<OrchestratorConfig, LoadError>, ghost objects: set<object>)
      requires Valid() && Decoded(fetched, decoded)
      modifies this
      ensures Valid() && (own == old(own) || fresh(own)) && handed == old(handed) + objects
      ensures old(Live(now)) ==>
                && r.Ok? && fresh(objects) && HoldsConfig(r.value, Stripped(old(source)), objects)
                && (HoldsConfig(r.value, old(source), objects) <==> old(source).reconciler.None?)
                && config == old(config) && cachedAt == old(cachedAt) && source == old(source)
      ensures old(config) != null && now <= old(cachedAt) + ttl ==>
                r.Ok? && HoldsConfig(r.value, Stripped(old(source)), objects)
      ensures old(config) != null && now > old(cachedAt) + ttl && Usable(fetched) ==>
                r == Ok(fetched.config) && HoldsConfig(r.value, fetched.doc, objects)
      ensures old(config) != null && now > old(cachedAt) + ttl && !Usable(fetched) ==> r.Err?
      ensures !old(Live(now)) ==>
                && (r.Ok? <==> Usable(fetched))
                && (r.Ok? ==>
                     && r.value == fetched.config && objects == decoded
                      && (enabled ==> config != null && cachedAt == now && source == fetched.doc))
                && (r.Err? ==>
                     objects == {} && config == old(config) && cachedAt == old(cachedAt) && source == old(source))
    {
      r, objects := Load(now, fetched, decoded);
    }

    /** An event of the watched ConfigMap: deletion empties the cache, a document that does not
        decode or validate leaves it alone, any other replaces it. */
    method HandleEvent(deleted: bool, fetched: Fetched, now: nat, ghost decoded: set<object>)
      returns (sent: Option<OrchestratorConfig>)
      requires Valid() && Decoded(fetched, decoded)
      modifies this
      ensures Valid() && old(handed) <= handed
      ensures deleted ==> config == null && sent.None?
      ensures !deleted && !Usable(fetched) ==>
          config == old(config) && cachedAt == old(cachedAt) && source == old(source) && sent.None?
      ensures !deleted && Usable(fetched) ==>
                && sent == Some(fetched.config) && decoded <= handed
                && (enabled ==> config != null && cachedAt == now && source == fetched.doc)
    {
      sent := None;
      if deleted {
        Invalidate();
      } else if fetched.Parsed? {
        var problems := Accept(now, fetched.config, fetched.doc, decoded);
        if problems == [] { sent := Some(fetched.config); }
      }
    }

    /** Callers overwrite the objects they were given, at any depth and in any way. */
    method CallersWrite()
      requires Valid()
      modifies handed
      ensures Valid() && unchanged(this)
    {
      modify handed;
    }
  }

  /** Whatever the first caller does to its answer, and whatever has become of the ConfigMap, the
      answer of a second call within the TTL holds the validated document of the first. */
  method LoadTwice(l: Loader, now: nat, later: nat, fetched: Fetched, again: Fetched, ghost decoded: set<object>,
      ghost decoded': set<object>)
    returns (r: Result<OrchestratorConfig, LoadError>, ghost objects: set<object>)
    requires l.Valid() && l.Decoded(fetched, decoded) && l.enabled && !l.Live(now) && Usable(fetched)
    requires now <= later <= now + l.ttl
    requires again.Parsed? ==>
        && HoldsConfig(again.config, again.doc, decoded') && l !in decoded' && l.own !! decoded'
        && decoded' !! decoded && decoded' !! l.handed
    modifies l, l.handed, decoded
    ensures l.Valid() && r.Ok? && fresh(objects) && HoldsConfig(r.value, Stripped(fetched.doc), objects)
    ensures Configuration.Valid(fetched.doc) && (HoldsConfig(r.value, fetched.doc, objects) <==>
        fetched.doc.reconciler.None?)
  {
    var first;
    ghost var given;
    first, given := l.LoadConfig(now, fetched, decoded);
    l.CallersWrite();
    r, objects := l.LoadConfig(later, again, decoded');
  }

  /** After the TTL a second call does not answer from the cache: it gives what the ConfigMap holds
      then, or an error if that is no valid document. */
  method LoadLater(l: Loader, now: nat, later: nat, fetched: Fetched, again: Fetched, ghost decoded: set<object>,
      ghost decoded': set<object>)
    returns (r: Result<OrchestratorConfig, LoadError>, ghost objects: set<object>)
    requires l.Valid() && l.Decoded(fetched, decoded) && l.enabled && !l.Live(now) && Usable(fetched)
    requires now + l.ttl < later
    requires again.Parsed? ==>
        && HoldsConfig(again.config, again.doc, decoded') && l !in decoded' && l.own !! decoded'
        && decoded' !! decoded && decoded' !! l.handed
    modifies l, l.handed, decoded
    ensures l.Valid()
    ensures again.Parsed? && Configuration.Valid(again.doc) ==>
              r == Ok(again.config) && HoldsConfig(again.config, again.doc, objects)
    ensures !(again.Parsed? && Configuration.Valid(again.doc)) ==> r.Err?
  {
    var first;
    ghost var given;
    first, given := l.LoadConfig(now, fetched, decoded);
    l.CallersWrite();
    r, objects := l.LoadConfig(later, again, decoded');
  }

  // ---------------------------------------------------------------- a lost section

  /** A valid document with a reconciler section. */
  function Sample(): (doc: Configuration.Config)
    ensures Configuration.Valid(doc) && doc.reconciler.Some?
  {
    var backend := Configuration.Backend("b", "kubernetes", Configuration.Template("helm", "r", None), 0, "1.0.0",
        None);
    var profiles := [Configuration.Profile("web", "", [backend])];
    assert Configuration.Names(profiles) == ["web"];
    assert profiles[..0] == [] && Configuration.Ids([]) == [] && Configuration.BackendIds([backend]) == ["b"];
    assert Configuration.Ids(profiles) == ["b"];
    Configuration.Config("score.dev/v1b1", "OrchestratorConfig", "c", "", profiles, [], "web", [], Some(""))
  }

  method SampleObject() returns (c: OrchestratorConfig, ghost r: set<object>)
    ensures fresh(r) && HoldsConfig(c, Sample(), r)
  {
    var backends := new BackendSpec[1];
    backends[0] := BackendSpec("b", "kubernetes", TemplateSpec("helm", "r", null), 0, "1.0.0", null);
    var profiles := new ProfileSpec[1];
    profiles[0] := ProfileSpec("web", "", backends);
    c := new OrchestratorConfig("score.dev/v1b1", "OrchestratorConfig", "c", "", DefaultsSpec("web", null), profiles,
        null);
    c.reconciler := new RawExtension(null);
    r := {backends, profiles, c, c.reconciler};
    assert HoldsBackends(backends, Sample().profiles[0].backends, r);
    assert HoldsProfiles(profiles, Sample().profiles, r);
  }

  method LoadAgain(l: Loader, now: nat, c: OrchestratorConfig, ghost a: set<object>)
    returns (second: OrchestratorConfig, ghost b: set<object>)
    requires l.Valid() && l.enabled && !l.Live(now) && HoldsConfig(c, Sample(), a) && l !in a && l.own !! a
    modifies l
    ensures HoldsConfig(second, Stripped(Sample()), b) && !HoldsConfig(second, Sample(), b)
  {
    var r, again;
    ghost var q;
    r, q := l.LoadConfig(now, Parsed(c, Sample()), a);
    again, b := l.LoadConfig(now, Missing, {});
    second := again.value;
  }

  /** The same call twice, with nothing in between: the first answer holds the document with its
      reconciler section, the second does not. */
  method SectionLost(ttl: nat, now: nat)
    returns (first: OrchestratorConfig, second: OrchestratorConfig, ghost a: set<object>, ghost b: set<object>)
    ensures HoldsConfig(first, Sample(), a) && HoldsConfig(second, Stripped(Sample()), b)
        && !HoldsConfig(second, Sample(), b)
  {
    first, a := SampleObject();
    var l := new Loader(true, ttl);
    second, b := LoadAgain(l, now, first, a);
  }
}
