/** The condition list of a status: two ways to set a condition in place, the mirroring of an
    exposure's conditions, and the Ready condition derived from three others. */
module Conditions {
  import opened Api

  datatype Verdict = True | False | Unknown

  /** `since` is the last transition time; zero is the unset time. */
  datatype Condition = Condition(typ: string, status: Verdict, reason: string, message: string, since: nat)

  const READY := "Ready"
  const CLAIMS_READY := "ClaimsReady"
  const RUNTIME_READY := "RuntimeReady"
  const INPUTS_VALID := "InputsValid"

  // ---------------------------------------------------------------- the list as a map

  /** The first condition of a type. */
  function Lookup(cs: seq<Condition>, typ: string): (r: Option<Condition>)
    ensures r.Some? ==> r.value.typ == typ && r.value in cs
    ensures r.None? ==> forall c :: c in cs ==> c.typ != typ
  {
    if cs == [] then None
    else if cs[0].typ == typ then Some(cs[0])
    else Lookup(cs[1..], typ)
  }

  /** Replaces the first condition of `c`'s type, or appends. */
  function Put(cs: seq<Condition>, c: Condition): seq<Condition> {
    if cs == [] then [c]
    else if cs[0].typ == c.typ then [c] + cs[1..]
    else [cs[0]] + Put(cs[1..], c)
  }

  ghost predicate Distinct(cs: seq<Condition>) {
    forall i, j :: 0 <= i < j < |cs| ==> cs[i].typ != cs[j].typ
  }

  /** The condition list as the API server reads it, keyed by type. */
  ghost function AsMap(cs: seq<Condition>): (m: map<string, Condition>)
    ensures forall t :: t in m <==> Lookup(cs, t).Some?
    ensures forall t :: t in m ==> m[t] == Lookup(cs, t).value
  {
    if cs == [] then map[] else AsMap(cs[1..])[cs[0].typ := cs[0]]
  }

  lemma {:induction false} LookupPut(cs: seq<Condition>, c: Condition, typ: string)
    ensures Lookup(Put(cs, c), typ) == if typ == c.typ then Some(c) else Lookup(cs, typ)
  {
    if cs != [] && cs[0].typ != c.typ { LookupPut(cs[1..], c, typ); }
  }

  lemma {:induction false} PutAt(cs: seq<Condition>, c: Condition, i: nat)
    requires i <= |cs| && (forall j :: 0 <= j < i ==> cs[j].typ != c.typ)
    requires i < |cs| ==> cs[i].typ == c.typ
    ensures Put(cs, c) == if i < |cs| then cs[i := c] else cs + [c]
  {
    if 0 < i { PutAt(cs[1..], c, i - 1); }
  }

  lemma {:induction false} LookupAt(cs: seq<Condition>, typ: string, i: nat)
    requires i <= |cs| && (forall j :: 0 <= j < i ==> cs[j].typ != typ)
    requires i < |cs| ==> cs[i].typ == typ
    ensures Lookup(cs, typ) == if i < |cs| then Some(cs[i]) else None
  {
    if 0 < i { LookupAt(cs[1..], typ, i - 1); }
  }

  lemma {:induction false} PutDistinct(cs: seq<Condition>, c: Condition)
    requires Distinct(cs)
    ensures Distinct(Put(cs, c))
    ensures forall x :: x in Put(cs, c) ==> x in cs || x == c
  {
    if cs != [] && cs[0].typ != c.typ {
      PutDistinct(cs[1..], c);
      forall x | x in Put(cs[1..], c)
        ensures x.typ != cs[0].typ && (x in cs || x == c)
      {
        assert x in cs[1..] ==> x in cs;
      }
    }
  }

  /** From a list with distinct types, setting a condition is a map update of its type. */
  lemma PutRefinesMap(cs: seq<Condition>, c: Condition)
    requires Distinct(cs)
    ensures Distinct(Put(cs, c))
    ensures AsMap(Put(cs, c)) == AsMap(cs)[c.typ := c]
  {
    PutDistinct(cs, c);
    var m := AsMap(Put(cs, c));
    forall t
      ensures t in m <==> t in AsMap(cs) || t == c.typ
      ensures t in m ==> m[t] == AsMap(cs)[c.typ := c][t]
    {
      LookupPut(cs, c, t);
    }
  }

  // ---------------------------------------------------------------- SetCondition

  /** The condition SetCondition leaves: a new transition time exactly when it is new or its
      status or reason changes. */
  function Changed(was: Option<Condition>, typ: string, status: Verdict, reason: string, message: string,
      now: nat): Condition {
    if was.Some? && was.value.status == status && was.value.reason == reason then was.value.(message := message)
    else Condition(typ, status, reason, message, now)
  }

  function Set(cs: seq<Condition>, typ: string, status: Verdict, reason: string, message: string,
      now: nat): seq<Condition> {
    Put(cs, Changed(Lookup(cs, typ), typ, status, reason, message, now))
  }

  lemma SetLooks(cs: seq<Condition>, typ: string, status: Verdict, reason: string, message: string, now: nat)
    ensures Lookup(Set(cs, typ, status, reason, message, now), typ) ==
        Some(Changed(Lookup(cs, typ), typ, status, reason, message, now))
    ensures forall t :: t != typ ==> Lookup(Set(cs, typ, status, reason, message, now), t) == Lookup(cs, t)
  {
    var c := Changed(Lookup(cs, typ), typ, status, reason, message, now);
    LookupPut(cs, c, typ);
    forall t | t != typ ensures Lookup(Put(cs, c), t) == Lookup(cs, t) {
      LookupPut(cs, c, t);
    }
  }

  datatype Update = Update(typ: string, status: Verdict, reason: string, message: string)

  function SetAll(cs: seq<Condition>, us: seq<Update>, now: nat): seq<Condition>
    decreases |us|
  {
    if us == [] then cs
    else var u := us[|us| - 1]; Set(SetAll(cs, us[..|us| - 1], now), u.typ, u.status, u.reason, u.message, now)
  }

  // ---------------------------------------------------------------- setStatusCondition

  /** The condition setStatusCondition leaves: a new transition time only when the status
      changes, or when the condition is new and carries none. */
  function Mirrored(was: Option<Condition>, c: Condition, now: nat): Condition {
    match was
    case None => if c.since == 0 then c.(since := now) else c
    case Some(w) => Condition(w.typ, c.status, c.reason, c.message, if w.status != c.status then now else w.since)
  }

  function MirrorOne(cs: seq<Condition>, c: Condition, now: nat): seq<Condition> {
    Put(cs, Mirrored(Lookup(cs, c.typ), c, now))
  }

  lemma MirrorLooks(cs: seq<Condition>, c: Condition, now: nat)
    ensures Lookup(MirrorOne(cs, c, now), c.typ) == Some(Mirrored(Lookup(cs, c.typ), c, now))
    ensures forall t :: t != c.typ ==> Lookup(MirrorOne(cs, c, now), t) == Lookup(cs, t)
  {
    var m := Mirrored(Lookup(cs, c.typ), c, now);
    LookupPut(cs, m, c.typ);
    forall t | t != c.typ ensures Lookup(Put(cs, m), t) == Lookup(cs, t) {
      LookupPut(cs, m, t);
    }
  }

  predicate SameValue(a: Condition, b: Condition) {
    a.status == b.status && a.reason == b.reason && a.message == b.message
  }

  /** The mirror skips a condition that would change nothing. */
  predicate Stale(cs: seq<Condition>, c: Condition) {
    var was := Lookup(cs, c.typ);
    was.None? || !SameValue(was.value, c)
  }

  function MirrorAll(cs: seq<Condition>, ns: seq<Condition>, now: nat): seq<Condition>
    decreases |ns|
  {
    if ns == [] then cs
    else
      var rest := MirrorAll(cs, ns[..|ns| - 1], now);
      if Stale(rest, ns[|ns| - 1]) then MirrorOne(rest, ns[|ns| - 1], now) else rest
  }

  /** Whether mirroring reports a change. */
  predicate MirrorReports(cs: seq<Condition>, ns: seq<Condition>, now: nat)
    decreases |ns|
  {
    ns != [] && (MirrorReports(cs, ns[..|ns| - 1], now) || Stale(MirrorAll(cs, ns[..|ns| - 1], now), ns[|ns| - 1]))
  }

  // ---------------------------------------------------------------- normalization

  /** A type or reason outside the fixed vocabulary drops the condition. */
  function NormalType(typ: string): string {
    if typ in ["Ready", "ClaimsReady", "RuntimeReady", "InputsValid"] then typ
    else if typ in ["Available", "Deployed", "Active", "Healthy", "Running", "Progressing"] then RUNTIME_READY
    else if typ in ["Valid", "Validated", "SpecValid"] then INPUTS_VALID
    else if typ in ["Bound", "Provisioned", "ResourceReady"] then CLAIMS_READY
    else ""
  }

  function NormalReason(reason: string): string {
    if reason in ["Ready", "Available", "Deployed", "Active", "Healthy", "Running"] then "Succeeded"
    else if reason in ["InvalidSpec", "ValidationError", "SchemaViolation", "InvalidConfiguration"] then "SpecInvalid"
    else if reason in ["PolicyViolation", "SecurityViolation", "ComplianceFailure", "AdmissionDenied"] then
        "PolicyViolation"
    else if reason in ["Pending", "Waiting", "Provisioning"] then "BindingPending"
    else if reason in ["BindingFailed", "ProvisioningFailed", "ResourceUnavailable"] then "BindingFailed"
    else if reason in ["ProjectionError", "TransformationError", "MappingError"] then "ProjectionError"
    else if reason == "Selecting" then "RuntimeSelecting"
    else if reason == "RuntimeProvisioning" then "RuntimeProvisioning"
    else if reason in ["Degraded", "Unavailable", "Failed"] then "RuntimeDegraded"
    else if reason in ["QuotaExceeded", "ResourceQuotaExceeded", "LimitExceeded"] then "QuotaExceeded"
    else if reason in ["PermissionDenied", "Forbidden", "Unauthorized", "AccessDenied"] then "PermissionDenied"
    else if reason in ["NetworkUnavailable", "NetworkError", "ConnectivityError", "DNSError"] then "NetworkUnavailable"
    else ""
  }

  /** The words that a runtime may use for a reason of the fixed vocabulary. */
  function WordsFor(reason: string): set<string> {
    match reason
    case "Succeeded" => {"Ready", "Available", "Deployed", "Active", "Healthy", "Running"}
    case "SpecInvalid" => {"InvalidSpec", "ValidationError", "SchemaViolation", "InvalidConfiguration"}
    case "PolicyViolation" => {"PolicyViolation", "SecurityViolation", "ComplianceFailure", "AdmissionDenied"}
    case "BindingPending" => {"Pending", "Waiting", "Provisioning"}
    case "BindingFailed" => {"BindingFailed", "ProvisioningFailed", "ResourceUnavailable"}
    case "ProjectionError" => {"ProjectionError", "TransformationError", "MappingError"}
    case "RuntimeSelecting" => {"Selecting"}
    case "RuntimeProvisioning" => {"RuntimeProvisioning"}
    case "RuntimeDegraded" => {"Degraded", "Unavailable", "Failed"}
    case "QuotaExceeded" => {"QuotaExceeded", "ResourceQuotaExceeded", "LimitExceeded"}
    case "PermissionDenied" => {"PermissionDenied", "Forbidden", "Unauthorized", "AccessDenied"}
    case "NetworkUnavailable" => {"NetworkUnavailable", "NetworkError", "ConnectivityError", "DNSError"}
    case _ => {}
  }

  /** Every reason that is kept is normalized to the one whose words include it. */
  lemma ReasonWords(word: string)
    ensures NormalReason(word) != "" ==> word in WordsFor(NormalReason(word))
  {
  }

  /** And every such word is kept. */
  lemma WordsKept(word: string, reason: string)
    requires word in WordsFor(reason)
    ensures NormalReason(word) != ""
  {
  }

  /** The types that a runtime may use for each of the four. */
  function TypesFor(typ: string): set<string> {
    match typ
    case "Ready" => {"Ready"}
    case "ClaimsReady" => {"ClaimsReady", "Bound", "Provisioned", "ResourceReady"}
    case "RuntimeReady" =>
      {"RuntimeReady", "Available", "Deployed", "Active", "Healthy", "Running", "Progressing"}
    case "InputsValid" => {"InputsValid", "Valid", "Validated", "SpecValid"}
    case _ => {}
  }

  lemma TypeWords(word: string)
    ensures NormalType(word) != "" ==> word in TypesFor(NormalType(word))
  {
  }

  lemma TypesKept(word: string, typ: string)
    requires word in TypesFor(typ)
    ensures NormalType(word) != ""
  {
  }

  predicate Mappable(c: Condition) {
    NormalType(c.typ) != "" && NormalReason(c.reason) != ""
  }

  function Normal(c: Condition): Condition {
    c.(typ := NormalType(c.typ), reason := NormalReason(c.reason))
  }

  function NormalAll(cs: seq<Condition>): (r: seq<Condition>)
    ensures r == [] <==> forall c :: c in cs ==> !Mappable(c)
  {
    if cs == [] then []
    else NormalAll(cs[..|cs| - 1]) + if Mappable(cs[|cs| - 1]) then [Normal(cs[|cs| - 1])] else []
  }

  // ---------------------------------------------------------------- the list in place

  /** A condition slice reached through a pointer. */
  class ConditionList {
    var items: seq<Condition>

    constructor (initial: seq<Condition>)
      ensures items == initial
    {
      items := initial;
    }

    method Find(typ: string) returns (r: Option<Condition>)
      ensures r == Lookup(items, typ)
    {
      for i := 0 to |items|
        invariant forall j :: 0 <= j < i ==> items[j].typ != typ
      {
        if items[i].typ == typ {
          LookupAt(items, typ, i);
          return Some(items[i]);
        }
      }
      LookupAt(items, typ, |items|);
      r := None;
    }

    method SetCondition(typ: string, status: Verdict, reason: string, message: string, now: nat)
      modifies this
      ensures items == Set(old(items), typ, status, reason, message, now)
      ensures var was, has := Lookup(old(items), typ), Lookup(items, typ);
              && has.Some? && has.value.status == status && has.value.reason == reason && has.value.message == message
              && (was.Some? && was.value.status == status && was.value.reason == reason ==>
                    has.value.since == was.value.since)
              && (was.None? || was.value.status != status || was.value.reason != reason ==> has.value.since == now)
      ensures forall t :: t != typ ==> Lookup(items, t) == Lookup(old(items), t)
    {
      SetLooks(items, typ, status, reason, message, now);
      for i := 0 to |items|
        invariant items == old(items)
        invariant forall j :: 0 <= j < i ==> items[j].typ != typ
      {
        if items[i].typ == typ {
          LookupAt(items, typ, i);
          PutAt(items, Changed(Some(items[i]), typ, status, reason, message, now), i);
          if items[i].status != status || items[i].reason != reason {
            items := items[i := Condition(typ, status, reason, message, now)];
          } else if items[i].message != message {
            items := items[i := items[i].(message := message)];
          }
          return;
        }
      }
      LookupAt(items, typ, |items|);
      PutAt(items, Condition(typ, status, reason, message, now), |items|);
      items := items + [Condition(typ, status, reason, message, now)];
    }

    method ApplyUpdates(us: seq<Update>, now: nat)
      modifies this
      ensures items == SetAll(old(items), us, now)
    {
      for i := 0 to |us|
        invariant items == SetAll(old(items), us[..i], now)
      {
        assert us[..i + 1][..i] == us[..i];
        SetCondition(us[i].typ, us[i].status, us[i].reason, us[i].message, now);
      }
      assert us[..|us|] == us;
    }

    method SetStatusCondition(c: Condition, now: nat)
      modifies this
      ensures items == MirrorOne(old(items), c, now)
      ensures var was, has := Lookup(old(items), c.typ), Lookup(items, c.typ);
              && has.Some? && has.value.status == c.status && has.value.reason == c.reason
              && has.value.message == c.message
              && (was.Some? ==> has.value.since == if was.value.status == c.status then was.value.since else now)
              && (was.None? ==> has.value.since == if c.since == 0 then now else c.since)
      ensures forall t :: t != c.typ ==> Lookup(items, t) == Lookup(old(items), t)
    {
      MirrorLooks(items, c, now);
      for i := 0 to |items|
        invariant items == old(items)
        invariant forall j :: 0 <= j < i ==> items[j].typ != c.typ
      {
        if items[i].typ == c.typ {
          LookupAt(items, c.typ, i);
          PutAt(items, Mirrored(Some(items[i]), c, now), i);
          var since := if items[i].status != c.status then now else items[i].since;
          items := items[i := items[i].(status := c.status, reason := c.reason, message := c.message, since := since)];
          return;
        }
      }
      LookupAt(items, c.typ, |items|);
      PutAt(items, Mirrored(None, c, now), |items|);
      items := items + [if c.since == 0 then c.(since := now) else c];
    }

    method MirrorEach(ns: seq<Condition>, now: nat) returns (updated: bool)
      modifies this
      ensures items == MirrorAll(old(items), ns, now)
      ensures updated <==> MirrorReports(old(items), ns, now)
    {
      updated := false;
      for i := 0 to |ns|
        invariant items == MirrorAll(old(items), ns[..i], now)
        invariant updated <==> MirrorReports(old(items), ns[..i], now)
      {
        assert ns[..i + 1][..i] == ns[..i];
        var existing := Find(ns[i].typ);
        if existing.None? || existing.value.status != ns[i].status
           || existing.value.reason != ns[i].reason || existing.value.message != ns[i].message {
          SetStatusCondition(ns[i], now);
          updated := true;
        }
      }
      assert ns[..|ns|] == ns;
    }

    /** Mirrors the conditions of an exposure and reports whether anything changed. */
    method MirrorConditions(exposure: seq<Condition>, now: nat) returns (updated: bool)
      modifies this
      ensures items == MirrorAll(old(items), NormalAll(exposure), now)
      ensures updated <==> MirrorReports(old(items), NormalAll(exposure), now)
    {
      var ns;
      ghost var from;
      ns, from := Normalize(exposure);
      updated := MirrorEach(ns, now);
    }
  }

  /** The result holds, for exactly the elements to keep, in their order, the image; `from` tells
      where each comes from. */
  predicate Picks<T, U(==)>(cs: seq<T>, keep: T -> bool, image: T -> U, r: seq<U>, from: seq<nat>) {
    && |from| == |r|
    && (forall k :: 0 <= k < |r| ==> from[k] < |cs| && keep(cs[from[k]]) && r[k] == image(cs[from[k]]))
    && (forall k, l :: 0 <= k < l < |r| ==> from[k] < from[l])
    && (forall i :: 0 <= i < |cs| && keep(cs[i]) ==> i in from)
  }

  lemma PicksKept<T, U>(cs: seq<T>, c: T, keep: T -> bool, image: T -> U, r: seq<U>, from: seq<nat>)
    requires Picks(cs, keep, image, r, from) && keep(c)
    ensures Picks(cs + [c], keep, image, r + [image(c)], from + [|cs|])
  {
    var from' := from + [|cs|];
    assert from'[|from|] == |cs|;
    assert forall k :: 0 <= k < |from| ==> from'[k] == from[k];
  }

  lemma PicksPast<T, U>(cs: seq<T>, c: T, keep: T -> bool, image: T -> U, r: seq<U>, from: seq<nat>)
    requires Picks(cs, keep, image, r, from) && !keep(c)
    ensures Picks(cs + [c], keep, image, r, from)
  {
  }

  lemma {:induction false} NormalPicks(cs: seq<Condition>) returns (from: seq<nat>)
    ensures Picks(cs, Mappable, Normal, NormalAll(cs), from)
    decreases |cs|
  {
    from := [];
    if cs != [] {
      var init, c := cs[..|cs| - 1], cs[|cs| - 1];
      assert cs == init + [c];
      from := NormalPicks(init);
      if Mappable(c) {
        PicksKept(init, c, Mappable, Normal, NormalAll(init), from);
        from := from + [|init|];
      } else {
        PicksPast(init, c, Mappable, Normal, NormalAll(init), from);
        assert NormalAll(cs) == NormalAll(init);
      }
    }
  }

  lemma NormalSnoc(cs: seq<Condition>, i: nat)
    requires i < |cs|
    ensures NormalAll(cs[..i + 1]) == NormalAll(cs[..i]) + if Mappable(cs[i]) then [Normal(cs[i])] else []
  {
    assert cs[..i + 1][..i] == cs[..i];
  }

  method Normalize(cs: seq<Condition>) returns (r: seq<Condition>, ghost from: seq<nat>)
    ensures Picks(cs, Mappable, Normal, r, from) && r == NormalAll(cs)
  {
    r := [];
    for i := 0 to |cs|
      invariant r == NormalAll(cs[..i])
    {
      NormalSnoc(cs, i);
      if NormalReason(cs[i].reason) != "" && NormalType(cs[i].typ) != "" {
        r := r + [Normal(cs[i])];
      }
    }
    assert cs[..|cs|] == cs;
    from := NormalPicks(cs);
  }

  // ---------------------------------------------------------------- mirroring twice

  /** Where the value of a type comes from after mirroring: its last occurrence, else the old list. */
  function Last(ns: seq<Condition>, typ: string): (r: Option<Condition>)
    ensures r.Some? ==> r.value in ns && r.value.typ == typ
    ensures r.None? ==> forall c :: c in ns ==> c.typ != typ
  {
    if ns == [] then None
    else if ns[|ns| - 1].typ == typ then Some(ns[|ns| - 1])
    else Last(ns[..|ns| - 1], typ)
  }

  lemma {:induction false} MirrorLookup(cs: seq<Condition>, ns: seq<Condition>, now: nat, typ: string)
    ensures var was, r := Lookup(cs, typ), Lookup(MirrorAll(cs, ns, now), typ);
            match Last(ns, typ) case None => r == was case Some(c) => r.Some? && SameValue(r.value, c)
    decreases |ns|
  {
    if ns != [] {
      var rest := MirrorAll(cs, ns[..|ns| - 1], now);
      var c := ns[|ns| - 1];
      MirrorLookup(cs, ns[..|ns| - 1], now, typ);
      LookupPut(rest, Mirrored(Lookup(rest, c.typ), c, now), typ);
    }
  }

  /** All conditions of one type in the exposure say the same. */
  ghost predicate Agreeing(ns: seq<Condition>) {
    forall i, j :: 0 <= i < j < |ns| && ns[i].typ == ns[j].typ ==> SameValue(ns[i], ns[j])
  }

  /** Mirroring the same exposure again changes no status, no reason and no message. */
  lemma MirrorIdempotent(cs: seq<Condition>, ns: seq<Condition>, now: nat, later: nat, typ: string)
    ensures var once := MirrorAll(cs, ns, now);
            var a, b := Lookup(once, typ), Lookup(MirrorAll(once, ns, later), typ);
            (a.Some? <==> b.Some?) && (a.Some? ==> SameValue(a.value, b.value))
  {
    MirrorLookup(cs, ns, now, typ);
    MirrorLookup(MirrorAll(cs, ns, now), ns, later, typ);
  }

  lemma {:induction false} QuietPrefix(once: seq<Condition>, ns: seq<Condition>, later: nat)
    requires forall c :: c in ns ==> !Stale(once, c)
    ensures !MirrorReports(once, ns, later) && MirrorAll(once, ns, later) == once
    decreases |ns|
  {
    if ns != [] { QuietPrefix(once, ns[..|ns| - 1], later); }
  }

  lemma {:induction false} ReportsStep(cs: seq<Condition>, ns: seq<Condition>, now: nat, k: nat)
    requires k < |ns| && Stale(MirrorAll(cs, ns[..k], now), ns[k])
    ensures MirrorReports(cs, ns, now)
    decreases |ns|
  {
    if k < |ns| - 1 {
      assert ns[..|ns| - 1][..k] == ns[..k];
      ReportsStep(cs, ns[..|ns| - 1], now, k);
    }
  }

  /** The second call reports no change, and leaves the list alone, exactly when the normalized
      conditions of each type agree; in particular when their types are distinct. */
  lemma MirrorTwiceQuiet(cs: seq<Condition>, ns: seq<Condition>, now: nat, later: nat)
    ensures var once := MirrorAll(cs, ns, now);
            !MirrorReports(once, ns, later) <==> Agreeing(ns)
    ensures Agreeing(ns) ==> MirrorAll(MirrorAll(cs, ns, now), ns, later) == MirrorAll(cs, ns, now)
    ensures Distinct(ns) ==> Agreeing(ns)
  {
    var once := MirrorAll(cs, ns, now);
    if Agreeing(ns) {
      forall c | c in ns
        ensures !Stale(once, c)
      {
        MirrorLookup(cs, ns, now, c.typ);
      }
      QuietPrefix(once, ns, later);
    } else {
      Disagree(cs, ns, now, later);
    }
  }

  lemma {:induction false} Disagree(cs: seq<Condition>, ns: seq<Condition>, now: nat, later: nat)
    requires !Agreeing(ns)
    ensures MirrorReports(MirrorAll(cs, ns, now), ns, later)
  {
    var once := MirrorAll(cs, ns, now);
    var i, j :| 0 <= i < j < |ns| && ns[i].typ == ns[j].typ && !SameValue(ns[i], ns[j]);
    // The next occurrence of the type after i that differs from ns[i] meets the value of ns[i].
    while exists m :: i < m < j && ns[m].typ == ns[i].typ
      invariant 0 <= i < j < |ns| && ns[i].typ == ns[j].typ && !SameValue(ns[i], ns[j])
      decreases j - i
    {
      var m :| i < m < j && ns[m].typ == ns[i].typ;
      if SameValue(ns[m], ns[i]) { i := m; } else { j := m; }
    }
    LastAt(ns[..j], i);
    MirrorLookup(once, ns[..j], later, ns[j].typ);
    ReportsStep(once, ns, later, j);
  }

  lemma {:induction false} LastAt(ns: seq<Condition>, i: nat)
    requires i < |ns| && forall m :: i < m < |ns| ==> ns[m].typ != ns[i].typ
    ensures Last(ns, ns[i].typ) == Some(ns[i])
    decreases |ns|
  {
    if i < |ns| - 1 { LastAt(ns[..|ns| - 1], i); }
  }

  /** Distinct types in the exposure do not suffice: normalization may identify them. */
  lemma NormalizationMerges() returns (cs: seq<Condition>)
    ensures Distinct(cs) && !Agreeing(NormalAll(cs))
  {
    var a := Condition("Available", True, "Ready", "", 0);
    var b := Condition("Progressing", False, "Ready", "", 0);
    cs := [a, b];
    assert cs[..1] == [a] && [a][..0] == [];
    assert |a.typ| != |b.typ|;
    NormalRuntime();
    var ns := NormalAll(cs);
    assert NormalAll([a]) == [Normal(a)];
    assert ns == [Normal(a), Normal(b)];
    assert ns[0].typ == ns[1].typ && !SameValue(ns[0], ns[1]);
  }

  lemma NormalRuntime()
    ensures NormalType("Available") == RUNTIME_READY && NormalType("Progressing") == RUNTIME_READY
    ensures NormalReason("Ready") == "Succeeded"
  {
  }

  // ---------------------------------------------------------------- any sequence of calls

  /** A call of SetCondition or of setStatusCondition, at its own time. */
  datatype Call = SetCall(u: Update, now: nat) | MirrorCall(c: Condition, now: nat)

  function Do(cs: seq<Condition>, call: Call): seq<Condition> {
    match call
    case SetCall(u, now) => Set(cs, u.typ, u.status, u.reason, u.message, now)
    case MirrorCall(c, now) => MirrorOne(cs, c, now)
  }

  function DoAll(cs: seq<Condition>, calls: seq<Call>): seq<Condition>
    decreases |calls|
  {
    if calls == [] then cs else DoAll(Do(cs, calls[0]), calls[1..])
  }

  function Entry(m: map<string, Condition>, typ: string): Option<Condition> {
    if typ in m then Some(m[typ]) else None
  }

  /** The same call on a map from types to conditions. */
  function DoMap(m: map<string, Condition>, call: Call): map<string, Condition> {
    match call
    case SetCall(u, now) => m[u.typ := Changed(Entry(m, u.typ), u.typ, u.status, u.reason, u.message, now)]
    case MirrorCall(c, now) => m[c.typ := Mirrored(Entry(m, c.typ), c, now)]
  }

  function DoAllMap(m: map<string, Condition>, calls: seq<Call>): map<string, Condition>
    decreases |calls|
  {
    if calls == [] then m else DoAllMap(DoMap(m, calls[0]), calls[1..])
  }

  lemma CallRefinesMap(cs: seq<Condition>, call: Call)
    requires Distinct(cs)
    ensures Distinct(Do(cs, call)) && AsMap(Do(cs, call)) == DoMap(AsMap(cs), call)
  {
    var typ := if call.SetCall? then call.u.typ else call.c.typ;
    assert Entry(AsMap(cs), typ) == Lookup(cs, typ);
    match call
    case SetCall(u, now) => PutRefinesMap(cs, Changed(Lookup(cs, typ), typ, u.status, u.reason, u.message, now));
    case MirrorCall(c, now) => PutRefinesMap(cs, Mirrored(Lookup(cs, typ), c, now));
  }

  /** Any mix of calls keeps types distinct and is a sequence of map updates. */
  lemma {:induction false} CallsRefineMap(cs: seq<Condition>, calls: seq<Call>)
    requires Distinct(cs)
    ensures Distinct(DoAll(cs, calls)) && AsMap(DoAll(cs, calls)) == DoAllMap(AsMap(cs), calls)
    decreases |calls|
  {
    if calls != [] {
      CallRefinesMap(cs, calls[0]);
      CallsRefineMap(Do(cs, calls[0]), calls[1..]);
    }
  }

  // ---------------------------------------------------------------- Ready

  predicate IsTrue(cs: seq<Condition>, typ: string) {
    var c := Lookup(cs, typ);
    c.Some? && c.value.status == True
  }

  predicate IsFalse(cs: seq<Condition>, typ: string) {
    var c := Lookup(cs, typ);
    c.Some? && c.value.status == False
  }

  /** Status, reason and message of the Ready condition. */
  function ComputeReady(cs: seq<Condition>): (r: (Verdict, string, string))
    ensures r.0 == True <==> IsTrue(cs, INPUTS_VALID) && IsTrue(cs, CLAIMS_READY) && IsTrue(cs, RUNTIME_READY)
    ensures !r.0.Unknown?
  {
    if !IsTrue(cs, INPUTS_VALID) then
      if IsFalse(cs, INPUTS_VALID) then (False, Lookup(cs, INPUTS_VALID).value.reason,
          "Workload specification validation failed")
      else (False, "SpecInvalid", "Workload specification validation pending")
    else if !IsTrue(cs, CLAIMS_READY) then
      if IsFalse(cs, CLAIMS_READY) then (False, Lookup(cs, CLAIMS_READY).value.reason, "Resource claims are not ready")
      else (False, "ClaimPending", "Resource claims are being provisioned")
    else if !IsTrue(cs, RUNTIME_READY) then
      if IsFalse(cs, RUNTIME_READY) then (False, Lookup(cs, RUNTIME_READY).value.reason, "Runtime provisioning failed")
      else (False, "RuntimeProvisioning", "Runtime is being provisioned")
    else (True, "Succeeded", "Workload is ready and operational")
  }

  /** What Ready waits for, in this order. */
  const AWAITED := [INPUTS_VALID, CLAIMS_READY, RUNTIME_READY]

  /** The reason of a Ready that is False is that of the first of the three that is not True: its own
      reason if it is False, and the one for having to wait if it is missing or unknown. */
  lemma ReadyReason(cs: seq<Condition>, i: nat)
    requires i < 3 && !IsTrue(cs, AWAITED[i]) && forall j :: 0 <= j < i ==> IsTrue(cs, AWAITED[j])
    ensures var own := Lookup(cs, AWAITED[i]);
            && ComputeReady(cs).0 == False
            && ComputeReady(cs).1 ==
                 if own.Some? && own.value.status == False then own.value.reason
                 else ["SpecInvalid", "ClaimPending", "RuntimeProvisioning"][i]
  {
    assert AWAITED[0] == INPUTS_VALID && AWAITED[1] == CLAIMS_READY && AWAITED[2] == RUNTIME_READY;
    assert i == 0 || i == 1 || i == 2;
  }

  /** The stored Ready condition says what the three others say. */
  predicate Consistent(cs: seq<Condition>) {
    IsTrue(cs, READY) <==> IsTrue(cs, INPUTS_VALID) && IsTrue(cs, CLAIMS_READY) && IsTrue(cs, RUNTIME_READY)
  }

  /** Whether a type will be True once the exposure's conditions are mirrored. */
  predicate WillBeTrue(cs: seq<Condition>, ns: seq<Condition>, typ: string) {
    if Last(ns, typ).Some? then Last(ns, typ).value.status == True else IsTrue(cs, typ)
  }

  /** Mirroring leaves Ready consistent exactly when the last word on each of the four types,
      from the exposure or else from the Workload, is. */
  lemma MirrorConsistent(cs: seq<Condition>, ns: seq<Condition>, now: nat)
    ensures Consistent(MirrorAll(cs, ns, now)) <==>
            (WillBeTrue(cs, ns, READY) <==>
             WillBeTrue(cs, ns, INPUTS_VALID) && WillBeTrue(cs, ns, CLAIMS_READY) && WillBeTrue(cs, ns, RUNTIME_READY))
  {
    MirrorLookup(cs, ns, now, READY);
    MirrorLookup(cs, ns, now, INPUTS_VALID);
    MirrorLookup(cs, ns, now, CLAIMS_READY);
    MirrorLookup(cs, ns, now, RUNTIME_READY);
  }

  /** A runtime that reports its own Ready makes a Workload Ready whose other conditions are not. */
  lemma MirrorBreaksReady(cs: seq<Condition>, now: nat) returns (exposure: seq<Condition>)
    requires !IsTrue(cs, INPUTS_VALID)
    ensures !Consistent(MirrorAll(cs, NormalAll(exposure), now))
  {
    var c := Condition("Ready", True, "Ready", "", 0);
    exposure := [c];
    assert exposure[..0] == [];
    assert NormalReason("Ready") == "Succeeded" && NormalType("Ready") == "Ready";
    var ns := NormalAll(exposure);
    assert ns == [Normal(c)] && ns[..0] == [];
    assert |READY| != |INPUTS_VALID|;
    assert Last(ns, READY) == Some(Normal(c)) && Last(ns, INPUTS_VALID).None?;
    MirrorConsistent(cs, ns, now);
  }
}
