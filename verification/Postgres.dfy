/** The provisioner's passes on one claim together with the PostgreSQL strategy, down to its
    single calls: every Provision call draws a fresh password, creates what is missing, and may
    fail or be interrupted after any call. */
module Postgres {
  import opened Api

  datatype Claim = Claim(uid: nat, rv: nat, marked: bool, finalizer: bool, phase: Phase)

  /** A child object with the password baked into it and the uid of the claim that owns it. */
  datatype Child = Child(password: nat, owner: nat)

  datatype Children = Children(sts: Option<Child>, ready: bool, svc: Option<nat>, sec: Option<Child>)

  const NONE := Children(None, false, None, None)

  /** `create` is set once the Get call has found the object missing. */
  datatype Pc =
    | Idle
    | Read(c: Claim)
    | Armed(c: Claim)
    | Sts(c: Claim, password: nat, create: bool)
    | Svc(c: Claim, password: nat, create: bool)
    | Sec(c: Claim, password: nat, create: bool)
    | CheckSec(c: Claim)
    | CheckSts(c: Claim)
    | CheckSvc(c: Claim)
    | Write(c: Claim, phase: Phase, provisioned: bool)
    | DelSts(c: Claim)
    | DelSvc(c: Claim)
    | DelSec(c: Claim)
    | Drop(c: Claim)

  datatype World = World(
    claim: Option<Claim>, kids: Children, pc: Pc, nextUid: nat, nextRv: nat, nextPassword: nat)

  datatype Event =
    | Create
    | Delete
    | Touch
    | Readiness(ready: bool)
    | Collect
    | Get
    | Step(fail: bool)
    | Crash

  function Init(): World {
    World(None, NONE, Idle, 0, 0, 0)
  }

  // ---------------------------------------------------------------- calls on the claim

  predicate Current(w: World, c: Claim) {
    w.claim.Some? && w.claim.value.rv == c.rv
  }

  function Store(w: World, c: Claim): World {
    w.(claim := Some(c.(rv := w.nextRv)), nextRv := w.nextRv + 1)
  }

  // ---------------------------------------------------------------- the pass

  /** What GetStatus reports, in the handler of the phase the claim was read in. Absent or
      unready objects are reported as Claiming, never as Failed. */
  function AfterCheck(c: Claim, healthy: bool, failed: bool, password: nat): Pc {
    match c.phase
    case Claiming =>
      if failed then Write(c, Failed, false)
      else if healthy then Sts(c, password, false)
      else Write(c, Claiming, false)
    case Failed =>
      if !failed && healthy then Write(c, Claiming, false) else Write(c, Failed, false)
    case _ => Write(c, c.phase, false)
  }

  /** The calls on the claim itself. */
  function NextClaim(w: World, fail: bool): World {
    match w.pc
    case Read(c) =>
      if c.marked then w.(pc := if c.finalizer then DelSts(c) else Idle)
      else if !c.finalizer then
        if !fail && Current(w, c) then
          var w' := Store(w, c.(finalizer := true));
          w'.(pc := Armed(w'.claim.value))
        else w.(pc := Idle)
      else if c.phase.Unset? || c.phase.Pending? then
        w.(pc := Sts(c, w.nextPassword, false), nextPassword := w.nextPassword + 1)
      else w.(pc := CheckSec(c))
    case Armed(c) =>
      if !fail && Current(w, c) then Store(w, c.(phase := Pending)).(pc := Idle) else w.(pc := Idle)
    case Write(c, phase, _) =>
      if !fail && Current(w, c) then Store(w, c.(phase := phase)).(pc := Idle) else w.(pc := Idle)
    case Drop(c) =>
      if !fail && Current(w, c) then w.(claim := None, nextRv := w.nextRv + 1, pc := Idle) else w.(pc := Idle)
    case _ => w
  }

  /** The calls of Provision. */
  function NextProvision(w: World, fail: bool): World {
    match w.pc
    case Sts(c, p, create) =>
      if fail || (create && w.kids.sts.Some?) then w.(pc := Write(c, Failed, true))
      else if create then w.(kids := w.kids.(sts := Some(Child(p, c.uid)), ready := false), pc := Svc(c, p, false))
      else if w.kids.sts.Some? then w.(pc := Svc(c, p, false))
      else w.(pc := Sts(c, p, true))
    case Svc(c, p, create) =>
      if fail || (create && w.kids.svc.Some?) then w.(pc := Write(c, Failed, true))
      else if create then w.(kids := w.kids.(svc := Some(c.uid)), pc := Sec(c, p, false))
      else if w.kids.svc.Some? then w.(pc := Sec(c, p, false))
      else w.(pc := Svc(c, p, true))
    case Sec(c, p, create) =>
      if fail || (create && w.kids.sec.Some?) then w.(pc := Write(c, Failed, true))
      else if create then w.(kids := w.kids.(sec := Some(Child(p, c.uid))), pc := Write(c, Bound, true))
      else if w.kids.sec.Some? then w.(pc := Write(c, Bound, true))
      else w.(pc := Sec(c, p, true))
    case _ => w
  }

  /** The calls of GetStatus. */
  function NextCheck(w: World, fail: bool): World {
    match w.pc
    case CheckSec(c) =>
      if fail || w.kids.sec.None? then w.(pc := AfterCheck(c, false, fail, w.nextPassword))
      else w.(pc := CheckSts(c))
    case CheckSts(c) =>
      if fail || w.kids.sts.None? || !w.kids.ready then w.(pc := AfterCheck(c, false, fail, w.nextPassword))
      else w.(pc := CheckSvc(c))
    case CheckSvc(c) =>
      if fail || w.kids.svc.None? then w.(pc := AfterCheck(c, false, fail, w.nextPassword))
      else w.(pc := AfterCheck(c, true, false, w.nextPassword), nextPassword := w.nextPassword + 1)
    case _ => w
  }

  /** The calls of Deprovision. */
  function NextDelete(w: World, fail: bool): World {
    match w.pc
    case DelSts(c) =>
      if fail then w.(pc := Idle) else w.(kids := w.kids.(sts := None, ready := false), pc := DelSvc(c))
    case DelSvc(c) =>
      if fail then w.(pc := Idle) else w.(kids := w.kids.(svc := None), pc := DelSec(c))
    case DelSec(c) =>
      if fail then w.(pc := Idle) else w.(kids := w.kids.(sec := None), pc := Drop(c))
    case _ => w
  }

  predicate Provisioning(pc: Pc) { pc.Sts? || pc.Svc? || pc.Sec? }

  predicate Checking(pc: Pc) { pc.CheckSec? || pc.CheckSts? || pc.CheckSvc? }

  predicate Deleting(pc: Pc) { pc.DelSts? || pc.DelSvc? || pc.DelSec? }

  function Next(w: World, fail: bool): World {
    if Provisioning(w.pc) then NextProvision(w, fail)
    else if Checking(w.pc) then NextCheck(w, fail)
    else if Deleting(w.pc) then NextDelete(w, fail)
    else NextClaim(w, fail)
  }

  // ---------------------------------------------------------------- everybody else

  predicate Owned(w: World, owner: nat) {
    w.claim.Some? && w.claim.value.uid == owner
  }

  function Apply(w: World, e: Event): World {
    match e
    case Create =>
      if w.claim.None? then
        w.(claim := Some(Claim.Claim(w.nextUid, w.nextRv, false, false, Unset)), nextUid := w.nextUid + 1,
            nextRv := w.nextRv + 1)
      else w
    case Delete =>
      if w.claim.None? then w
      else if w.claim.value.finalizer then Store(w, w.claim.value.(marked := true))
      else w.(claim := None, nextRv := w.nextRv + 1)
    case Touch => if w.claim.Some? then Store(w, w.claim.value) else w
    case Readiness(ready) => if w.kids.sts.Some? then w.(kids := w.kids.(ready := ready)) else w
    case Collect =>
      w.(kids := Children(
           if w.kids.sts.Some? && Owned(w, w.kids.sts.value.owner) then w.kids.sts else None,
           w.kids.ready && w.kids.sts.Some? && Owned(w, w.kids.sts.value.owner),
           if w.kids.svc.Some? && Owned(w, w.kids.svc.value) then w.kids.svc else None,
           if w.kids.sec.Some? && Owned(w, w.kids.sec.value.owner) then w.kids.sec else None))
    case Get => if w.pc.Idle? && w.claim.Some? && Due(w.claim.value) then w.(pc := Read(w.claim.value)) else w
    case Step(fail) => Next(w, fail)
    case Crash => w.(pc := Idle)
  }

  /** A marked claim without the finalizer is not reconciled. */
  predicate Due(c: Claim) {
    c.marked ==> c.finalizer
  }

  function Run(w: World, es: seq<Event>): World
    decreases |es|
  {
    if es == [] then w else Run(Apply(w, es[0]), es[1..])
  }

  // ---------------------------------------------------------------- the hypothesis

  /** A Provision call is under way, or has failed and its Failed status is about to be stored. */
  predicate Unsettled(pc: Pc) {
    Provisioning(pc) || (pc.Write? && pc.provisioned && pc.phase.Failed?)
  }

  /** The event ends a pass between the creation of the StatefulSet and that of the Secret
      without storing that the Provision call failed, and the claim is not being deleted. */
  predicate Loses(w: World, e: Event) {
    && Unsettled(w.pc) && w.claim.Some? && !w.claim.value.marked && w.kids.sts.Some? && w.kids.sec.None?
    && (e.Crash? || (e.Step? && w.pc.Write? && (e.fail || !Current(w, w.pc.c))))
  }

  predicate Recorded(w: World, es: seq<Event>)
    decreases |es|
  {
    es == [] || (!Loses(w, es[0]) && Recorded(Apply(w, es[0]), es[1..]))
  }

  // ---------------------------------------------------------------- the invariant

  /** The server and the credentials that workloads read agree. */
  predicate Agree(k: Children) {
    k.sts.Some? && k.sec.Some? ==> k.sts.value.password == k.sec.value.password
  }

  predicate Full(k: Children) {
    k.sts.Some? && k.svc.Some? && k.sec.Some? && Agree(k)
  }

  predicate Empty(k: Children) {
    k.sts.None? && k.svc.None? && k.sec.None?
  }

  /** Created in order, with nothing missing in between. */
  predicate Prefix(k: Children) {
    (k.sec.Some? ==> k.svc.Some?) && (k.svc.Some? ==> k.sts.Some?) && Agree(k)
  }

  /** What the phase of a claim that is not being deleted says about its children. */
  predicate Shape(k: Children, phase: Phase) {
    match phase
    case Unset => Empty(k) || Full(k)
    case Pending => Empty(k) || Full(k)
    case Claiming => Full(k)
    case Bound => Full(k)
    case Failed => Prefix(k)
    case Unknown(_) => false
  }

  /** The children this Provision call has found or made so far. */
  predicate SoFar(k: Children, password: nat, svc: bool) {
    Full(k) || (k.sts.Some? && k.sts.value.password == password && k.svc.Some? == svc && k.sec.None?)
  }

  /** The claim of the pass is stored, finalized, in the phase it was read in. */
  predicate Kept(w: World, c: Claim) {
    && w.claim.Some? && w.claim.value.uid == c.uid && w.claim.value.finalizer && c.finalizer
    && w.claim.value.phase == c.phase && (c.marked ==> w.claim.value.marked)
  }

  predicate Copy(w: World, c: Claim) {
    c.rv < w.nextRv && c.uid < w.nextUid && (Current(w, c) ==> w.claim.value == c)
  }

  /** The pass is in a phase whose handler calls Provision, with a password not used before it. */
  predicate Starting(w: World, c: Claim) {
    !c.marked && (c.phase.Unset? || c.phase.Pending? || (c.phase.Claiming? && Full(w.kids)))
  }

  predicate PcOk(w: World) {
    (!w.pc.Idle? ==> Copy(w, w.pc.c)) &&
    match w.pc
    case Idle => w.claim.Some? && !w.claim.value.marked ==> Shape(w.kids, w.claim.value.phase)
    case Read(c) => (c.finalizer ==> Kept(w, c)) && (w.claim.Some? && !w.claim.value.marked ==>
        Shape(w.kids, w.claim.value.phase))
                    && (c.finalizer && !c.marked ==> Shape(w.kids, c.phase))
    case Armed(c) => Kept(w, c) && c.phase.Unset? && Shape(w.kids, Pending)
    case Sts(c, p, create) => p < w.nextPassword && Kept(w, c) && Starting(w, c)
        && (if create then Empty(w.kids) else Empty(w.kids) || Full(w.kids))
    case Svc(c, p, create) => p < w.nextPassword && Kept(w, c) && Starting(w, c) && SoFar(w.kids, p, false)
        && (create ==> w.kids.svc.None?)
    case Sec(c, p, create) => p < w.nextPassword && Kept(w, c) && Starting(w, c) && SoFar(w.kids, p, true)
        && (create ==> w.kids.sec.None?)
    case CheckSec(c) => Kept(w, c) && !c.marked && Shape(w.kids, c.phase) && !c.phase.Unset? && !c.phase.Pending?
    case CheckSts(c) => Kept(w, c) && !c.marked && Shape(w.kids, c.phase) && !c.phase.Unset? && !c.phase.Pending?
        && w.kids.sec.Some?
    case CheckSvc(c) => Kept(w, c) && !c.marked && Shape(w.kids, c.phase) && !c.phase.Unset? && !c.phase.Pending?
        && w.kids.sec.Some? && w.kids.sts.Some?
    case Write(c, phase, provisioned) =>
      && Kept(w, c) && !c.marked && Shape(w.kids, phase)
      && (provisioned ==> Starting(w, c) && (phase.Bound? || phase.Failed?))
      && (!provisioned || phase.Bound? ==> Shape(w.kids, c.phase))
    case DelSts(c) => Kept(w, c) && c.marked
    case DelSvc(c) => Kept(w, c) && c.marked && w.kids.sts.None?
    case DelSec(c) => Kept(w, c) && c.marked && w.kids.sts.None? && w.kids.svc.None?
    case Drop(c) => Kept(w, c) && c.marked && Empty(w.kids)
  }

  predicate Inv(w: World) {
    && PcOk(w) && Agree(w.kids)
    && (w.claim.Some? ==> w.claim.value.uid < w.nextUid && w.claim.value.rv < w.nextRv)
    && (w.claim.None? || !w.claim.value.finalizer ==> Empty(w.kids))
    && (w.claim.Some? && !w.claim.value.finalizer ==> !w.claim.value.marked && w.claim.value.phase.Unset?)
    && (w.kids.sts.Some? ==> Owned(w, w.kids.sts.value.owner) && w.kids.sts.value.password < w.nextPassword)
    && (w.kids.svc.Some? ==> Owned(w, w.kids.svc.value))
    && (w.kids.sec.Some? ==> Owned(w, w.kids.sec.value.owner))
  }

  lemma OpenKeeps(w: World, fail: bool)
    requires Inv(w) && (w.pc.Read? || w.pc.Armed?)
    ensures Inv(NextClaim(w, fail))
  {
  }

  lemma CloseKeeps(w: World, fail: bool)
    requires Inv(w) && !Loses(w, Step(fail)) && (w.pc.Write? || w.pc.Drop?)
    ensures Inv(NextClaim(w, fail))
  {
  }

  lemma ProvisionKeeps(w: World, fail: bool)
    requires Inv(w) && Provisioning(w.pc)
    ensures Inv(NextProvision(w, fail))
  {
  }

  lemma CheckKeeps(w: World, fail: bool)
    requires Inv(w) && Checking(w.pc)
    ensures Inv(NextCheck(w, fail))
  {
  }

  lemma DeleteKeeps(w: World, fail: bool)
    requires Inv(w) && Deleting(w.pc)
    ensures Inv(NextDelete(w, fail))
  {
  }

  lemma StepKeeps(w: World, fail: bool)
    requires Inv(w) && !Loses(w, Step(fail))
    ensures Inv(Next(w, fail))
  {
    if Provisioning(w.pc) {
      ProvisionKeeps(w, fail);
    } else if Checking(w.pc) {
      CheckKeeps(w, fail);
    } else if Deleting(w.pc) {
      DeleteKeeps(w, fail);
    } else if w.pc.Write? || w.pc.Drop? {
      CloseKeeps(w, fail);
    } else if !w.pc.Idle? {
      OpenKeeps(w, fail);
    }
  }

  /** Rewriting the stored claim in its own phase disturbs no pass, even when it marks it. */
  lemma RewriteKeeps(w: World, c: Claim)
    requires Inv(w) && w.claim.Some? && w.claim.value.finalizer
    requires c == w.claim.value || c == w.claim.value.(marked := true)
    ensures Inv(Store(w, c))
  {
  }

  lemma UserKeeps(w: World, e: Event)
    requires Inv(w) && (e.Create? || e.Delete? || e.Touch?)
    requires w.claim.None? || !w.claim.value.finalizer
    ensures Inv(Apply(w, e))
  {
  }

  /** The garbage collector finds nothing to collect. */
  lemma CollectKeeps(w: World)
    requires Inv(w)
    ensures Inv(Apply(w, Collect))
    ensures w.kids.sts.Some? ==> Apply(w, Collect) == w
  {
    assert w.kids.sts.Some? ==> Apply(w, Collect).kids == w.kids;
  }

  lemma PassKeeps(w: World, e: Event)
    requires Inv(w) && !Loses(w, e) && (e.Get? || e.Crash? || e.Readiness?)
    ensures Inv(Apply(w, e))
  {
  }

  lemma EventKeeps(w: World, e: Event)
    requires Inv(w) && !Loses(w, e)
    ensures Inv(Apply(w, e))
  {
    if e.Step? {
      StepKeeps(w, e.fail);
    } else if e.Collect? {
      CollectKeeps(w);
    } else if e.Get? || e.Crash? || e.Readiness? {
      PassKeeps(w, e);
    } else if w.claim.None? || !w.claim.value.finalizer {
      UserKeeps(w, e);
    } else {
      RewriteKeeps(w, w.claim.value);
      RewriteKeeps(w, w.claim.value.(marked := true));
    }
  }

  lemma {:induction false} RunKeeps(w: World, es: seq<Event>)
    requires Inv(w) && Recorded(w, es)
    ensures Inv(Run(w, es))
    decreases |es|
  {
    if es != [] {
      EventKeeps(w, es[0]);
      RunKeeps(Apply(w, es[0]), es[1..]);
    }
  }

  // ---------------------------------------------------------------- the theorems

  /** In every run that records its failed Provision calls, the password of the server is the
      password in the Secret, whatever calls failed, crashed, raced with deletion or were
      repeated with another fresh password; and a Bound claim has all three objects. */
  lemma PasswordsAgree(es: seq<Event>)
    requires Recorded(Init(), es)
    ensures Agree(Run(Init(), es).kids)
    ensures var w := Run(Init(), es);
            w.claim.Some? && !w.claim.value.marked && w.claim.value.phase.Bound? ==> Full(w.kids)
    ensures Run(Init(), es).claim.None? ==> Empty(Run(Init(), es).kids)
  {
    RunKeeps(Init(), es);
  }

  // ---------------------------------------------------------------- the hypothesis is needed

  lemma RunCons(w: World, e: Event, es: seq<Event>)
    ensures Run(w, [e] + es) == Run(Apply(w, e), es)
    ensures Recorded(w, [e] + es) <==> !Loses(w, e) && Recorded(Apply(w, e), es)
  {
    assert ([e] + es)[1..] == es;
  }

  predicate Broken(w: World) {
    w.claim.Some? && !w.claim.value.marked && w.claim.value.phase.Bound? && w.kids.sec.Some? && !Agree(w.kids)
  }

  /** A pass that finds the StatefulSet of an earlier call and no Secret ends Bound and broken. */
  lemma {:induction false} PassBreaks(w: World) returns (es: seq<Event>)
    requires w.claim.Some? && !w.claim.value.marked && !w.pc.Idle? && w.pc.c == w.claim.value
    requires w.kids.sts.Some?
    requires match w.pc
             case Sts(c, p, create) => !create && w.kids.sec.None? && w.kids.sts.value.password != p
             case Svc(c, p, create) => (create ==> w.kids.svc.None?) && w.kids.sec.None?
                 && w.kids.sts.value.password != p
             case Sec(c, p, create) => w.kids.sec.None? && w.kids.sts.value.password != p
             case Write(c, phase, _) => phase.Bound? && w.kids.sec.Some? && !Agree(w.kids)
             case _ => false
    ensures Broken(Run(w, es)) && Recorded(w, es)
    decreases match w.pc case Sts(_, _, _) => 6 case Svc(_, _, create) => if create then 4 else 5
                         case Sec(_, _, create) => if create then 2 else 3 case _ => 1
  {
    es := [];
    if !w.pc.Write? {
      es := PassBreaks(Apply(w, Step(false)));
    }
    RunCons(w, Step(false), es);
    es := [Step(false)] + es;
  }

  /** One such event is enough: the next pass, undisturbed, makes the claim Bound with a
      Secret that does not open its database. */
  lemma LossBreaks(w: World, e: Event) returns (es: seq<Event>)
    requires Inv(w) && Loses(w, e)
    ensures Broken(Run(Apply(w, e), es)) && Recorded(Apply(w, e), es)
  {
    var w0 := Apply(w, e);
    var w1 := Apply(w0, Get);
    var w2 := Apply(w1, Step(false));
    es := PassBreaks(w2);
    RunCons(w1, Step(false), es);
    es := [Step(false)] + es;
    RunCons(w0, Get, es);
    es := [Get] + es;
  }

  /** Exactly the events that lose a half-made Provision call endanger the passwords. */
  lemma LossExactly(w: World, e: Event)
    requires Inv(w)
    ensures Loses(w, e) <==> exists es :: Recorded(Apply(w, e), es) && !Agree(Run(Apply(w, e), es).kids)
  {
    if Loses(w, e) {
      var es := LossBreaks(w, e);
      assert !Agree(Run(Apply(w, e), es).kids);
    } else {
      EventKeeps(w, e);
      forall es | Recorded(Apply(w, e), es)
        ensures Agree(Run(Apply(w, e), es).kids)
      {
        RunKeeps(Apply(w, e), es);
      }
    }
  }

  /** The claim once the provisioner has adopted it. */
  const ADOPTED := World(Some(Claim.Claim(0, 2, false, true, Pending)), NONE, Idle, 1, 3, 0)

  lemma AdoptedReachable() returns (es: seq<Event>)
    ensures Recorded(Init(), es) && Run(Init(), es) == ADOPTED
  {
    var w1 := Apply(Init(), Create);
    var w2 := Apply(w1, Get);
    var w3 := Apply(w2, Step(false));
    RunCons(w3, Step(false), []);
    RunCons(w2, Step(false), [Step(false)]);
    RunCons(w1, Get, [Step(false)] + [Step(false)]);
    RunCons(Init(), Create, [Get] + ([Step(false)] + [Step(false)]));
    es := [Create] + ([Get] + ([Step(false)] + [Step(false)]));
  }

  lemma {:induction false} RunAppend(w: World, es: seq<Event>, fs: seq<Event>)
    ensures Run(w, es + fs) == Run(Run(w, es), fs)
    ensures Recorded(w, es) && Recorded(Run(w, es), fs) ==> Recorded(w, es + fs)
    decreases |es|
  {
    if es == [] {
      assert es + fs == fs;
    } else {
      assert (es + fs)[1..] == es[1..] + fs;
      RunAppend(Apply(w, es[0]), es[1..], fs);
    }
  }

  /** Such an event does occur: the process stops right after the StatefulSet was created. */
  lemma LossReachable() returns (es: seq<Event>)
    ensures Recorded(Init(), es) && Loses(Run(Init(), es), Crash)
  {
    var w1 := Apply(ADOPTED, Get);
    var w2 := Apply(w1, Step(false));
    var w3 := Apply(w2, Step(false));
    RunCons(w3, Step(false), []);
    RunCons(w2, Step(false), [Step(false)]);
    RunCons(w1, Step(false), [Step(false)] + [Step(false)]);
    var fs := [Step(false)] + ([Step(false)] + [Step(false)]);
    RunCons(ADOPTED, Get, fs);
    es := AdoptedReachable();
    RunAppend(Init(), es, [Get] + fs);
    es := es + ([Get] + fs);
  }

  // ---------------------------------------------------------------- the strategy's code

  /** The first `n` steps of a pass; `fail(i)` says whether its i-th client call fails. */
  function Calls(w: World, fail: nat -> bool, n: nat): World {
    if n == 0 then w else Next(Calls(w, fail, n - 1), fail(n - 1))
  }

  /** The strategy creates what is missing, call by call, and stops at the first failing one:
      the steps of the machine from the start of Provision to its result. */
  class PostgresStrategy {
    var kids: Children

    constructor (k: Children)
      ensures kids == k
    {
      kids := k;
    }

    ghost predicate After(start: World, fail: nat -> bool, n: nat, pc: Pc)
      reads this
    {
      Calls(start, fail, n) == start.(kids := kids, pc := pc)
    }

    method CreateStatefulSet(c: Claim, password: nat, fail: nat -> bool, i: nat, ghost start: World)
      returns (ok: bool, n: nat)
      requires After(start, fail, i, Sts(c, password, false))
      modifies this
      ensures After(start, fail, n, if ok then Svc(c, password, false) else Write(c, Failed, true))
    {
      if fail(i) { return false, i + 1; }
      if kids.sts.Some? { return true, i + 1; }
      assert After(start, fail, i + 1, Sts(c, password, true));
      if fail(i + 1) { return false, i + 2; }
      kids := kids.(sts := Some(Child(password, c.uid)), ready := false);
      return true, i + 2;
    }

    method CreateService(c: Claim, password: nat, fail: nat -> bool, i: nat, ghost start: World)
      returns (ok: bool, n: nat)
      requires After(start, fail, i, Svc(c, password, false))
      modifies this
      ensures After(start, fail, n, if ok then Sec(c, password, false) else Write(c, Failed, true))
    {
      if fail(i) { return false, i + 1; }
      if kids.svc.Some? { return true, i + 1; }
      assert After(start, fail, i + 1, Svc(c, password, true));
      if fail(i + 1) { return false, i + 2; }
      kids := kids.(svc := Some(c.uid));
      return true, i + 2;
    }

    method CreateSecret(c: Claim, password: nat, fail: nat -> bool, i: nat, ghost start: World)
      returns (ok: bool, n: nat)
      requires After(start, fail, i, Sec(c, password, false))
      modifies this
      ensures After(start, fail, n, Write(c, if ok then Bound else Failed, true))
    {
      if fail(i) { return false, i + 1; }
      if kids.sec.Some? { return true, i + 1; }
      assert After(start, fail, i + 1, Sec(c, password, true));
      if fail(i + 1) { return false, i + 2; }
      kids := kids.(sec := Some(Child(password, c.uid)));
      return true, i + 2;
    }

    method Provision(c: Claim, password: nat, fail: nat -> bool, ghost rest: World) returns (ok: bool, n: nat)
      modifies this
      ensures Calls(rest.(kids := old(kids), pc := Sts(c, password, false)), fail, n) ==
              rest.(kids := kids, pc := Write(c, if ok then Bound else Failed, true))
    {
      ghost var start := rest.(kids := kids, pc := Sts(c, password, false));
      ok, n := CreateStatefulSet(c, password, fail, 0, start);
      if !ok { return; }
      ok, n := CreateService(c, password, fail, n, start);
      if !ok { return; }
      ok, n := CreateSecret(c, password, fail, n, start);
    }

    method Deprovision(c: Claim, fail: nat -> bool, ghost rest: World) returns (ok: bool, n: nat)
      modifies this
      ensures Calls(rest.(kids := old(kids), pc := DelSts(c)), fail, n) ==
          rest.(kids := kids, pc := if ok then Drop(c) else Idle)
      ensures ok ==> Empty(kids)
    {
      ghost var start := rest.(kids := kids, pc := DelSts(c));
      assert After(start, fail, 0, DelSts(c));
      if fail(0) { return false, 1; }
      kids := kids.(sts := None, ready := false);
      assert After(start, fail, 1, DelSvc(c));
      if fail(1) { return false, 2; }
      kids := kids.(svc := None);
      assert After(start, fail, 2, DelSec(c));
      if fail(2) { return false, 3; }
      kids := kids.(sec := None);
      return true, 3;
    }
  }

  // ---------------------------------------------------------------- what a pass comes to

  /** Calls that do not fail. */
  function Steps(w: World, k: nat): World
    decreases k
  {
    if k == 0 then w else Steps(Next(w, false), k - 1)
  }

  /** A whole undisturbed pass. No pass takes more than eight calls, and further ones do nothing. */
  function FullPass(w: World, k: nat): World {
    Steps(Apply(w, Get), k)
  }

  lemma StepsOnce(w: World, k: nat)
    requires k > 0
    ensures Steps(w, k) == Steps(Next(w, false), k - 1)
  {
  }

  lemma {:induction false} StepsIdle(w: World, k: nat)
    requires w.pc.Idle?
    ensures Steps(w, k) == w
  {
    if k > 0 { StepsIdle(w, k - 1); }
  }

  /** The pass can start, on a finalized claim in this phase. */
  predicate Waiting(w: World, phase: Phase) {
    && w.pc.Idle? && w.claim.Some? && !w.claim.value.marked && w.claim.value.finalizer && w.claim.value.phase == phase
  }

  /** Nothing but the phase of the claim has changed, or its children. */
  predicate Reaches(w: World, w': World, phase: Phase) {
    w'.pc.Idle? && w.claim.Some? && w'.claim.Some? && w'.claim.value == w.claim.value.(phase := phase, rv := w.nextRv)
  }

  lemma WriteCloses(w: World, c: Claim, phase: Phase, provisioned: bool, k: nat)
    requires w.pc == Write(c, phase, provisioned) && w.claim == Some(c) && k > 0
    ensures Steps(w, k) == Store(w, c.(phase := phase)).(pc := Idle)
  {
    StepsOnce(w, k);
    StepsIdle(Store(w, c.(phase := phase)).(pc := Idle), k - 1);
  }

  /** What is there already is kept. */
  lemma ProvisionFinds(w: World, c: Claim, p: nat, k: nat)
    requires w.pc == Sts(c, p, false) && w.claim == Some(c) && Full(w.kids) && k >= 4
    ensures Steps(w, k) == Store(w, c.(phase := Bound)).(pc := Idle)
  {
    var w1, w2, w3 := w.(pc := Svc(c, p, false)), w.(pc := Sec(c, p, false)), w.(pc := Write(c, Bound, true));
    StepsOnce(w, k);
    StepsOnce(w1, k - 1);
    StepsOnce(w2, k - 2);
    WriteCloses(w3, c, Bound, true, k - 3);
  }

  lemma MakesStatefulSet(w: World, c: Claim, p: nat, k: nat)
    requires w.pc == Sts(c, p, false) && w.kids.sts.None?
    ensures Steps(w, k + 2) ==
        Steps(w.(kids := w.kids.(sts := Some(Child(p, c.uid)), ready := false), pc := Svc(c, p, false)), k)
  {
    StepsOnce(w, k + 2);
    StepsOnce(w.(pc := Sts(c, p, true)), k + 1);
  }

  lemma MakesService(w: World, c: Claim, p: nat, k: nat)
    requires w.pc == Svc(c, p, false) && w.kids.svc.None?
    ensures Steps(w, k + 2) == Steps(w.(kids := w.kids.(svc := Some(c.uid)), pc := Sec(c, p, false)), k)
  {
    StepsOnce(w, k + 2);
    StepsOnce(w.(pc := Svc(c, p, true)), k + 1);
  }

  lemma MakesSecret(w: World, c: Claim, p: nat, k: nat)
    requires w.pc == Sec(c, p, false) && w.kids.sec.None?
    ensures Steps(w, k + 2) ==
        Steps(w.(kids := w.kids.(sec := Some(Child(p, c.uid))), pc := Write(c, Bound, true)), k)
  {
    StepsOnce(w, k + 2);
    StepsOnce(w.(pc := Sec(c, p, true)), k + 1);
  }

  lemma ProvisionMakes(w: World, c: Claim, p: nat, k: nat)
    requires w.pc == Sts(c, p, false) && w.claim == Some(c) && Empty(w.kids) && k >= 7
    ensures var kids := Children(Some(Child(p, c.uid)), false, Some(c.uid), Some(Child(p, c.uid)));
            Steps(w, k) == Store(w, c.(phase := Bound)).(pc := Idle, kids := kids)
  {
    var w1 := w.(kids := w.kids.(sts := Some(Child(p, c.uid)), ready := false), pc := Svc(c, p, false));
    var w2 := w1.(kids := w1.kids.(svc := Some(c.uid)), pc := Sec(c, p, false));
    var w3 := w2.(kids := w2.kids.(sec := Some(Child(p, c.uid))), pc := Write(c, Bound, true));
    MakesStatefulSet(w, c, p, k - 2);
    MakesService(w1, c, p, k - 4);
    MakesSecret(w2, c, p, k - 6);
    WriteCloses(w3, c, Bound, true, k - 6);
  }

  /** An undisturbed pass on a new or Pending claim makes it Bound, with all three objects and one
      password in them, and keeps objects that are there. */
  lemma PendingPass(w: World, phase: Phase, k: nat)
    requires k >= 8 && Inv(w) && Waiting(w, phase) && (phase.Unset? || phase.Pending?)
    ensures Reaches(w, FullPass(w, k), Bound) && Full(FullPass(w, k).kids)
    ensures Full(w.kids) ==> FullPass(w, k).kids == w.kids
  {
    var c, p := w.claim.value, w.nextPassword;
    var w1 := w.(pc := Sts(c, p, false), nextPassword := p + 1);
    StepsOnce(Apply(w, Get), k);
    if Full(w.kids) { ProvisionFinds(w1, c, p, k - 1); } else { ProvisionMakes(w1, c, p, k - 1); }
  }

  /** What the health check sees: everything there and the server ready. */
  predicate Healthy(k: Children) {
    k.sts.Some? && k.ready && k.svc.Some? && k.sec.Some?
  }

  /** The state once the check is over. */
  function Checked(w: World, c: Claim): World {
    var p := w.nextPassword;
    if Healthy(w.kids) then w.(pc := AfterCheck(c, true, false, p), nextPassword := p + 1)
    else w.(pc := AfterCheck(c, false, false, p))
  }

  lemma CheckSees(w: World, c: Claim, k: nat) returns (j: nat)
    requires w.pc == CheckSec(c) && k >= 3
    ensures 1 <= j <= 3 && Steps(w, k) == Steps(Checked(w, c), k - j)
  {
    StepsOnce(w, k);
    if w.kids.sec.None? {
      j := 1;
    } else {
      var w1 := w.(pc := CheckSts(c));
      StepsOnce(w1, k - 1);
      if w.kids.sts.None? || !w.kids.ready {
        j := 2;
      } else {
        StepsOnce(w.(pc := CheckSvc(c)), k - 2);
        j := 3;
      }
    }
  }

  /** The check is over and nothing is provisioned. */
  lemma CheckCloses(w: World, c: Claim, phase: Phase, k: nat)
    requires w.pc == CheckSec(c) && w.claim == Some(c) && k >= 4
    requires AfterCheck(c, Healthy(w.kids), false, w.nextPassword) == Write(c, phase, false)
    ensures Reaches(w, Steps(w, k), phase) && Steps(w, k).kids == w.kids
  {
    var j := CheckSees(w, c, k);
    WriteCloses(Checked(w, c), c, phase, false, k - j);
  }

  /** A Failed claim is claimed again exactly when everything is there and ready. */
  lemma FailedPass(w: World, k: nat)
    requires k >= 8 && Inv(w) && Waiting(w, Failed)
    ensures Reaches(w, FullPass(w, k), if Healthy(w.kids) then Claiming else Failed) && FullPass(w, k).kids == w.kids
  {
    var c := w.claim.value;
    StepsOnce(Apply(w, Get), k);
    CheckCloses(w.(pc := CheckSec(c)), c, if Healthy(w.kids) then Claiming else Failed, k - 1);
  }

  /** A claim being claimed becomes Bound exactly when everything is there and ready. */
  lemma ClaimingPass(w: World, k: nat)
    requires k >= 8 && Inv(w) && Waiting(w, Claiming)
    ensures Reaches(w, FullPass(w, k), if Healthy(w.kids) then Bound else Claiming) && FullPass(w, k).kids == w.kids
  {
    var c, p := w.claim.value, w.nextPassword;
    var w1 := w.(pc := CheckSec(c));
    StepsOnce(Apply(w, Get), k);
    if Healthy(w.kids) {
      var j := CheckSees(w1, c, k - 1);
      ProvisionFinds(Checked(w1, c), c, p, k - 1 - j);
    } else {
      CheckCloses(w1, c, Claiming, k - 1);
    }
  }

  /** An undisturbed pass on a marked claim removes the three objects and the claim. */
  lemma DeletingPass(w: World, k: nat)
    requires k >= 8 && w.pc.Idle? && w.claim.Some? && w.claim.value.marked && w.claim.value.finalizer
    ensures FullPass(w, k).claim.None? && Empty(FullPass(w, k).kids)
  {
    var c := w.claim.value;
    var w1 := w.(pc := DelSts(c));
    var w2 := w.(pc := DelSvc(c), kids := w.kids.(sts := None, ready := false));
    var w3 := w2.(pc := DelSec(c), kids := w2.kids.(svc := None));
    var w4 := w3.(pc := Drop(c), kids := w3.kids.(sec := None));
    StepsOnce(Apply(w, Get), k);
    StepsOnce(w1, k - 1);
    StepsOnce(w2, k - 2);
    StepsOnce(w3, k - 3);
    StepsOnce(w4, k - 4);
    StepsIdle(Next(w4, false), k - 5);
  }
}
