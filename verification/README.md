# Score Orchestrator: a verified model

Score Orchestrator turns Workloads into running software on Kubernetes. A pipeline creates one
ResourceClaim per resource of a Workload, a provisioner fulfils the claims, a resolver fills
placeholders with the claims' outputs, a selector picks a backend, and the result is stored as a
WorkloadPlan for a runtime. Exposures published by the runtime are mirrored back to the Workload.

The project models these controllers and proves properties of them with Dafny. `dafny verify
dfyconfig.toml` checks everything.

| file | contents |
|---|---|
| `Api` | Workloads and ResourceClaims, and the calls of the API server on them |
| `Lifecycle`, `Protocol` | phase decisions; pipeline, provisioner, users and garbage collector as one state machine |
| `ProtocolClaims`, `ProtocolSafety`, `ProtocolTheorems` | invariants of every run, and what follows from them |
| `ProtocolNames`, `ProtocolCollision` | claim names: which declarations keep Workloads apart, and what happens otherwise |
| `ProtocolLive`, `ProtocolLeak` | no leaked infrastructure, and exactly what leaks it |
| `ProtocolProgress`, `ProtocolPasses`, `ProtocolCompletion`, `ProtocolWitnesses` | deletion makes progress on every working pass, can always be completed, and what holds it up |
| `Controllers`, `Outcomes`, `Claims` | the controllers' code on mutable objects, proved to be runs of the machine; what a pass leaves in the store; claims and their aggregate |
| `Postgres` | the PostgreSQL strategy, call by call |
| `Conditions`, `Exposure`, `Recreation` | condition lists; registrar, runtime, mirror and status as one state machine; recreated Workloads |
| `Resolver`, `Plan`, `Json`, `Merge` | placeholders, the plan gate, the stored plan, the deep merge |
| `Quantity`, `Version`, `Config`, `Selection` | quantities, SemVer precedence, the validator, backend selection |
| `ConfigObjects`, `Cache` | the configuration on the heap and its deep copy; the loader and its cache |

## How the machines are built

Every event of a machine performs at most one client call, so passes of different controllers,
users, the garbage collector and crashes interleave freely. An event whose guard does not hold
changes nothing, so every sequence of events is a run, and a theorem about all sequences is a
theorem about all interleavings. A pass is a program counter with the objects it has read. Answers
of strategies, runtimes and the clock are parameters of events.

Updates are guarded by the resource version, status is a subresource, deletion marks an object
that has finalizers, merge patches send only the fields that differ (section 2 of RFC 7396).

## Where the code does not meet a property

For these the condition under which it does is proved, with a witness for the failure.

- A crash, or a lost status write, between the creation of the StatefulSet and that of the Secret
  lets the next pass store a Secret with another password. `Postgres.LossExactly` proves that
  exactly these events do.
- Two Workloads whose name and key join to the same claim name (`Claims.NamesCollide` says which) fight
  over one claim, and the garbage collector may take it: `ProtocolCollision.ApartExactly`, with a run for
  every such pair (`ProtocolCollision.CollisionRobs`).
- A claim whose type changed leaves its old infrastructure behind (`ProtocolLeak.LeakExactly`, with the run
  `ProtocolLeak.LeakReachable`).
- What a marked Workload waits for can still grow while a pass begun before the mark creates claims
  (`ProtocolProgress.MeasureRisesExactly`, with the run `ProtocolWitnesses.RiseReachable`).
- Somebody else's finalizer on a claim holds up the deletion of its Workload, and the controllers have nothing
  left to do about it (`ProtocolPasses.DropExactly`, `ProtocolPasses.HeldUpExactly`, with the run
  `ProtocolWitnesses.HeldUpReachable`).
- A Workload recreated too early can be given the old URL (`Recreation.EarlyExactly`, with the run
  `Recreation.EarlyReachable`).
- The mirror's patch may meet a Workload edited since it was read (`Exposure.WriteIsCurrent`, with the run
  `Recreation.LateWriteReachable`).
- Runtime conditions copied by the mirror can contradict Ready (`Conditions.MirrorConsistent`, with the conditions of
  `Conditions.MirrorBreaksReady`).
- The second mirroring of one exposure may report a change (`Conditions.MirrorTwiceQuiet`, with the conditions of
  `Conditions.NormalizationMerges`).
- The deep merge is not associative (`Merge.Associative`, with the maps of `Merge.NotAssociative`).
- Outputs that contain or begin references can be resolved again (`Resolver.OnePassExactly`, with the outputs of
  `Resolver.RescannedExample`).
- Sums beyond 64 bits wrap and are accepted (`Quantity.AnswersExactly`, with the containers of
  `Quantity.OverflowAccepted`).
- Bounds beyond 64 bits: next to a lower bound that fits such an upper bound gives wrong answers, and a lower bound whose number fits but wraps with its unit
  lets everything pass (`Quantity.UpperExactly`, `Quantity.LowerExactly`, `Quantity.BoundsExactly` for both at once,
  with the bound of `Quantity.WrappedBound`).
- A bound in a unit that the validator accepts and the selector does not know, such as `512Ki`, rejects every
  Workload (`Quantity.ValidatedParses`).
- An exact memory constraint such as `1Gi` accepts no Workload (`Quantity.ExactIsTextual`).
- An answer from the configuration cache lacks the reconciler section that the first answer has
  (`Cache.Loader.LoadConfig`, with the document of `Cache.SectionLost`).
- A plan that compares equal keeps its old values (`Plan.PlanStore.Upsert` with `Plan.ValuesAgree` says when they
  differ, with the outputs of `Plan.OutputExample`).

## Model

| member | source | states |
|---|---|---|
| ProtocolTheorems.LeavesClean | internal/controller/phases/deletion.go:37-96 | Over every interleaving whose declared names and keys join to different claim names, a Workload that ever carried the finalizer leaves the store only when no claim of it with effective policy Delete remains and no claim of it has an owner reference |
| ProtocolTheorems.CollectorIdle | internal/controller/phases/deletion.go:135-151 | In every such run the garbage collector finds nothing to delete, so retained and orphaned claims survive |
| ProtocolTheorems.SparedSurvives | internal/controller/phases/deletion.go:99-162 | In every such run a claim to be retained or orphaned is neither removed nor marked by anybody but the user who deletes it |
| ProtocolTheorems.OwnerStays | internal/controller/reconciler/pipeline.go:76-88 | In every such run a claim has an owner only while the Workload it refers to is stored under that uid and carries the finalizer |
| ProtocolTheorems.WhoRemoves | internal/controller/phases/deletion.go:84-96 | Only the release step of the deletion phase removes a Workload that carries the finalizer, and it changes no claim |
| ProtocolNames.TameByNames | internal/controller/managers/claim_manager.go:67-157 | A run whose users declare no two name and key pairs of different Workloads that join to one claim name never takes over another Workload's claim |
| ProtocolNames.ReachableNames | internal/controller/managers/claim_manager.go:68 | In every run each stored claim carries the name joined from the Workload and key in its spec, and a user declared that pair |
| ProtocolCollision.ApartExactly | internal/controller/managers/claim_manager.go:67-157 | For every set of pairs: none of them collide exactly when no run that declares only these lets the collector delete a claim that a live Workload declares |
| ProtocolCollision.CollisionRobs | internal/controller/managers/claim_manager.go:67-157 | For any two colliding pairs, a run from the start in which the collector deletes the second Workload's claim after the first is gone |
| ProtocolCollision.CollisionExample | internal/controller/managers/claim_manager.go:68 | Such a run for Workload `a` with key `b-c` and Workload `a-b` with key `c` |
| ProtocolTheorems.BoundMeansGranted | internal/controller/provisioner_lifecycle.go:29-76 | In every run Bound, outputs available, outputs present and outputs valid are equivalent, and the outputs of a Bound claim were returned by a Provision call for that very claim |
| ProtocolTheorems.PhasesMove | internal/controller/provisioner_controller.go:180-329 | No event moves a stored claim along any phase change but the listed ones; Failed never becomes Bound directly |
| ProtocolClaims.EventKeepsCore | internal/controller/provisioner_controller.go:109-365 | Every event of every actor keeps statuses coherent and the provisioner's finalizer on every claim a pass works on |
| ProtocolSafety.EventKeeps | internal/controller/reconciler/pipeline.go:59-129 | Every event keeps the invariant that ties claims, owners, finalizers and running passes together |
| ProtocolLive.NothingLeaks | internal/controller/provisioner_controller.go:332-365 | In every run that does not change this claim's type, whatever was provisioned for it and not yet deprovisioned belongs to the stored claim, which still carries the provisioner's finalizer |
| ProtocolLeak.LeakExactly | internal/controller/provisioner_controller.go:345-360 | In every state of the invariant, an event makes it possible for a resource to be left behind in an otherwise type-keeping run exactly when it is an accepted upsert that changes the claim's type |
| ProtocolLeak.LeakReachable | internal/controller/provisioner_controller.go:345-360 | A run from the start that leaves a resource behind |
| ProtocolLeak.TeardownExactly | internal/controller/provisioner_controller.go:345-360 | A completed deletion pass leaves a resource behind exactly when it was created under another type or no strategy is registered |
| ProtocolProgress.MeasureRisesExactly | internal/controller/phases/deletion.go:54-91 | While a Workload waits, the measure rises exactly when a pass that read it before the mark creates a claim or wipes a sparing policy, and the wait ends only with nothing left to delete |
| ProtocolWitnesses.RiseReachable | internal/controller/managers/claim_manager.go:67-157 | A run from the start in which it rises: the Workload is deleted between the read and the write of an upsert |
| ProtocolProgress.MeasureNeverRises | internal/controller/phases/deletion.go:54-91 | Once no such pass is left, no event of any actor raises it, and no such pass starts again |
| ProtocolPasses.RunNeverRises | internal/controller/phases/deletion.go:54-91 | The same over every run |
| ProtocolPasses.DeletionPassFalls | internal/controller/phases/deletion.go:37-96 | In every run, whatever events lie between its calls, a deletion pass that has work and ends without an error lowers the measure |
| ProtocolPasses.DropExactly | internal/controller/provisioner_controller.go:332-365 | An accepted last call of a provisioner pass lowers the measure, and the claim goes, exactly when no other party has a finalizer on the claim; either way the provisioner is done with it |
| ProtocolPasses.ProvisionerPassFalls | internal/controller/provisioner_controller.go:332-365 | In every run, whatever events lie between its calls, a provisioner pass that takes off the last finalizer of a claim lowers the measure |
| ProtocolPasses.PassesBounded | internal/controller/phases/deletion.go:54-91 | Every run holds at most as many working passes as the measure at its start: one per claim that is unmarked or has the provisioner's finalizer, and two more; every accepted finalizer removal counts |
| ProtocolPasses.WorkRemains | internal/controller/phases/deletion.go:73-91 | While the Workload waits there is work for a deletion pass, or a marked claim with the provisioner's finalizer, exactly as long as not all claims left are kept by other parties only |
| ProtocolPasses.HeldUpExactly | internal/controller/phases/deletion.go:73-91 | Then an event lowers the measure exactly when another party takes the last finalizer off a claim |
| ProtocolWitnesses.HeldUpReachable | internal/controller/phases/deletion.go:73-91 | A run from the start that ends so, for any foreign finalizer |
| ProtocolCompletion.DeletionPass | internal/controller/phases/deletion.go:37-96 | One undisturbed deletion pass marks every claim to be deleted and lowers the measure whenever it has work |
| ProtocolCompletion.ProvisionerPass | internal/controller/provisioner_controller.go:332-365 | One undisturbed provisioner pass on a marked claim removes it and lowers the measure |
| ProtocolCompletion.DeletionCompletes | internal/controller/phases/deletion.go:54-91 | From every reachable waiting state a schedule of at most twice as many passes as there are claims, plus one, makes the Workload disappear |
| Lifecycle.UnboundCoherent | internal/controller/provisioner_lifecycle.go:48-76 | SetPending, SetClaiming and SetFailed leave a coherent status from any status, and move along a listed phase change exactly from the named phases |
| Lifecycle.BoundCoherent | internal/controller/provisioner_lifecycle.go:62-69 | SetBound leaves a coherent status exactly for valid outputs, and moves along a listed phase change exactly from a phase that is neither Failed nor unknown |
| Lifecycle.RefusedExactly | internal/provisioner/outputs.go:19-37 | Outputs are refused exactly when there are none or nothing in them is set |
| Controllers.ClaimObject.FinalizerPresent | internal/controller/provisioner_lifecycle.go:84-91 | The search finds the finalizer exactly when it is in the list |
| Controllers.ClaimObject.RemoveFinalizer | internal/controller/provisioner_lifecycle.go:101-109 | The loop keeps all other finalizers in their order |
| Controllers.ClaimObject.IsDue | internal/controller/provisioner_lifecycle.go:117-136 | Reconciles marked claims with the finalizer, and all others unless Bound for the present generation |
| Controllers.Provisioner.HandleProvisioning | internal/controller/provisioner_controller.go:180-329 | The handlers leave the claim in the status, and the infrastructure in the state, that the machine's steps do |
| Outcomes.BoundOutcome | internal/controller/provisioner_controller.go:287-308 | After a pass a Bound claim whose check reports Failed is Failed with the reported reason and message and without outputs; after any other answer it is as it was |
| Outcomes.FailedOutcome | internal/controller/provisioner_controller.go:310-329 | A Failed claim found Bound is Claiming, and otherwise as it was |
| Outcomes.ClaimingOutcome | internal/controller/provisioner_controller.go:238-285 | A Claiming claim fails with the check or the resource, is provided for once the resource is Bound, and is otherwise as it was |
| Outcomes.PendingOutcome | internal/controller/provisioner_controller.go:207-235 | A new or Pending claim is Bound with exactly the outputs returned, if they are accepted, and otherwise Failed with the reason |
| Outcomes.OtherOutcome | internal/controller/provisioner_controller.go:180-203 | Without a strategy the claim is Failed; an unknown phase becomes Pending |
| Outcomes.SkippedOutcome | internal/controller/provisioner_lifecycle.go:117-136 | A claim Bound for its present generation, or marked and let go of, is left alone |
| Outcomes.AdoptedOutcome | internal/controller/provisioner_controller.go:140-162 | A new claim gets the finalizer and is Pending, and nothing is provisioned yet |
| Outcomes.DeletedOutcome | internal/controller/provisioner_controller.go:332-365 | A marked claim loses the finalizer, and goes if it was the last, exactly when its resources were torn down or no strategy is registered |
| Controllers.Provisioner.HandleDeletion | internal/controller/provisioner_controller.go:332-365 | Drops the finalizer only after Deprovision succeeded or when no strategy is registered |
| Controllers.Provisioner.Reconcile | internal/controller/provisioner_controller.go:109-177 | An undisturbed pass of the code is exactly a run of the protocol machine |
| Controllers.FilterOwners | internal/controller/phases/deletion.go:139-145 | The loop keeps exactly the owner references that do not refer to the Workload, in order |
| Controllers.DeletionPhase.ProcessDeprovisionPolicy | internal/controller/phases/deletion.go:99-162 | Deletes, or removes the owner reference, as the effective policy says |
| Controllers.DeletionPhase.CountToWaitFor | internal/controller/phases/deletion.go:73-81 | The counter is positive exactly when a claim with effective policy Delete is listed |
| Controllers.DeletionPhase.Execute | internal/controller/phases/deletion.go:37-96 | An undisturbed deletion pass of the code, in any listing order, is exactly a run of pipeline steps of the machine |
| Claims.AggregateStatus | internal/controller/managers/claim_manager.go:227-292 | Ready exactly when every claim is Bound with outputs available, failed exactly when some claim is Failed, else pending; every claim is summarized in order, one without phase as Pending |
| Claims.CountPhases | internal/status/aggregate.go:47-75 | The counting loop, textually the same in both copies, equals the quantifiers over the claims |
| Claims.AggregateOrder | internal/status/aggregate.go:47-98 | The verdict does not depend on the order of the claims |
| Claims.ClaimManager.EnsureClaims | internal/controller/managers/claim_manager.go:57-64 | In any key order, afterwards each resource key has exactly one claim, with the reference, key, type and class declared, no ID, and parameters exactly if declared; claims that agreed so are untouched with their policy, all others keep everything but the spec, other names are untouched, and the pass is a run of pipeline steps |
| Claims.ReachableStore | internal/controller/managers/claim_manager.go:67-157 | Every reachable store is one for which EnsureClaims promises this, and holds at most one claim per Workload and key |
| Claims.ClaimManager.Upsert | internal/controller/managers/claim_manager.go:67-187 | The same for one key; a claim that is created is owned by the Workload |
| Claims.NamesCollide | internal/controller/managers/claim_manager.go:68 | Exactly which names and keys of two Workloads join to the same claim name |
| Postgres.PasswordsAgree | internal/provisioner/strategy/postgres/postgres_strategy.go:38-97 | In every run that loses no half-made Provision call, StatefulSet and Secret agree on the password whenever both exist, and a Bound claim has all three objects |
| Postgres.LossExactly | internal/controller/provisioner_controller.go:215-221 | In every state of the invariant, an event makes a disagreement possible in an otherwise well-recorded run exactly when it loses a half-made Provision call |
| Postgres.LossReachable | internal/provisioner/strategy/postgres/postgres_strategy.go:50-57 | Such an event can occur: a crash right after the StatefulSet was created |
| Postgres.EventKeeps | internal/controller/provisioner_controller.go:239-329 | Every other event keeps the shape that each phase promises of the three objects |
| Postgres.PendingPass | internal/provisioner/strategy/postgres/postgres_strategy.go:38-107 | An undisturbed pass on a new or Pending claim makes it Bound with all three objects and one password in them, and keeps objects that are there |
| Postgres.ClaimingPass | internal/provisioner/strategy/postgres/postgres_strategy.go:151-218 | A Claiming claim becomes Bound exactly when everything is there and the server ready |
| Postgres.FailedPass | internal/provisioner/strategy/postgres/postgres_strategy.go:151-218 | A Failed claim is claimed again exactly then |
| Postgres.DeletingPass | internal/provisioner/strategy/postgres/postgres_strategy.go:110-148 | A pass on a marked claim removes the three objects and the claim |
| Postgres.PostgresStrategy.Provision | internal/provisioner/strategy/postgres/postgres_strategy.go:38-107 | The code, stopped by the first failing call, takes exactly the machine's steps from the start of Provision to its result |
| Postgres.PostgresStrategy.CreateStatefulSet | internal/provisioner/strategy/postgres/postgres_strategy.go:383-398 | Creates the StatefulSet only if it is absent |
| Postgres.PostgresStrategy.Deprovision | internal/provisioner/strategy/postgres/postgres_strategy.go:110-148 | Deletes the three objects in order; on success none is left |
| Conditions.ConditionList.SetCondition | internal/conditions/conditions.go:66-93 | In place: the first condition of the type is replaced or one is appended; the transition time changes exactly with status or reason |
| Conditions.ConditionList.ApplyUpdates | internal/conditions/conditions.go:136-140 | The loop equals the fold of the single updates |
| Conditions.ConditionList.SetStatusCondition | internal/controller/exposure_mirror_controller.go:167-195 | In place; the transition time changes only with the status |
| Conditions.ConditionList.MirrorConditions | internal/controller/exposure_mirror_controller.go:131-154 | Mirrors the normalized conditions and reports a change exactly when one was made |
| Conditions.CallsRefineMap | internal/controller/exposure_mirror_controller.go:167-195 | Any mix of both setters keeps types distinct and is a sequence of map updates of the named types |
| Conditions.MirrorIdempotent | internal/controller/exposure_mirror_controller.go:131-154 | Mirroring the same exposure twice changes no status, reason or message |
| Conditions.MirrorTwiceQuiet | internal/controller/exposure_mirror_controller.go:143-151 | The second call reports no change exactly when the normalized conditions of each type agree |
| Conditions.NormalizationMerges | internal/status/normalize.go:114-148 | Distinct runtime types can be normalized to one type that disagrees |
| Conditions.Normalize | internal/status/normalize.go:9-42 | The result holds the normalized form of exactly the mappable conditions, each once and in their order |
| Conditions.ReasonWords | internal/status/normalize.go:44-112 | A reason is kept as the one of the fixed vocabulary whose words include it |
| Conditions.WordsKept | internal/status/normalize.go:44-112 | And every word listed is kept |
| Conditions.TypeWords | internal/status/normalize.go:114-148 | The same for types |
| Conditions.TypesKept | internal/status/normalize.go:114-148 | And every type listed is kept |
| Conditions.ComputeReady | internal/conditions/conditions.go:144-174 | True exactly when all three conditions are True, False otherwise |
| Conditions.ReadyReason | internal/conditions/conditions.go:144-174 | A Ready that is False carries the reason of the first of the three conditions that is not True |
| Conditions.MirrorConsistent | internal/controller/exposure_mirror_controller.go:131-154 | Mirrored conditions leave Ready consistent exactly when the last word on each of the four types is |
| Conditions.MirrorBreaksReady | internal/controller/exposure_mirror_controller.go:131-154 | A runtime that reports its own Ready makes an unready Workload Ready |
| Exposure.MirrorSafe | internal/controller/exposure_mirror_controller.go:60-128 | In every run an exposure of the Workload is never ahead of its generation, the mirror patches only after it read a Workload of the exposure's uid and generation, and the endpoint is empty or a valid URL published first |
| Exposure.MirrorOutcome | internal/controller/exposure_mirror_controller.go:60-154 | After an undisturbed pass the endpoint is the first URL if valid and otherwise none, each type reported has what was reported last, and nothing else of the Workload changed |
| Exposure.RegistrarOutcome | internal/controller/workloadexposure_registrar_controller.go:50-121 | After an undisturbed pass an exposure refers to the Workload in its present generation and class; one that was there keeps status and owner |
| Exposure.WriteIsCurrent | internal/controller/exposure_mirror_controller.go:60-100 | The object that the patch is applied to has that uid and generation exactly when nobody edited, marked or removed it since the mirror read it |
| Recreation.LateWriteReachable | internal/controller/exposure_mirror_controller.go:76-88 | A run from the start in which the endpoint of an older generation is stored |
| Exposure.RegistrarKeeps | internal/controller/workloadexposure_registrar_controller.go:50-121 | Creating or patching the exposure's spec keeps that invariant |
| Recreation.EndpointIsOwn | internal/controller/exposure_mirror_controller.go:60-65 | In every run without an early recreation the endpoint was published for this incarnation of the Workload |
| Recreation.EarlyExactly | internal/controller/workloadexposure_registrar_controller.go:50-121 | In every state of such a run, an event is an early recreation exactly when some continuation without another one stores an endpoint never published for the stored incarnation |
| Recreation.EarlyReachable | internal/controller/workloadexposure_registrar_controller.go:106-118 | A run from the start that does |
| Exposure.FinalReady | internal/controller/managers/status_manager.go:150-229 | What a pass stores is Ready exactly when every listed claim was Bound with outputs and the plan read was Ready, and agrees with the three other conditions |
| Exposure.ReadyIsEarned | internal/controller/phases/status.go:20-44 | In every run with exposures without copied conditions, stored Ready is the conjunction of the three others and becomes True only by the status write of such a pass |
| Resolver.ResolveValue | internal/reconcile/resolver.go:76-127 | For every string: succeeds exactly when every relevant match is defined, otherwise reports an undefined one |
| Resolver.Substitute | internal/reconcile/resolver.go:86-104 | The loop stops at the first undefined match, and otherwise makes all replacements |
| Resolver.FindAllRefs | internal/reconcile/resolver.go:78-85 | On clean templates both patterns find exactly the references of their format |
| Resolver.ParseUnparse | internal/reconcile/resolver.go:78-79 | A clean template is recovered from its text |
| Resolver.UnparseParse | internal/reconcile/resolver.go:78-79 | Every string is the text of its tokens |
| Resolver.ReplaceEachRender | internal/reconcile/resolver.go:85-124 | Any sequence of replacements, whatever repeats or order, of references whose outputs leave each other alone equals one pass |
| Resolver.ResolutionIsOnePass | internal/reconcile/resolver.go:76-127 | On clean templates in one format whose referenced outputs leave each other alone, succeeds exactly when all references are defined and equals simultaneous replacement |
| Resolver.OnePassExactly | internal/reconcile/resolver.go:76-127 | For every outputs: all clean templates in one format are rendered in one pass exactly when no output begins, anywhere in it, the text of a reference whose own output differs from that text |
| Resolver.CleanIsInert | internal/reconcile/resolver.go:94 | Outputs without `$` are such |
| Resolver.OutputsAreRescanned | internal/reconcile/resolver.go:94 | For any two outputs that are not, a template on which the code differs from one pass |
| Resolver.RescannedExample | internal/reconcile/resolver.go:94 | Concrete outputs for which there is one: a single dollar sign suffices |
| Resolver.MixedIsBlocked | internal/reconcile/resolver.go:106-124 | A clean template that mixes both formats keeps a placeholder, whatever the outputs hold |
| Resolver.BlockedExactly | internal/reconcile/resolver.go:106-124 | When the referenced outputs hold no `$`, exactly the templates that mix both formats keep one |
| Resolver.UnresolvedExactly | internal/projection/placeholder.go:8-29 | The test finds a placeholder exactly in the strings of the form `a${x}c` with a nonempty x without a closing brace |
| Plan.ScanExactly | internal/projection/placeholder.go:26-44 | The scan finds a placeholder exactly when some string leaf holds one, which `Resolver.UnresolvedExactly` spells out |
| Plan.BuildResolvedOutputs | internal/reconcile/resolver.go:130-182 | The loop dereferences no missing outputs, given what `Plan.ReadersAreSafe` proves, and offers what `Offered` says |
| Plan.ReadersAreSafe | internal/reconcile/values.go:159-194 | Claims listed from any reachable store have their outputs present whenever available, so the readers of outputs dereference nothing missing |
| Plan.OfferedByLast | internal/reconcile/resolver.go:130-182 | Outputs are offered for exactly the keys of available claims, by the last claim of each key |
| Plan.OutputsOf | internal/reconcile/resolver.go:136-177 | A claim gives its image, the Secret name of its certificate, what is in its Secret, and its URI unless the Secret has one |
| Plan.NoOtherOutputs | internal/reconcile/resolver.go:136-177 | And exactly these names |
| Plan.GuessedOutputs | internal/reconcile/resolver.go:155-164 | For a postgres claim whose Secret cannot be read, the six made-up values |
| Plan.ReferenceResolves | internal/reconcile/resolver.go:76-127 | `${resources.k.outputs.n}` and `${resources.k.n}` both resolve to the output n of k |
| Plan.PlainStays | internal/reconcile/resolver.go:76-127 | Text without `$` stays as it is |
| Plan.ResolveAllPlaceholders | internal/reconcile/resolver.go:34-73 | In any order, succeeds exactly when every variable of every container resolves |
| Plan.ExtractResolvedEnv | runtimes/kubernetes/internal/controller/plan_controller.go:421-465 | Fails exactly on a shape error, otherwise returns the container's variables |
| Plan.EnvRoundTrip | runtimes/kubernetes/internal/controller/plan_controller.go:421-465 | Extraction from the plan values gives exactly the resolved variables |
| Plan.GateExactly | internal/reconcile/plan.go:62-68 | The gate stops a Workload exactly when a resolved variable keeps a placeholder |
| Plan.MixedNeverPlanned | internal/reconcile/plan.go:62-68 | A clean variable that mixes both formats never reaches a plan, whatever the outputs hold |
| Plan.PlanStore.Upsert | internal/reconcile/plan.go:35-132 | No string leaf of a stored plan has the form `a${x}c`; on success the plan has the given reference, generation, runtime class and number of claims; one that differed in these is replaced with the new values, template and claims, any other stays; failure changes nothing |
| Plan.ValuesAgree | internal/reconcile/plan.go:62-68 | Two plans of the same containers hold the same values exactly when every variable resolves to the same text |
| Plan.OutputChanges | internal/reconcile/plan.go:100-132 | After an output changed, the stored plan keeps values other than those now wanted |
| Plan.OutputExample | internal/reconcile/plan.go:100-132 | Outputs for which that happens |
| Plan.BuildPlanClaims | internal/reconcile/plan.go:135-152 | As many entries as claims, each with the key, type and class of the claim at its place |
| Merge.MergeMaps | internal/reconcile/values.go:211-231 | For any maps and in any key order, equals the left fold of the two-map merge |
| Merge.Identity | internal/reconcile/values.go:211-231 | The empty map is an identity on both sides |
| Merge.Idempotent | internal/reconcile/values.go:211-231 | Merging a map with itself gives the map |
| Merge.AtBoth | internal/reconcile/values.go:215-227 | What a path finds in a merge, from what it finds in the parts |
| Merge.RightmostWins | internal/reconcile/values.go:225-226 | The rightmost map that says something at a path decides, if it holds no map there |
| Merge.Associative | internal/reconcile/values.go:211-231 | Two ways of bracketing agree exactly when no other value lies between two maps of which the right does not absorb the left |
| Merge.MapsBetweenSuffices | internal/reconcile/values.go:215-227 | They agree whenever the middle map holds no other value where both neighbours hold maps |
| Merge.NotAssociative | internal/reconcile/values.go:215-227 | They can disagree |
| Quantity.QuantityRoundTrip | internal/selection/selector.go:390-396 | For every 64-bit integer the printed forms `<n>m` and `<n>` are parsed back |
| Quantity.ParseExact | internal/selection/selector.go:450-484 | Parsing gives the quantity's unbounded value exactly when digits and scaled value fit into 64 bits |
| Quantity.CalculateResources | internal/selection/selector.go:362-397 | In any container order, the totals are the wrapped exact sums of the parsed requests |
| Quantity.PatternExactly | internal/config/validation.go:215-235 | The validator accepts exactly the constraints that split into one quantity or into two bounds not both missing |
| Quantity.QuantExactly | internal/config/validation.go:220 | A quantity, to the validator, is digits followed by letters |
| Quantity.ValidatedParses | internal/selection/selector.go:450-484 | Of these the selector understands exactly the units m, Mi, Gi and none, with a number that fits into 64 bits |
| Quantity.SumInRange | internal/selection/selector.go:400-447 | When the sum of the requests fits into 64 bits, every range accepts exactly when it lies within its bounds, in both units |
| Quantity.AnswersExactly | internal/selection/selector.go:362-447 | All ranges answer rightly for a sum exactly when it fits into 64 bits or is negative and stays so when wrapped |
| Quantity.OverflowAccepted | internal/selection/selector.go:362-397 | Two containers that each ask for the largest 64-bit number pass an upper bound of that number |
| Quantity.BoundsExactly | internal/selection/selector.go:400-447 | For any two bounds and both units, exactly when the range answers rightly for every 64-bit total; a bound with more digits than 64 bits hold rejects everything |
| Quantity.UpperExactly | internal/selection/selector.go:433-442 | With a lower bound that is missing or fits, exactly when the upper bound fits |
| Quantity.LowerExactly | internal/selection/selector.go:421-431 | Without upper bound, exactly when the lower bound fits or has more digits than 64 bits hold |
| Quantity.WrappedBound | internal/selection/selector.go:472-480 | A bound of 2^34 GiB, which the validator accepts, counts as zero: as a lower bound every total passes, as an upper bound only zero |
| Quantity.ExactIsTextual | internal/selection/selector.go:409-411 | The exact form compares text in both units, so one in binary units accepts nothing |
| Version.VersionTotal | internal/selection/selector.go:338-346 | Precedence after section 11 of SemVer 2.0.0 is a strict total order |
| Version.FirstDifference | internal/selection/selector.go:338-346 | Pre-releases compare by the first different identifier; a longer one wins over its prefix |
| Version.SectionElevenRises | internal/selection/selector.go:338-346 | The versions listed in section 11 of SemVer 2.0.0 rise in that order, pre-releases included |
| Version.TextOrder | internal/selection/selector.go:353-354 | Ids compare by the first different character, a prefix first |
| Config.Validate | internal/config/validation.go:59-89 | No error exactly when the configuration is valid |
| Config.ValidMeans | internal/config/validation.go:59-131 | Place by place: the fixed header, an existing default profile, nonempty profiles with different label names, and different ids for backends at different places anywhere |
| Config.ValidateProfiles | internal/config/validation.go:92-131 | No error exactly when names are unique labels, every profile has valid backends, and backend ids are unique over all profiles |
| Config.DnsLabelExactly | internal/config/validation.go:107-113 | Profile names are labels of RFC 1123: at most 63 characters that match its regular expression |
| Config.ValidateBackend | internal/config/validation.go:134-177 | No error exactly for a new id, a known runtime class and template kind, a reference, a version, a priority that is not negative and valid ranges |
| Config.ValidateReferences | internal/config/validation.go:324-363 | No error exactly when every profile and class referred to exists |
| Selection.BetterTotal | internal/selection/selector.go:329-356 | The comparison orders backends with different ids strictly one way |
| Selection.BetterTransitive | internal/selection/selector.go:329-356 | The comparison is transitive |
| Selection.HeadIsBest | internal/selection/selector.go:327-359 | After any sort, stable or not, the first candidate is the unique best |
| Selection.FilterBackends | internal/selection/selector.go:211-252 | Keeps exactly the backends that pass selectors, features and resources, in order |
| Selection.PassesMet | internal/selection/selector.go:211-326 | A backend passes exactly when it has no constraints, or some selector matches unless there is none, all features are there, and the range of each resource accepts the total of that resource |
| Selection.SelectProfile | internal/selection/selector.go:115-145 | A hint decides alone; else the first profile whose name suits, else the first matching selector with a profile, else the default, else an error |
| Selection.SuitsExactly | internal/selection/selector.go:148-170 | A profile name suits exactly when it contains, in any case, web or service, or batch or job for a Workload without ports |
| Selection.SelectionTotal | internal/config/validation.go:297-343 | On a valid configuration a profile is selected exactly when the hint is empty or names a profile |
| Selection.SelectedExists | internal/selection/selector.go:115-191 | On a valid configuration a selected name is that of exactly one profile, which has backends with different ids |
| Selection.SelectBackend | internal/selection/selector.go:68-112 | On a valid configuration fails only for a bad hint or when no backend of the selected profile meets its constraints; otherwise the answer is such a backend and none of these has a higher priority, with equal priority a newer version or alone one that parses, or with equal versions a smaller id |
| Selection.AnswerRanks | internal/selection/selector.go:327-359 | The same of every answer that `Selection.Deterministic` speaks of |
| Selection.Deterministic | internal/selection/selector.go:61-112 | One answer under any order of backends, any map iteration order and any sort |
| Selection.ReorderedValid | internal/selection/selector.go:61-112 | Reordering the backends of a valid configuration leaves it valid |
| ConfigObjects.DeepCopyProfile | internal/config/cache.go:128-142 | A copy that holds the same profile in objects of its own at every depth, nil and empty lists being the same |
| ConfigObjects.DeepCopyBackend | internal/config/cache.go:145-159 | The same for a backend, its template and its constraints |
| ConfigObjects.DeepCopyTemplate | internal/config/cache.go:162-173 | The same for a template and its raw values |
| ConfigObjects.DeepCopyConstraints | internal/config/cache.go:176-205 | The same for constraints, through the recursion with selectors |
| ConfigObjects.DeepCopySelector | internal/config/cache.go:208-236 | The same for a selector: labels, expressions with their values, constraints |
| ConfigObjects.DeepCopyProvisioner | internal/config/cache.go:239-262 | The same for a provisioner, its classes and its defaults |
| ConfigObjects.DeepCopyClass | internal/config/cache.go:265-280 | The same for a class and its raw parameters |
| ConfigObjects.DeepCopyDefaults | internal/config/cache.go:283-298 | The same for the defaults and their selectors |
| ConfigObjects.DeepCopyConfig | internal/config/cache.go:94-125 | A copy in objects of its own that holds the same configuration apart from the reconciler section |
| ConfigObjects.ConfigHoldsOne | api/v1b1/orchestratorconfig_types.go:26-54 | What an object graph holds is one configuration only, so equal contents means equal at every depth |
| Cache.Loader.Get | internal/config/cache.go:44-59 | Answers with a fresh copy of what was set, and never later than the TTL after it was set |
| Cache.Loader.Set | internal/config/cache.go:62-69 | Caches a private copy of a valid document |
| Cache.Loader.LoadConfig | internal/config/configmap.go:80-124 | Up to the TTL a new object with the document as it was set, which holds all of it exactly when it has no reconciler section; after it, or with nothing cached, exactly a fetched document that `Config.Validate` accepts |
| Cache.LoadTwice | internal/config/configmap.go:80-124 | Whatever the first caller does to its answer, a second call within the TTL gives the validated document of the first |
| Cache.LoadLater | internal/config/configmap.go:80-124 | After the TTL a second call gives the document fetched then, or fails if that is not valid |
| Cache.SectionLost | internal/config/cache.go:94-125 | A valid document of which the second answer lacks the reconciler section that the first has |
| Cache.Loader.HandleEvent | internal/config/configmap.go:215-274 | Deletion empties the cache, a valid document replaces it, an invalid one leaves it alone |
| Cache.Loader.CallersWrite | internal/config/cache.go:57-58 | No change of any handed out object, at any depth, changes the cached configuration |

## Left out

- Policy edits on claims of a Workload that is being deleted: `LeavesClean`, `CollectorIdle`, `OwnerStays` and the progress results are stated for runs without them; statuses and infrastructure (`BoundMeansGranted`, `PhasesMove`, `NothingLeaks`) are not restricted.
- Reads through a lagging informer cache: every read returns the stored object.
- Foreground cascading deletion, and users who remove the controllers' finalizers or create claims by hand.
- Namespaces: there is one.
- Logging, events and requeue delays; they change no stored state.
- Cert, ConfigMap and Secret contents beyond the outputs that resolution reads.
- Byte-level parsing of YAML and JSON; label selectors, URL validity and SemVer text parsing are parameters.
- Detection of workload features from ports, variables and annotations: a Workload comes with its feature set.
- The redis and secret strategies, the fields of Deployments, Services and StatefulSets, and the random source of passwords, which are fresh values here.
- composeValues and normalizeWorkload, which only collect fields before the merge.
- What a message of a claim says after `Invalid outputs` and `No strategy available`, which is the text of an error.
- Observed generation of conditions, and the last transition time of claims.
- Watch, Close and the informer of the configuration loader.
- The decoded object inside raw extensions, which is nil in decoded configurations; raw values are text.
- Cache.Loader.LoadConfig: decoding is a parameter that gives an object and the document it holds; the lock is not modelled, calls are one after the other.
- Selection.SelectBackend: the library's sort is a parameter of which only its contract is known.
- Exposure.MirrorSafe: the wire format of merge patches is not modelled, only which fields they change.
