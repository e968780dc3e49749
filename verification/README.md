# Crash-recoverable transactions of the Röbel staging operations

The scripts of this repository change a Kubernetes cluster that other actors keep
changing too. Each transaction writes a durable intent before it sends anything, proves
ownership by nonce, UID and semantics, never repeats an ambiguous create, and resumes or
rolls back in a fixed order. This project models those transactions in Dafny and proves
what they promise, over whole chains of crashes, lost answers and resumed runs.

`dafny verify dfyconfig.toml` checks everything.

## How the model is built

* `Wrappers.dfy`, `Cluster.dfy` - the world. `ApiServer.Cluster` is an API server: a map of
  objects, a counter of fresh UIDs, creates that were sent and may still land, and the
  durable receipt ledger. Before every answer the rest of the world takes any number of
  arbitrary steps (`Interfere`). A request may fail before its effect, take effect and lose
  its answer, or be the last thing the process ever does. Ghost fields record the changing
  requests (`trace`), the receipt that was durable at each of them (`basis`), what the
  answers showed (`sightings`), how many of them came before each request (`seen`), how many
  requests came before each receipt (`upTo`), which patches took effect (`applied`), how
  each create ended (`replies`), how many reads got no answer and how many patches ended in
  an exception out of the request (`unanswered`), and every step of everybody else, with the
  object it concerned (`foreign`).
* `CaseBootstrap.dfy`, `CaseHandover.dfy` - the nineteen-object create-only transaction and
  the removal of its nonces with the release of Flux.
* `ReviewStorage.dfy`, `ReviewConsumer.dfy` - the receipt-chained storage machine with its
  guarded transport, and the check and initializer machines.
* `ParticipantObjects.dfy`, `ParticipantActivation.dfy`, `ParticipantRollback.dfy`,
  `ParticipantRecovery.dfy` - the six-object activation of the participant gateway, the
  rollback whose order matters, and the recovery of two known incidents.
* `Selectors.dfy`, `FluxTracking.dfy`, `PolicyUnion.dfy` - the conservative scan of all
  network policies.
* `Normalization.dfy` - the strict comparison of Kubernetes objects.
* `Lineage.dfy` - the commit-graph check of the teardown runner.

A run is a method on the world; an exception is `Err(Raised)`, the end of the process is
`Err(Died)`. Nondeterministic choices stand for everything that the coordinator does not
decide. Each transaction has one invariant that every one of its steps keeps; the lemmas
at the end of each file read the promises off that invariant.

## Assumptions

* A digest commits to exactly one value; nonces are never guessed by others; the API
  server never gives a UID twice. Receipt closure of the bootstrap needs the last one: the
  resume loop does not compare UIDs again. So does the end of a rollback: what was read
  absent under a UID never comes back under it.
* The check and initializer machines mark their objects with the operation identifier of
  their plan. It is public; that nobody else puts it on an object is assumed of them as of
  the drawn nonces.
* A rollback reads its clock without delay: the first read of a round is asked for at the
  moment that the round was begun. How long each answer takes is arbitrary.
* An activation draws a nonce that no earlier create carried. One create makes at most one
  object, and a definite answer to it comes only when it is no longer on its way.
* A run resumes only from the last durable receipt, and two runs of one transaction do not
  overlap. A commit is atomic: it happened or it did not, even when it fails.
* JSON patches behave as sections 4.6 and 5 of RFC 6902 say, the Flux compare-and-swap as
  section 2 of RFC 7396 says.
* The commit listing gives each selected commit once, with its own parents, parents first.

## What turned out not to hold as one might expect

* The Cilium part of the policy scan never looks at a policy's single `spec` when the
  policy also has a list `specs`. `PolicyUnion.ScanIsBlindToASpecBesideAList` gives such a
  policy, accepted although it selects every Pod, and shows that acceptance settles the
  question for exactly the shapes that do not have both. `PolicyUnion.NoCiliumPolicySelects`
  is exact for each policy: after the scan it selects no participant Pod if and only if it
  does not have both, or that single `spec` cannot match one.
* The conservative selector matcher may answer yes although no Pod can ever match: when
  conditions on one label exclude each other, or when an `In` condition offers no value
  (`Selectors.FalseAlarm`). `Selectors.SomePodMatches` says exactly when a yes is real:
  label by label, the conditions on what is not yet known can be met together. Any text
  counts as the value of a label there.
* A signal that arrives inside the create request clears the note of the uncertain name,
  as a definite conflict does; `ParticipantActivation.Activation.Bind` says that there is no
  third way without binding the object. A complete report therefore excludes that a create
  of the run lands later exactly when the last create did not end in an exception out of
  the request: `ParticipantActivation.Activation.CompleteExcludesLateCreates` proves it of
  every run that ended otherwise. Of a run that ended so, `MayStillBeOnItsWay` shows that
  as long as the create has not landed it may be on its way with nothing else different, and
  `CompleteWithACreateOnItsWay` builds such a run with its first create.
* The quiet interval of a rollback is counted from the moment at which a round of looks
  begins. The answers themselves may lie closer: `ParticipantRollback.AnswersMayLieCloser`
  has all twelve at one moment, for any interval.
* The wait for the absence of a deleted object is counted from after the DELETE, not towards
  the deadline of the rollback, and one look may begin after it is over
  (`ParticipantRollback.Rollback.DeleteOwned`).
* The second deletion of a reappeared Ingress is never reached without an earlier error,
  because its UID was read absent before; `ParticipantRollback.Rollback.RemoveAgain` keeps
  the branch and shows that it adds no record.
* A recovery may be complete and still not count as recovered. That happens if and only if
  somebody else removed an object that had been classified as present before the rollback
  requested its deletion (`ParticipantRecovery.AcceptedIffNothingWasTaken`). Nothing can be
  brought back.
* A handover receipt may carry the ready flag although no receipt ever said ready, when the
  commit of the ready receipt failed; the objects were read as handed over all the same
  (`CaseHandover.ReadyMeansHandedOver`).

## Model

| member | source | states |
|---|---|---|
| CaseBootstrap.BuildPlanIsOrdered | scripts/case_runtime_bootstrap.py:47-71 | every plan that is built goes through isolation, control, public and Flux in order and holds exactly the inventory, without storage or credential; it has the full order (one place per target, all policies before any Deployment) if and only if no two objects share a target and the Flux objects are neither Deployments nor policies |
| CaseBootstrap.BindRecovery | scripts/case_runtime_bootstrap.py:98-126 | a receipt is taken up if and only if its checksum holds and it is an ordered, conflict-free ownership prefix of exactly this plan with distinct UIDs, at most its last record unresolved |
| CaseBootstrap.Coordinator.Intend | scripts/case_runtime_bootstrap.py:178-185 | the intent to create exactly the next object is durable before a request for it can leave |
| CaseBootstrap.Coordinator.Send | scripts/case_runtime_bootstrap.py:186-193 | one create request, authorized by the last durable receipt, and never a second one from it |
| CaseBootstrap.Coordinator.CreateNext | scripts/case_runtime_bootstrap.py:171-199 | one object is added to the owned prefix, or the run stops with its intent durable |
| CaseBootstrap.Coordinator.Recover | scripts/case_runtime_bootstrap.py:153-167 | on resume every recorded object is read as owned again, exactly as desired and with its recorded UID, and every unrecorded name is read free; nothing is sent |
| CaseBootstrap.Coordinator.VerifyRuntime | scripts/case_runtime_bootstrap.py:200-208 | the checkpoint of a phase becomes durable only with valid evidence |
| CaseBootstrap.Coordinator.Rebind | scripts/case_runtime_bootstrap.py:211-216 | at the end every object is read as owned, with its recorded UID and exactly as desired; nothing is sent or recorded |
| CaseBootstrap.Coordinator.Execute | scripts/case_runtime_bootstrap.py:151-219 | a run that returns has a complete, verified and durable receipt; the transaction's invariant holds however it ends |
| CaseBootstrap.RunBootstrap | scripts/case_runtime_bootstrap.py:129-227 | fresh or resumed, ending in success, exception or crash, a run keeps the transaction's invariant and only adds receipts |
| CaseBootstrap.RunAgainAndAgain | scripts/case_runtime_bootstrap.py:138-148 | the invariant survives any number of runs with arbitrary interference between them |
| CaseBootstrap.EachObjectRequestedOnce | scripts/case_runtime_bootstrap.py:180-199 | over any chain of runs no plan object is requested twice, and nothing else is requested |
| CaseBootstrap.NothingIsAdopted | scripts/case_runtime_bootstrap.py:74-85 | every UID that any receipt calls created belongs to an object that this transaction's own request for exactly that plan object made |
| CaseBootstrap.ReceiptsAreRecoverable | scripts/case_runtime_bootstrap.py:113-126 | receipt closure: a committed receipt can be resumed from if and only if it holds no conflict |
| CaseBootstrap.OwnershipOnlyGrows | scripts/case_runtime_bootstrap.py:153-199 | along the ledger the owned prefix never shrinks and no recorded UID changes |
| CaseBootstrap.PhasesAreSafe | scripts/case_runtime_bootstrap.py:52-66 | when a Deployment is requested all network policies are durably owned; the public one waits for durable clean-restart evidence; Flux waits for both verifications |
| CaseHandover.CaseLabelsAreLookedPast | scripts/case_runtime_kubernetes.py:310-318 | after the labels are stripped, an object compares equal if and only if every other label is as desired and each of the two Flux labels is missing or has its expected value |
| CaseHandover.Handover.Recheck | scripts/case_runtime_handover.py:40-49 | an object whose removal is recorded passes only if it was read under its UID, without a nonce and as desired; nothing is sent or recorded |
| CaseHandover.Handover.RemoveNonce | scripts/case_runtime_handover.py:50-66 | one more index joins the removed prefix, durably; a missing nonce is accepted only under a durable intent for exactly that index |
| CaseHandover.Handover.StripNonce | scripts/case_runtime_handover.py:53-64 | the intent for exactly this index is durable before the patch, and after the patch the object was read without a nonce, as desired |
| CaseHandover.Handover.ReleaseFlux | scripts/case_runtime_handover.py:67-81 | Flux is released only after all nineteen removals and under a durable intent |
| CaseHandover.Handover.VerifyFluxReady | scripts/case_runtime_kubernetes.py:320-339 | success means that all nineteen objects were read as handed over after the last request |
| CaseHandover.Handover.Execute | scripts/case_runtime_handover.py:33-85 | a run that returns has a durable ready receipt; the invariant holds however it ends |
| CaseHandover.RunHandover | scripts/case_runtime_handover.py:15-90 | only a complete and verified bootstrap receipt is handed over; a run keeps the invariant |
| CaseHandover.RunAgainAndAgain | scripts/case_runtime_handover.py:19-33 | the invariant survives any number of runs with arbitrary interference |
| CaseHandover.RemovalsWereIntended | scripts/case_runtime_handover.py:24-66 | every receipt of the chain can be resumed from, and an index is among the removed only after a receipt that intended exactly it |
| CaseHandover.PatchesFollowTheirReceipts | scripts/case_runtime_handover.py:57-81 | a nonce patch goes to exactly the durably pending object; the unsuspend patch is sent only with all nineteen removals and the intent durable |
| CaseHandover.ReadyMeansHandedOver | scripts/case_runtime_handover.py:82-84 | a receipt that says ready means that after all requests sent before it became durable every owned object was read with its UID, without nonce, as desired; one that keeps the flag has such reads at an earlier time |
| ReviewStorage.Transport.Remember | scripts/case_review_storage.py:249-257 | the transport keeps the last validated claim, and the volume if and only if the binding is the same |
| ReviewStorage.Transport.GetTarget | scripts/case_review_storage.py:221-226 | what the coordinator gets is what the guard remembers |
| ReviewStorage.Transport.GetVolume | scripts/case_review_storage.py:258-260 | a volume is readable only under the owned bound claim, and is remembered once validated |
| ReviewStorage.Transport.Post | scripts/case_review_storage.py:227-231 | the guard lets exactly the reviewed claim through; any other is refused and not sent |
| ReviewStorage.Transport.Patch | scripts/case_review_storage.py:232-241 | the guard lets exactly the Delete to Retain patch of the remembered volume and version through; any other is refused and not sent |
| ReviewStorage.Operation.SwitchToRetain | scripts/case_review_storage.py:176-193 | the retention intent is durable before the patch, and Retain was observed before going on |
| ReviewStorage.Operation.Secure | scripts/case_review_storage.py:168-197 | an owned bound claim ends as retained, through a distinct volume |
| ReviewStorage.AdvanceStorage | scripts/case_review_storage.py:112-199 | coordinator and guard agree: no request of an advance is ever refused by the guard; the invariant holds however it ends |
| ReviewStorage.AdvanceAgainAndAgain | scripts/case_review_storage.py:115-119 | the invariant survives any number of advances, each through a fresh transport |
| ReviewStorage.ChainsMoveForward | scripts/case_review_storage.py:125-143 | along a chain the status only moves forward, identities never change once set, a conflict is terminal, and every other receipt can be resumed |
| ReviewStorage.OneCreatePerChain | scripts/case_review_storage.py:150-160 | over any chain of advances at most one create is sent, under a durable intent |
| ReviewStorage.PatchesOnlyRetain | scripts/case_review_storage.py:176-191 | whatever patch was sent changes Delete to Retain, on a volume read in that UID and version, bound to the owned claim |
| ReviewStorage.RetainedWasObserved | scripts/case_review_storage.py:192-197 | retained is committed only of a volume that was read bound and Retain, of the owned claim, different from the source |
| ReviewConsumer.Operation.CreateObject | scripts/case_review_storage.py:480-488 | the intent for exactly this object is durable before its one request |
| ReviewConsumer.Operation.Settle | scripts/case_review_storage.py:477-494 | an object is passed only once it is bound as ours and durably completed |
| ReviewConsumer.Operation.Execute | scripts/case_review_storage.py:465-505 | both variants: an advance that returns has a durable receipt that awaits the check or is verified |
| ReviewConsumer.AdvanceConsumer | scripts/case_review_storage.py:387-505 | fresh or resumed, an advance keeps the invariant, and verified stays verified |
| ReviewConsumer.AdvanceAgainAndAgain | scripts/case_review_storage.py:412-424 | the invariant survives any number of advances with arbitrary interference |
| ReviewConsumer.ChainsMoveForward | scripts/case_review_storage.py:412-431 | along a chain the status only moves forward, UIDs never change, verified never regresses, and every non-conflict receipt passes the recovery checks |
| ReviewConsumer.EachObjectRequestedOnce | scripts/case_review_storage.py:474-489 | over any chain each object is requested at most once |
| ReviewConsumer.WorkerComesLast | scripts/case_review_storage.py:466-473 | the Pod is requested only when the deny-all policy and, for the initializer, the ConfigMap are bound and durably recorded |
| ParticipantObjects.CreateTarget | scripts/activate-staging-participant-gateway.py:2835-2865 | exactly one request; what is bound was made by it, under this run's nonce, at this name |
| ParticipantObjects.Rediscover | scripts/activate-staging-participant-gateway.py:2867-2880 | only an object of this run's own request is recovered, and nothing is sent; every look, answered or not, began before the time was up, and no two within a quarter of a second |
| ParticipantObjects.StripOnce | scripts/activate-staging-participant-gateway.py:2915-2940 | one patch under tests of UID, version and this run's nonce, on the object just read; if it takes effect the object is clean |
| ParticipantObjects.RemoveNonce | scripts/activate-staging-participant-gateway.py:2882-2962 | success only for the same UID, read or answered without nonce and as desired, and only after a patch was sent; at most four patches, each for the own nonce; with every read answered and no exception out of a patch it fails only if, after each patch that took effect, even with its answer lost, somebody else touched this very object |
| ParticipantRollback.Rollback.DeleteOwned | scripts/activate-staging-participant-gateway.py:5185-5229 | at most one deletion, of an own object in the version that the last answer showed, fit for deletion; success means the name was read absent; all looks but the last were answered before the wait was over |
| ParticipantRollback.Rollback.DependentsAbsent | scripts/activate-staging-participant-gateway.py:5231-5238 | success means that no Pods and no ReplicaSets were listed |
| ParticipantRollback.Rollback.Suspend | scripts/activate-staging-participant-gateway.py:3250-3273 | a rollback only ever suspends a Kustomization |
| ParticipantRollback.Rollback.AwaitSuspended | scripts/activate-staging-participant-gateway.py:5361-5377 | success means the bound Kustomization was read suspended; the last look began before the deadline |
| ParticipantRollback.Rollback.AwaitBothSuspended | scripts/activate-staging-participant-gateway.py:5341-5378 | in both profiles, success means both bound Kustomizations were read suspended |
| ParticipantRollback.Rollback.CloseExposure | scripts/activate-staging-participant-gateway.py:5759-5782 | Ingress first, then Service: without a new error each that was bound has its record, and every failure of either is counted before the step ends, so that the second is tried whether or not the first went; the isolation stands |
| ParticipantRollback.Rollback.SuspendFlux | scripts/activate-staging-participant-gateway.py:5783-5792 | without a new error both Kustomizations are known suspended |
| ParticipantRollback.Rollback.RemoveAgain | scripts/activate-staging-participant-gateway.py:5793-5817 | without errors the second look adds exactly the Service's record: the Ingress, once read absent, is not there again |
| ParticipantRollback.Rollback.GuardIsolation | scripts/activate-staging-participant-gateway.py:5818-5836 | without a bound Deployment the isolation is not touched before its absence and that of its dependents was read |
| ParticipantRollback.Rollback.RemoveRest | scripts/activate-staging-participant-gateway.py:5849-5852 | the rest goes in reverse order of creation, the isolation last and only on proof |
| ParticipantRollback.Rollback.AllTargetsAbsentQuiet | scripts/activate-staging-participant-gateway.py:5710-5728 | success means at least two consecutive rounds that read all six names absent, the last begun the quiet interval after the first and before the deadline; however it ends, the last round began before the deadline |
| ParticipantRollback.AnswersMayLieCloser | scripts/activate-staging-participant-gateway.py:5713-5727 | the interval is counted from the beginning of the rounds: for any interval, all answers of a quiet stretch may come at one moment |
| ParticipantRollback.Rollback.VerifyPreservation | scripts/activate-staging-participant-gateway.py:3371-3377 | success means every preserved object was read unchanged |
| ParticipantRollback.Rollback.Dismantle | scripts/activate-staging-participant-gateway.py:5759-5852 | without errors the records follow the fixed order and every requested deletion has its record; nothing follows the deletion of the isolation |
| ParticipantRollback.Rollback.Execute | scripts/activate-staging-participant-gateway.py:5730-5881 | in another cluster nothing is sent; complete means: fixed order, every deletion recorded, all names quiet for the interval by the clock, Flux suspended and preserved objects unchanged after that, nothing uncertain |
| ParticipantRollback.Rollback.IsolationGoesLast | scripts/activate-staging-participant-gateway.py:5818-5852 | the deletion of the gateway's network policy is the rollback's last request, after both Kustomizations were read suspended and, later, Deployment, Pods and ReplicaSets were read gone |
| ParticipantRollback.Rollback.OnlyOwnObjectsAreDeleted | scripts/activate-staging-participant-gateway.py:5185-5216 | every deletion carries the UID of an object that this run's own request made, in the version in which it was just read and found fit; otherwise a rollback only suspends |
| ParticipantActivation.Activation.AllAbsent | scripts/activate-staging-participant-gateway.py:2824-2833 | the preflight passes only when each of the six names was read and was free, and sends nothing |
| ParticipantActivation.Activation.SendCreate | scripts/activate-staging-participant-gateway.py:7668-7670 | the name is noted as uncertain before its one request leaves |
| ParticipantActivation.Activation.Bind | scripts/activate-staging-participant-gateway.py:7670-7674 | only a bound outcome extends the created prefix; otherwise the name stops being uncertain if and only if the outcome was a definite conflict or an exception out of the request |
| ParticipantActivation.CompleteWithACreateOnItsWay | scripts/activate-staging-participant-gateway.py:7670-7674 | after a last create that ended in an exception out of the request, all that `CompleteExcludesLateCreates` asks for may hold, with the create still on its way |
| ParticipantActivation.MayStillBeOnItsWay | scripts/activate-staging-participant-gateway.py:7670-7674 | in every such run whose last create has not landed it may be on its way, with the run, its rollback and its complete receipt unchanged |
| ParticipantActivation.Activation.CreateNext | scripts/activate-staging-participant-gateway.py:7668-7675 | the next object of the fixed order is bound and has lost its nonce before anything else is created |
| ParticipantActivation.Activation.UnsuspendBoth | scripts/activate-staging-participant-gateway.py:3309-3313 | the gateway's release is sent first and, only after it succeeded, the workbench's; success has sent exactly these two |
| ParticipantActivation.Activation.VerifySemantics | scripts/activate-staging-participant-gateway.py:5091-5107 | success means every created object was read with its UID, without nonce, with the exact Flux labels and otherwise as desired |
| ParticipantActivation.Activation.Forward | scripts/activate-staging-participant-gateway.py:7643-7722 | the forward path succeeds only with every check passed after the last request |
| ParticipantActivation.Activation.Undo | scripts/activate-staging-participant-gateway.py:7730-7750 | a failed run with possible creates is rolled back; its receipt says complete only of a rollback that proved it |
| ParticipantActivation.Activation.Activate | scripts/activate-staging-participant-gateway.py:7620-7755 | a success receipt has everything behind it; any other exception after a request leads into the rollback; requests of the forward path are ordered and prepared, those of the rollback justified; the creates are counted by the requests themselves; no name is uncertain in the rollback if and only if each of them is bound or the last one ended in a conflict or an exception out of the request; and only that last one, unbound and uncertain or cut off, can still be on its way |
| ParticipantActivation.Activation.CompleteExcludesLateCreates | scripts/activate-staging-participant-gateway.py:7668-7674 | once a failed run's receipt says complete, no create of the run can land any more, unless the last one ended in an exception out of the request |
| ParticipantActivation.Activation.SuccessExcludesLateCreates | scripts/activate-staging-participant-gateway.py:7666-7690 | once all six are bound, no create of the run can land any more |
| ParticipantActivation.Activation.FluxRunsWithoutNonces | scripts/activate-staging-participant-gateway.py:7675-7694 | before a Kustomization is released, each of the six objects, made by this run's own create, had its nonce taken off by this run and was then seen without it, as desired |
| ParticipantActivation.Activation.ExposureComesAfterTheChecks | scripts/activate-staging-participant-gateway.py:7676-7685 | the Ingress is requested only right after health, policy scan and database check, and after each of the five others was bound, lost its nonce and was seen without it |
| ParticipantActivation.Activation.EachTargetOnce | scripts/activate-staging-participant-gateway.py:7666-7690 | the six are requested at most once each, in the fixed order |
| ParticipantRecovery.BindOne | scripts/activate-staging-participant-gateway.py:5543-5595 | one object is classified by reading alone, as present with its recorded UID or as absent, and the classification stays true unless somebody else removes the object |
| ParticipantRecovery.BindRecoveryTargets | scripts/activate-staging-participant-gateway.py:5523-5642 | the classification is complete, sends nothing, and names as deletable only objects of the incident's own requests |
| ParticipantRecovery.RecordPasses | scripts/activate-staging-participant-gateway.py:6214-6243 | the first record of an object passes the validator if and only if nobody else removed the object before the rollback requested its deletion |
| ParticipantRecovery.OrderAsExpected | scripts/activate-staging-participant-gateway.py:6285-6297 | for both incidents the rollback's order is the one the validator demands |
| ParticipantRecovery.AcceptedIffNothingWasTaken | scripts/activate-staging-participant-gateway.py:6451-6515 | of a complete rollback the validator accepts the report if and only if no object classified as present was removed by somebody else before its deletion was requested |
| ParticipantRecovery.SomebodyElseDidIt | scripts/activate-staging-participant-gateway.py:6214-6243 | when the rollback is complete and its report all the same refused, somebody else removed an object after it had been classified as present; the rollback never requested that deletion, and every record of the object says already absent |
| ParticipantRecovery.RecoverIncident | scripts/activate-staging-participant-gateway.py:6616-6732 | without a passed preflight and a classification nothing is sent; the rollback works on the complete classification, complete has everything behind it, and recovered means that the validator accepts the report: if and only if it is complete and nobody else removed an object classified as present before its deletion was requested |
| Selectors.ConservativeIsSound | scripts/activate-staging-participant-gateway.py:3888-3911 | whatever labels a Pod gains, a selector that then matches was answered with yes before |
| Selectors.SomePodMatches | scripts/activate-staging-participant-gateway.py:3867-3911 | some Pod with the known labels is matched if and only if the answer was yes and, label by label, the conditions on what is not yet known can be met together |
| Selectors.ConservativeIsTight | scripts/activate-staging-participant-gateway.py:3897-3911 | with independent conditions a yes comes with a constructed Pod that is matched |
| Selectors.FalseAlarm | scripts/activate-staging-participant-gateway.py:3898-3900 | with two conditions on one label, or with an empty list of values, a yes may have no Pod at all |
| FluxTracking.OnlyTheExactPairIsStripped | scripts/activate-staging-participant-gateway.py:5460-5505 | accepted if and only if everything but the exact owner pair is as desired and the pair is wholly there or wholly absent, as the mode allows |
| PolicyUnion.TargetLabelSets | scripts/activate-staging-participant-gateway.py:3913-3939 | the labels to defend are exactly those of the Pods found, in order, or just the fixed ones when there is none; every Pod carries the fixed labels and the right account, or the scan fails |
| PolicyUnion.AllowsWorkbenchPort | scripts/activate-staging-participant-gateway.py:3941-3955 | the nested loops answer whether some rule may open the port |
| PolicyUnion.OpenMeansSomeResolutionAdmits | scripts/activate-staging-participant-gateway.py:3941-3954 | open if and only if some resolution of named ports makes the rule admit somebody to port 18083 |
| PolicyUnion.ReviewedPeersArePermuted | scripts/activate-staging-participant-gateway.py:3984-4003 | equal length and equal set: the reviewed policy lists each of the ten peers exactly once |
| PolicyUnion.Judge | scripts/activate-staging-participant-gateway.py:4036-4074 | one NetworkPolicy passes exactly when it is owned and as desired, or harmless to both targets |
| PolicyUnion.JudgeCilium | scripts/activate-staging-participant-gateway.py:4075-4080 | a Cilium family passes exactly when no inspected spec could match in scope |
| PolicyUnion.PolicyUnion | scripts/activate-staging-participant-gateway.py:4019-4087 | the scan returns exactly when every policy passes and the owned ones were found, each once |
| PolicyUnion.OwnedPoliciesFoundOnce | scripts/activate-staging-participant-gateway.py:4081-4085 | equal set and equal count: every owned policy was found exactly once |
| PolicyUnion.OnlyOwnedSelectTheGateway | scripts/activate-staging-participant-gateway.py:4056-4058 | after the scan only owned policies, as designed, select a gateway Pod, whatever further labels it has |
| PolicyUnion.AdmittedIsReviewed | scripts/activate-staging-participant-gateway.py:4038-4074 | whoever one acceptable policy admits to the workbench port is admitted by it as an owned policy, or is one of the ten reviewed peers |
| PolicyUnion.WorkbenchSourcesAreReviewed | scripts/activate-staging-participant-gateway.py:4056-4074 | after the scan, whoever the union of policies admits to the workbench port is admitted by an owned policy or is one of the ten reviewed peers |
| PolicyUnion.NoCiliumPolicySelects | scripts/activate-staging-participant-gateway.py:4075-4080 | after the scan a Cilium policy in scope selects no participant Pod if and only if it does not have both a spec and a list, or the single spec cannot match one |
| PolicyUnion.ScanIsBlindToASpecBesideAList | scripts/activate-staging-participant-gateway.py:4076-4080 | acceptance settles the question for a shape of policy if and only if it does not have both; with a policy that shows it |
| Normalization.NormalizeObject | scripts/case_runtime_kubernetes.py:44-92 | the step-by-step code computes the normal form of the specification, or refuses when it does |
| Normalization.NormalizeDeployment | scripts/case_runtime_kubernetes.py:75-80 | the same for a Deployment's spec, its template and everything inside |
| Normalization.NormalizePod | scripts/case_runtime_kubernetes.py:79-91 | the same for a Pod spec with alias, volumes, containers and probes |
| Normalization.NormalizeMeta | scripts/case_runtime_kubernetes.py:47-59 | the same for metadata and annotations |
| Normalization.NormalizeService | scripts/case_runtime_kubernetes.py:64-71 | the same for a Service's spec; anything but a plain internal Service is refused |
| Normalization.NormalizePolicy | scripts/case_runtime_kubernetes.py:72-74 | the same for a NetworkPolicy's spec |
| Normalization.LevelFits | scripts/case_runtime_kubernetes.py:39-41 | taking defaults away and spelling them out undo each other on a dictionary as soon as they do on its parts |
| Normalization.EqualUpToDefaults | scripts/case_runtime_kubernetes.py:39-41 | on any such dictionary, equal after taking defaults away if and only if equal after spelling them out |
| Normalization.NormalizeIsIdempotent | scripts/case_runtime_kubernetes.py:44-92 | a normal form is its own normal form |
| Normalization.EqualExactlyUpToDefaults | scripts/case_runtime_kubernetes.py:121-122 | two accepted objects compare equal if and only if they agree after dropping what the server owns and spelling out the reviewed defaults |
| Lineage.FollowRows | scripts/bootstrap-staging-participant-flux.py:263-274 | the loop accepts exactly the rows that continue each other from the bridge to the revision |
| Lineage.RequireLineage | scripts/bootstrap-staging-participant-flux.py:227-296 | bridge and later revisions pass exactly with their pinned parents and the exact reviewed file set |
| Lineage.AcceptedIsOneMergeFreePath | scripts/bootstrap-staging-participant-flux.py:262-274 | what is accepted is one merge-free path, and every walk from the revision to its ancestors follows it and passes the bridge |
| Lineage.AcceptedIffMergeFree | scripts/bootstrap-staging-participant-flux.py:240-274 | for any commit graph, with the true listing, accepted if and only if one merge-free path leads from the bridge to the revision |

## Left out

- Spawning of processes, pinned executables, TLS, port-forwarding, kubeconfig snapshots, registry and HTTP probes: plumbing of the operating system and the network.
- JSON text, SHA-256 and the shape checks of nonces, UUIDs and resource versions: a digest is injective, an identity is a number; a malformed one is an exception like any other failed check.
- The insides of preconditions, health, database, route, Secret and cluster-binding checks: each is an opaque check that passes or raises; what is proved is when it must have passed.
- The evidence of `verify_control_restart` and `verify_public`: an arbitrary answer, held to the shape and clean-restart rules before it becomes durable.
- The closed guards of `KubernetesAdapter.create` and `KubectlTransport.patch_owned`: the requests they let through are the only ones the model can express.
- Links from a receipt to its predecessor's digest, and free-text error lists: receipts form a sequence, errors are counted.
- `semantics` of an object outside `Normalization.dfy`: one abstract value, with the suspension flag and the Flux labels kept apart; deletion marks are not part of it.
- ParticipantActivation.Activation.Activate: the nonce is drawn before the preflight instead of after it; nothing of the preflight depends on it.
- ParticipantActivation.Activation.Forward: deferred signals around the commit point are not modelled; an exception may come out of any request at any time.
- ParticipantRecovery.AcceptedIffNothingWasTaken: covers status, suspension, uncertainty, quiet checks and the deletion records; the validator's comparisons of cluster, source, Flux and preservation facts with the preflight are settled by reading them.
- ParticipantRecovery.RecoverIncident: the preflight checks of cluster, Flux and preserved objects are opaque; what they read is given.
- ParticipantActivation.CompleteWithACreateOnItsWay: builds a state that meets every promise; it does not replay the run that leads there, and has the first of the six creates cut off.
- ParticipantRollback.Rollback.AwaitSuspended: whether work is in flight is an arbitrary answer per poll; the generation fields are not modelled.
- PolicyUnion.PolicyUnion: the report's sorting and digests, and the validation of the listing envelopes, are not modelled; specs are those after the normalization of the policy module.
- PolicyUnion.TargetLabelSets: a Pod that replaces a scanned one may carry other labels; the theorems speak about Pods whose labels extend a scanned set.
- Normalization.NormalizeObject: numbers are integers; lists that are not lists (`volumes`, `policyTypes` and the like) are refused, where Python would iterate over text or keys.
- Lineage.RequireLineage: the listing and the changed files are inputs.
- ReviewConsumer.AdvanceConsumer: the phase of the finished Pod and the binding of its target are arbitrary observations, and the comparison of Pod semantics is abstract.
- The Secret materializer, the configuration provisioner and the saved-adoption runner: smaller instances of the same create, own and roll-back pattern.
- The driver of the Flux bootstrap transaction, and the nonce removal there, which lacks the last look: its `run` is not part of this model.
- Field-by-field validators of tracer, issuer and active-runtime receipts: each clause is settled by reading it.
