# The service catalog's control loops

A model of the controller that drives Open Service Broker operations for `ServiceInstance` and
`ServiceInstanceCredential` objects, of the API server they are stored in, and of the broker they
call; and proofs about every run of it. `dafny verify dfyconfig.toml` checks everything.

## How it is built

- **One pass.** `Instances.Reconcile` and `Credentials.Reconcile` give what one pass of a control
  loop does, from the version it starts from and from everything it reads: at most a reference
  update, an intent (the status update that records the start of an operation), one broker call and
  a last status update. `InstanceController` and `CredentialController` are the same loops in their
  own form: objects changed in place, condition lists, early returns. Their methods are proved to
  leave exactly that trace.
- **Whole runs.** `InstanceRuns` and `CredentialRuns` keep every committed version. A pass may start
  from any of them, since listers lag; its writes commit only over the newest version. Each write
  may be lost, or commit unreported. The broker answers as it likes and may act on a request later.
  In `InstanceRuns` it may do so whatever it answered. In `CredentialRuns` it may always act later on
  an Unbind and on a bind request it left unanswered (a timeout or an error that is no HTTP answer);
  whether it may also act later on a bind request it answered is left open (`settles`), and every
  result holds either way unless it says so. The broker never holds what it was not asked for, nor
  lets go of what it was not asked to remove, and it does not claim success falsely. Users update and delete at any time, a
  deletion may raise the generation, and the clock only advances. Whether the server enforces
  status validation is left open, so every result holds with and without it unless it says so.
- **Between objects.** `Namespace` has any number of instances and credentials, created, deleted
  and created again, whose passes read current versions of each other.
- **Queues.** `WorkQueue` and `Workers` model the rate-limited queue and any number of workers in
  small steps. `Polling` puts the two queues of one instance on top of `InstanceRuns`, with a lister
  that lags and skips versions but does not go back, and with restarts of the controller. It has one
  worker place for the key; `Workers.OneWorkerPerKey` is why.
- **Brokers and parameters.** `Catalog`, `Brokers` and `Parameters` model catalog conversion, relist,
  cascading deletion and the merge of parameters with redaction.

Two kinds of results meet: `InstanceTheorems` and `CredentialTheorems` say what a state goes back to,
over all runs; `InstanceOutcomes` and `CredentialOutcomes` say what each pass and each reply must
lead to, in every reachable state.

`Good` in `InstanceSteps` and `CredentialSteps` says when a version is consistent, `PhaseOf` and
`Follows` give the life of an object, `Later` what only ever moves one way.

## What the proofs show that the documentation does not say

- Orphan mitigation is never stored by a server that enforces status validation: such a status keeps
  the operation and drops its in-progress properties, which validation refuses. Passes do submit it,
  so there a provision that timed out stays on record as one to retry, and the giving up of a late
  poll is not stored.
- An instance deleted during an asynchronous provision, once the provision succeeds, is reconciled at
  its newest generation. Its Deprovision intent is then refused by validation, over every run.
- A credential whose Unbind the broker answers with an HTTP error is reconciled at its generation too,
  so that with validation enforced no further Unbind intent is stored and it is never released.
- An instance deleted before its first reconciliation is complete is released without a Deprovision,
  even when the broker holds it.
- A credential may come to be held after its release. With fresh reads and a broker that settles what
  it answers, this happens only through a bind request left unanswered; with outdated passes, it can
  happen to every credential that ever was binding.
- The comments on polling (`pkg/controller/controller_instance.go:71-96`) say that the polling worker
  forgets the key and that finishing removes it from the polling queue. The worker does not forget
  (`pkg/controller/controller.go:180`), and forgetting only clears the rate limiter. The model follows
  the code.
- A relist copies neither the external name nor the metadata of a class or plan that exists already.

## Model

| member | source | states |
|---|---|---|
| `InstanceTheorems.ReadyIsHeld` | pkg/controller/controller_instance.go:279-294 | In every reachable state an instance stored as Ready is held by the broker and Deprovision was never sent, through lost writes, unreported commits, outdated passes and a broker that acts late. |
| `InstanceTheorems.DeprovisionIsFinal` | pkg/controller/controller_instance.go:279-294 | Once Deprovision was sent, no later state of any run stores the instance as Ready. |
| `InstanceTheorems.PhasesOnlyAdvance` | pkg/controller/controller_instance.go:458-500 | Committed versions follow the phase graph and never fall back in rank. |
| `InstanceTheorems.OperationsStartOnce` | pkg/controller/controller_instance.go:1442-1487 | Provision, Deprovision and orphan mitigation each fill one contiguous stretch of the history: what ended never starts again. |
| `InstanceTheorems.ReleaseNeedsDeletion` | pkg/controller/controller_instance.go:161-163 | No version without the catalog finalizer lacks the deletion timestamp. |
| `InstanceTheorems.ReleaseOfReady` | pkg/controller/controller_instance.go:204-231 | A released instance went through deletion requested, a committed Deprovision intent, Deprovision sent, and confirmation or failure, if and only if it was ever Ready. |
| `InstanceTheorems.ReleaseMayLeak` | pkg/controller/controller_instance.go:214-231 | A concrete run in which an instance the broker holds is released without Deprovision ever being sent. |
| `InstanceTheorems.ReleaseWasRequested` | pkg/controller/controller_instance.go:204-294 | The broker of a released instance was sent Deprovision if and only if some committed version recorded a Deprovision or an orphan mitigation. |
| `InstanceTheorems.FailedIsAbsorbing` | pkg/controller/controller_instance.go:463-478 | Failed=True never turns back, never coexists with Ready=True, and marks every orphan, whose Provision is still current. |
| `InstanceTheorems.FailedSendsNoProvision` | pkg/controller/controller_instance.go:463-478 | From a version that shows Failed, no pass sends Provision. |
| `InstanceTheorems.NoPassCrashes` | pkg/controller/controller_instance.go:355-355 | No pass from any version in any run dereferences a nil start time or a nil class or plan reference, and an asynchronous operation always has a start time. |
| `InstanceTheorems.ExternalIsAcknowledged` | pkg/controller/controller_instance.go:808-821 | The external properties of a Ready instance are those of a provision request the broker acknowledged; of the latest one unless a pass from an outdated version sent another. |
| `InstanceTheorems.ConfirmedRemovalForgets` | pkg/controller/controller_instance.go:416-417 | Every committed version that follows a confirmed removal (reply, poll succeeded, poll gone) has no external properties. |
| `InstanceTheorems.LatePollEndsOperation` | pkg/controller/controller_instance.go:984-1012 | A poll that reaches the broker at or past the deadline and whose write commits leaves the instance not asynchronous. |
| `InstanceTheorems.StoredLatePoll` | pkg/controller/controller_instance.go:1204-1232 | With validation enforced, a committed late poll of a provision reported success or failure; giving up is refused. |
| `InstanceTheorems.RetriesEndAtDeadline` | pkg/controller/controller_instance.go:748-762 | No committed version still in progress was written by a reply past its deadline, except one that records an acceptance. |
| `InstanceTheorems.TwoWindows` | pkg/controller/controller_instance.go:1482-1487 | Over the whole life there is one start time for the provision, one for its orphan mitigation and one for the deprovision. |
| `InstanceTheorems.ValidationBoundary` | pkg/apis/servicecatalog/validation/instance.go:113-168 | Every status any pass submits in any run is valid if and only if it is no orphan and, with an operation, its reconciled generation is below its generation. |
| `InstanceTheorems.OrphansAreNeverStored` | pkg/apis/servicecatalog/validation/instance.go:126-157 | With validation enforced, no stored version is ever in orphan mitigation. |
| `InstanceTheorems.OrphansAreSubmitted` | pkg/controller/controller_instance.go:673-739 | In every reachable state, a pass that sent Provision submits an orphan if and only if the reply was a timeout or a code that starts mitigation; validation refuses it. |
| `InstanceTheorems.OrphanIsRefused` | pkg/controller/controller_instance.go:716-739 | A reachable state of a validating server and a legal pass there that submits an orphan and is refused. |
| `InstanceTheorems.StoredProvisionReply` | pkg/controller/controller_instance.go:673-739 | With validation enforced, no committed last write follows a reply to Provision that starts mitigation. |
| `InstanceTheorems.RemovalIsAdmissible` | pkg/apis/servicecatalog/validation/instance.go:211-221 | A provisioned instance marked for deletion can have its Deprovision intent stored if and only if its generation is ahead of its reconciled generation. |
| `InstanceTheorems.StuckForever` | pkg/apis/servicecatalog/validation/instance.go:211-221 | With validation enforced, an instance deleted while already reconciled at its generation keeps its finalizer and is never deprovisioned, over every run. |
| `InstanceReleases.ReleaseIsPossible` | pkg/controller/controller_instance.go:204-291 | With validation enforced, an instance marked for deletion can still be released by some run if and only if it is not already reconciled at its generation with nothing going on and no failure. |
| `InstanceTheorems.DeletionDuringProvisionSticks` | pkg/controller/controller_instance.go:1100-1150 | A successful poll of a provision that was overtaken by a deletion leads to exactly that stuck state. |
| `InstanceTheorems.StuckIsReachable` | pkg/controller/controller_instance.go:1469-1477 | That state is reachable from creation. |
| `InstanceRuns.ReachableInv` | pkg/controller/controller_instance.go:159-1236 | The inductive invariant behind these results holds in every reachable state. |
| `InstanceSteps.ReconcileAdvances` | pkg/controller/controller_instance.go:458-829 | Every write of a pass from a consistent version leads to a consistent and later version, along the phase graph, without a crash. |
| `InstanceCalls.DeprovisionFollowsIntent` | pkg/controller/controller_instance.go:279-294 | When Deprovision is sent, the version in force is already deprovisioning or in orphan mitigation, and no credential was listed. |
| `InstanceCalls.ProvisionFollowsIntent` | pkg/controller/controller_instance.go:658-668 | When Provision is sent, the version in force says so, and the snapshot was neither failed nor deleted. |
| `InstanceCalls.FinalAccounts` | pkg/controller/controller_instance.go:781-828 | Which reply each change of phase and of external properties goes back to. |
| `InstanceOutcomes.ProvisionLeadsTo` | pkg/controller/controller_instance.go:668-828 | In every reachable state, what each reply to Provision leaves behind, field by field, with the result of the pass and the polling. |
| `InstanceOutcomes.ReadyIffDone` | pkg/controller/controller_instance.go:808-828 | A provision request makes the instance Ready if and only if the broker says it is done; then its properties are stored, the operation is over and the pass succeeds. |
| `InstanceOutcomes.ProvisionPhase` | pkg/controller/controller_instance.go:668-828 | The phase each reply to Provision leads to; the mitigating codes are 201 to 299, 408 and 500 to 599. |
| `InstanceOutcomes.DeprovisionLeadsTo` | pkg/controller/controller_instance.go:294-440 | In every reachable state, what each reply to Deprovision leaves behind; the finalizer goes on a confirmation exactly if deletion was requested. |
| `InstanceOutcomes.PollLeadsTo` | pkg/controller/controller_instance.go:925-1236 | In every reachable state, what each reply to a poll leaves behind, in time and late, with the polling. |
| `InstanceOutcomes.GivenUpIffLate` | pkg/controller/controller_instance.go:984-1014 | A poll that reports no end ends the wait if and only if the retry window is over. |
| `InstanceOutcomes.EndedIffLate` | pkg/controller/controller_instance.go:355-378 | An error that is no answer ends a provision or a removal if and only if its window is over. |
| `InstanceOutcomes.PassCalls` | pkg/controller/controller_instance.go:458-668 | The exact condition under which a pass polls, deprovisions or provisions. |
| `InstanceOutcomes.EarlyWritesRecord` | pkg/controller/controller_instance.go:1242-1320 | A reference update stores the resolved class and the resolved plan, each under its own name; an intent names its operation, start and request; nothing else changes. |
| `InstanceOutcomes.SilentPass` | pkg/controller/controller_instance.go:159-241 | A pass without a call does nothing, releases, reports what blocks it, or fails, and exactly when. |
| `InstanceOutcomes.ReadyIsReachable` | pkg/controller/controller_instance.go:808-828 | For every request and all names, one pass from creation reaches a Ready instance on a validating server. |
| `InstanceOutcomes.UpdatesCommute` | pkg/registry/servicecatalog/instance/strategy.go:139-250 | Status, reference and main updates own different fields: they commute but for finalizers. |
| `InstanceOutcomes.CreatedIsNew` | pkg/registry/servicecatalog/instance/strategy.go:104-125 | What is created is new, of generation 1 and acceptable to creation. |
| `InstanceController.Controller.ReconcileServiceInstance` | pkg/controller/controller_instance.go:458-500 | The loop in its own form does exactly what the pass function says, for every snapshot and every input. |
| `InstanceController.Controller.ResolveReferences` | pkg/controller/controller_instance.go:1242-1320 | Resolving references gives the trace of the pass function, with the failing branches. |
| `InstanceController.Controller.Provision` | pkg/controller/controller_instance.go:511-665 | Look-up, parameters and intent before a provision call, as the pass function has them. |
| `InstanceController.Controller.CallProvision` | pkg/controller/controller_instance.go:668-828 | Every reply to Provision, as the pass function has it. |
| `InstanceController.Controller.ReconcileServiceInstanceDelete` | pkg/controller/controller_instance.go:159-231 | The delete path up to the look-up: listing, finalizer and release without a call. |
| `InstanceController.Controller.StartRemoval` | pkg/controller/controller_instance.go:236-291 | Look-up, start of the mitigation window and intent before a deprovision call. |
| `InstanceController.Controller.CallDeprovision` | pkg/controller/controller_instance.go:294-440 | Every reply to Deprovision, as the pass function has it. |
| `InstanceController.Controller.PollServiceInstance` | pkg/controller/controller_instance.go:831-885 | The poll path up to the call, with the bail-out for a missing start time. |
| `InstanceController.Controller.PollLastOperation` | pkg/controller/controller_instance.go:925-1236 | Every reply to a poll, in time and late. |
| `InstanceController.Controller.StopRetrying` | pkg/controller/controller_instance.go:984-1011 | Giving up: a removal ends, a provision becomes an orphan. |
| `InstanceController.Controller.ContinueOperation` | pkg/controller/controller_instance.go:1020-1097 | An operation still in progress: polled again, or given up when late. |
| `InstanceController.Controller.FinishFailedOperation` | pkg/controller/controller_instance.go:1153-1201 | A polled failure ends the operation; an orphan keeps its original reason. |
| `InstanceController.Controller.FinishRemoval` | pkg/controller/controller_instance.go:1110-1150 | The end of a polled removal; an orphan keeps its finalizer. |
| `InstanceController.Controller.GetClassPlanAndBroker` | pkg/controller/controller.go:249-319 | The look-up, its two nil dereferences and its failures. |
| `InstanceController.Controller.RecordStartOfOperation` | pkg/controller/controller_instance.go:1442-1464 | The intent write. |
| `InstanceObject.ServiceInstance.RecordStart` | pkg/controller/controller_instance.go:1442-1464 | In-place form of the pure update: operation, start time and Ready=False. |
| `InstanceObject.ServiceInstance.ClearCurrentOperation` | pkg/controller/controller_instance.go:1469-1477 | In-place form of the pure update; conditions stay. |
| `InstanceObject.ServiceInstance.StartOrphanMitigation` | pkg/controller/controller_instance.go:1482-1487 | In-place form of the pure update; operation and key stay. |
| `InstanceObject.ServiceInstance.PrepareForCreate` | pkg/registry/servicecatalog/instance/strategy.go:104-125 | Every created instance starts as the one initial version. |
| `InstanceObject.ServiceInstance.PrepareForUpdate` | pkg/registry/servicecatalog/instance/strategy.go:139-174 | A main update changes nothing but finalizers. |
| `InstanceObject.ServiceInstance.PrepareForStatusUpdate` | pkg/registry/servicecatalog/instance/strategy.go:206-217 | A status update keeps spec, generation and deletion timestamp of the stored object. |
| `InstanceObject.ServiceInstance.PrepareForReferencesUpdate` | pkg/registry/servicecatalog/instance/strategy.go:232-250 | A reference update keeps the status and everything but references and finalizers. |
| `InstanceValidation.ValidateStatus` | pkg/apis/servicecatalog/validation/instance.go:113-168 | For any condition list, no errors if and only if the status is acceptable; a repeated type counts if any entry is true. |
| `InstanceValidation.Validate` | pkg/apis/servicecatalog/validation/instance.go:203-221 | For any condition list, no errors if and only if status and generations are acceptable, on create and on update. |
| `FieldValidation.ValidateProperties` | pkg/apis/servicecatalog/validation/instance.go:170-201 | No errors if and only if parameters and checksum fit together. |
| `CredentialTheorems.ReadyIsHeld` | pkg/controller/controller_binding.go:384-393 | In every reachable state a credential stored as Ready is held by the broker and Unbind was never sent. |
| `CredentialTheorems.UnbindIsFinal` | pkg/controller/controller_binding.go:596-608 | Once Unbind was sent, no later state of any run stores the credential as Ready. |
| `CredentialTheorems.ReleaseIsConfirmed` | pkg/controller/controller_binding.go:697-721 | The finalizer goes only with deletion requested, in a pass that ejected the secret and had Unbind confirmed. |
| `CredentialTheorems.ReleasedIsFree` | pkg/controller/controller_binding.go:608-721 | With fresh reads, after the release some later state has the broker hold the binding if and only if some bind request may still act; for a broker that settles what it answers, if and only if it left one unanswered. |
| `CredentialTheorems.OutdatedPassMayRebind` | pkg/controller/controller_binding.go:384-393 | Fresh reads are needed: from any outdated version that was binding a pass can make the broker hold the binding again. |
| `CredentialTheorems.ReleasedForever` | pkg/controller/controller_binding.go:384-393 | For all runs, outdated passes included, and all brokers: a released credential can come to be held again if and only if some version was binding before deletion was requested. |
| `CredentialTheorems.FailedIsAbsorbing` | pkg/controller/controller_binding.go:129-136 | Failed=True never turns back, never coexists with Ready=True, and marks every orphan, whose Bind is still current. |
| `CredentialTheorems.FailedSendsNoBind` | pkg/controller/controller_binding.go:129-136 | From a version that shows Failed, no pass sends Bind. |
| `CredentialTheorems.NoPassCrashes` | pkg/controller/controller_binding.go:461-461 | No pass in any run dereferences a nil start time. |
| `CredentialTheorems.BindStartsOnce` | pkg/controller/controller_binding.go:942-975 | Versions follow the phase graph, rank never falls, and Bind and its mitigation each fill one stretch. |
| `CredentialTheorems.RetriesEndAtDeadline` | pkg/controller/controller_binding.go:655-694 | No committed version still in progress was written by a reply past its deadline. |
| `CredentialTheorems.ExternalIsAcknowledged` | pkg/controller/controller_binding.go:490-533 | The external properties of a Ready credential are those of a bind request the broker acknowledged. |
| `CredentialTheorems.ReadyHasSecret` | pkg/controller/controller_binding.go:490-533 | A Ready credential not marked for deletion has a secret it controls, with a serialized payload of the broker; the latest one unless an outdated pass asked again. |
| `CredentialTheorems.ForeignSecretsAreSafe` | pkg/controller/controller_binding.go:744-814 | No pass from any version fills a secret that another owner controls. |
| `CredentialTheorems.ValidationBoundary` | pkg/apis/servicecatalog/validation/binding.go:80-128 | Every status any pass submits is valid if and only if it is no orphan and, with an operation, its reconciled generation is below its generation. |
| `CredentialTheorems.OrphansAreNeverStored` | pkg/apis/servicecatalog/validation/binding.go:93-117 | With validation enforced, no stored version is ever in orphan mitigation. |
| `CredentialTheorems.OrphansAreSubmitted` | pkg/controller/controller_binding.go:393-523 | In every reachable state, a pass that sent Bind submits an orphan if and only if the reply starts mitigation or the secret was not filled in time; validation refuses it. |
| `CredentialTheorems.OrphanIsRefused` | pkg/controller/controller_binding.go:395-403 | A reachable state of a validating server and a legal pass there that submits an orphan and is refused. |
| `CredentialTheorems.RemovalIsAdmissible` | pkg/apis/servicecatalog/validation/binding.go:171-181 | A quiet credential marked for deletion can have its Unbind intent stored if and only if its generation is ahead of its reconciled generation. |
| `CredentialTheorems.StuckForever` | pkg/apis/servicecatalog/validation/binding.go:171-181 | With validation enforced, a credential marked for deletion and already reconciled at its generation keeps its finalizer over every run. |
| `CredentialReleases.ReleaseIsPossible` | pkg/controller/controller_binding.go:545-726 | With validation enforced, a credential marked for deletion can still be released by some run if and only if it is not already reconciled at its generation with nothing going on. |
| `CredentialTheorems.StuckIsSilent` | pkg/controller/controller_binding.go:596-602 | With fresh reads, no further Unbind is sent for it either. |
| `CredentialTheorems.FailedUnbindSticks` | pkg/controller/controller_binding.go:610-640 | Any HTTP error in reply to Unbind leads to exactly that state once its status is stored. |
| `CredentialTheorems.StuckIsReachable` | pkg/controller/controller_binding.go:610-640 | That state is reachable from creation. |
| `CredentialRuns.ReachableInv` | pkg/controller/controller_binding.go:128-727 | The inductive invariant behind these results holds in every reachable state. |
| `CredentialSteps.ReconcileAdvances` | pkg/controller/controller_binding.go:128-727 | Every write of a pass from a consistent version leads to a consistent and later version, without a crash. |
| `CredentialSteps.CallsFollowIntents` | pkg/controller/controller_binding.go:384-608 | Bind is sent only while the version in force is binding and the instance is ready and idle; Unbind only from a doomed version after the secret was ejected. |
| `CredentialOutcomes.BindLeadsTo` | pkg/controller/controller_binding.go:393-542 | In every reachable state, what each reply to Bind, with the secret filled or not, leaves behind, field by field. |
| `CredentialOutcomes.ReadyIffInjected` | pkg/controller/controller_binding.go:490-533 | A bind request makes the credential Ready if and only if the broker says it is done and the secret was filled; the external properties are stored in either case. |
| `CredentialOutcomes.UnbindLeadsTo` | pkg/controller/controller_binding.go:608-726 | In every reachable state, what each reply to Unbind leaves behind; an orphan keeps its finalizer. |
| `CredentialOutcomes.PassCalls` | pkg/controller/controller_binding.go:128-608 | The exact condition under which a pass binds, ejects the secret or unbinds. |
| `CredentialOutcomes.IntentRecords` | pkg/controller/controller_binding.go:942-964 | An intent names its operation, its start and its request, and changes nothing else. |
| `CredentialOutcomes.SilentPass` | pkg/controller/controller_binding.go:128-280 | A pass without a call changes at most the Ready condition, and fails unless it waits for the instance or needs nothing. |
| `CredentialOutcomes.ReadyIsReachable` | pkg/controller/controller_binding.go:490-533 | For every payload that serializes, one pass from creation reaches a Ready credential whose secret carries it. |
| `CredentialOutcomes.ReleaseLeavesNoSecret` | pkg/controller/controller_binding.go:549-566 | The step that removes the finalizer leaves no secret under the name and the broker not holding the binding. |
| `CredentialOutcomes.InjectionSucceeds` | pkg/controller/controller_binding.go:744-814 | Injection succeeds exactly if the payload serializes, the secret is readable and absent or its own, and the write is done; it keeps the owners. |
| `CredentialOutcomes.PayloadIsSerialized` | pkg/controller/controller_binding.go:744-756 | The data has the keys of the payload, strings verbatim and everything else in its JSON form. |
| `CredentialOutcomes.EjectionRemoves` | pkg/controller/controller_binding.go:816-826 | An ejection reported as done leaves no secret. |
| `CredentialOutcomes.UpdatesOwn` | pkg/registry/servicecatalog/binding/strategy.go:122-194 | Status and main updates own different fields. |
| `CredentialOutcomes.CreatedIsNew` | pkg/registry/servicecatalog/binding/strategy.go:90-108 | What is created is new, of generation 1 and acceptable to creation. |
| `CredentialController.Controller.ReconcileServiceInstanceCredential` | pkg/controller/controller_binding.go:128-244 | The loop in its own form does what the pass function says, and changes the credential's secret as that trace says and no other secret. |
| `CredentialController.Controller.ReportObstacle` | pkg/controller/controller_binding.go:166-242 | What stands in the way of both branches, in the source's order, with its error or its condition; the secret stays. |
| `CredentialController.Controller.AddOrUpdate` | pkg/controller/controller_binding.go:244-391 | The binding branch, with the checks in the source's order. |
| `CredentialController.Controller.StartBind` | pkg/controller/controller_binding.go:384-391 | The intent write before a bind. |
| `CredentialController.Controller.CallBind` | pkg/controller/controller_binding.go:393-542 | Every reply to Bind, with its effect on the secret. |
| `CredentialController.Controller.BindFailure` | pkg/controller/controller_binding.go:395-480 | The failing replies to Bind; none touches the secret. |
| `CredentialController.Controller.AfterInjection` | pkg/controller/controller_binding.go:490-542 | What becomes of the credential once the secret was, or was not, filled. |
| `CredentialController.Controller.Remove` | pkg/controller/controller_binding.go:545-606 | Ejection, intent and start time before an unbind. |
| `CredentialController.Controller.CallUnbind` | pkg/controller/controller_binding.go:608-726 | Every reply to Unbind. |
| `CredentialObject.ServiceInstanceCredential.RecordStart` | pkg/controller/controller_binding.go:942-964 | In-place form of the pure update. |
| `CredentialObject.ServiceInstanceCredential.ClearCurrentOperation` | pkg/controller/controller_binding.go:969-975 | In-place form of the pure update; conditions stay. |
| `CredentialObject.ServiceInstanceCredential.StartOrphanMitigation` | pkg/controller/controller_binding.go:96-124 | In-place form of the pure update. |
| `CredentialObject.ServiceInstanceCredential.PrepareForCreate` | pkg/registry/servicecatalog/binding/strategy.go:90-108 | Every created credential starts as the one initial version. |
| `CredentialObject.ServiceInstanceCredential.PrepareForUpdate` | pkg/registry/servicecatalog/binding/strategy.go:122-151 | A main update changes nothing but finalizers. |
| `CredentialObject.ServiceInstanceCredential.PrepareForStatusUpdate` | pkg/registry/servicecatalog/binding/strategy.go:183-194 | A status update keeps generation and deletion timestamp of the stored object. |
| `CredentialValidation.ValidateStatus` | pkg/apis/servicecatalog/validation/binding.go:80-128 | For any condition list, no errors if and only if the status is acceptable; a repeated type counts if any entry is true. |
| `CredentialValidation.Validate` | pkg/apis/servicecatalog/validation/binding.go:163-181 | For any condition list, no errors if and only if status and generations are acceptable, on create and on update. |
| `Secrets.SecretStore.InjectCredential` | pkg/controller/controller_binding.go:744-814 | Fills or creates the credential's own secret, never one it does not control, and leaves every other secret alone. |
| `Secrets.SecretStore.EjectCredential` | pkg/controller/controller_binding.go:816-826 | Deletes by name; an absent secret counts as deleted; every other secret stays. |
| `Secrets.SerializePayload` | pkg/controller/controller_binding.go:744-760 | The data if and only if every value serializes, whatever the iteration order. |
| `Secrets.GetControllerOf` | pkg/controller/controller.go:614-621 | The UID of the first reference marked as controller. |
| `Secrets.ControllerIsFirst` | pkg/controller/controller.go:604-621 | References before the first controller reference do not matter. |
| `Secrets.NoController` | pkg/controller/controller.go:614-621 | Without a controller reference there is no controller. |
| `Namespace.DeprovisionSeesNoCredential` | pkg/controller/controller_instance.go:165-202 | With fresh reads, Deprovision is never sent in a step in which some credential refers to the instance. |
| `Namespace.ReadyCredentialIsServed` | pkg/controller/controller_binding.go:265-280 | With fresh reads, a Ready credential refers to an existing instance that the broker holds and whose removal was neither recorded nor requested, across creations and re-creations under the same names. |
| `Namespace.IntentEndsReadiness` | pkg/controller/controller_instance.go:284-291 | Once a Deprovision intent is committed, no credential that refers to the instance is Ready in any later state in which the instance exists. |
| `Namespace.ServiceIsReachable` | pkg/controller/controller_binding.go:265-542 | Creating an instance, provisioning it, creating a credential and binding it reaches a Ready credential whose secret carries the payload. |
| `Namespace.ReachableInv` | pkg/controller/controller_binding.go:188-280 | The invariant that ties every Ready credential to a usable instance holds in every reachable state. |
| `WorkQueue.KeysAreIndependent` | vendor/k8s.io/client-go/util/workqueue/queue.go:86-155 | Until shutdown, each operation acts on one key as if it were alone, and a key is in line exactly when it is dirty and has no worker. |
| `WorkQueue.TakeKeepsValid` | vendor/k8s.io/client-go/util/workqueue/queue.go:117-139 | Taking a key keeps the line exact and gives out a key no worker has. |
| `WorkQueue.AddKeepsValid` | vendor/k8s.io/client-go/util/workqueue/queue.go:86-106 | Adding a key keeps the line exact: once each, the keys that need work and have no worker. |
| `WorkQueue.DoneKeepsValid` | vendor/k8s.io/client-go/util/workqueue/queue.go:141-155 | Marking a key done keeps it exact. |
| `WorkQueue.RateLimitingQueue.Put` | vendor/k8s.io/client-go/util/workqueue/queue.go:86-106 | Adding to the queue object is the pure operation. |
| `WorkQueue.RateLimitingQueue.Get` | vendor/k8s.io/client-go/util/workqueue/queue.go:117-139 | Taking from it is the pure operation; an empty line in shutdown says quit. |
| `WorkQueue.RateLimitingQueue.MarkDone` | vendor/k8s.io/client-go/util/workqueue/queue.go:141-155 | Marking done is the pure operation; a key dirtied meanwhile joins the line again. |
| `WorkQueue.RateLimitingQueue.PutRateLimited` | vendor/k8s.io/client-go/util/workqueue/rate_limitting_queue.go:59-62 | A limited addition counts a requeue even when the queue is shutting down. |
| `Workers.OneWorkerPerKey` | pkg/controller/controller.go:207-243 | For any number of workers and any interleaving, on reconcile queues and on the polling queue, no key is with two of them, and a key with a worker is not in line. |
| `Workers.RequeuesAreBounded` | pkg/controller/controller.go:230-238 | The requeue count of a reconcile queue never exceeds maxRetries. |
| `Workers.DroppedAfterExactlyMaxRetries` | pkg/controller/controller.go:230-241 | A key that fails every time is dropped at exactly every (maxRetries+1)-th outcome, hence after exactly maxRetries requeues. |
| `Workers.TrailingIsPosition` | pkg/controller/controller.go:230-241 | Without a success the count is the number of outcomes modulo maxRetries+1. |
| `Workers.HandleNext` | pkg/controller/controller.go:212-243 | One turn of the worker loop on the queue object, with its four ends. |
| `Workers.HandledInFourSteps` | pkg/controller/controller.go:212-243 | One turn of the loop is four steps of the model with any number of workers, with the same queue and outcome. |
| `Workers.Drain` | pkg/controller/controller.go:212-243 | On either kind of queue, the loop during shutdown handles what is in line, each key once and in order, whatever other workers have; what stays dirty is with one of them. |
| `Polling.NoLostPoll` | pkg/controller/controller_instance.go:54-135 | While a stored instance is asynchronous its key is in the polling queue, in the instance queue or with a worker, unless the last worker dropped it after maxRetries failures; over every run, with a lagging lister, lost writes and restarts. |
| `Polling.PassResolves` | pkg/controller/controller_instance.go:97-135 | Every pass fails, keeps polling, or reports a version that is not asynchronous, unless it starts from a version that needs nothing and does nothing. |
| `Conditions.SetCondition` | pkg/controller/controller_instance.go:1340-1380 | For lists of any length over any condition types: the set condition is updated or added, every other is unchanged and in place, and unique types stay unique. |
| `Conditions.TransitionTimeIsLatestChange` | pkg/controller/controller_instance.go:1340-1380 | For any list and any sequence of sets, the transition time is that of the latest set that added the condition or changed its status, and unique types stay unique. |
| `Conditions.SetSummary` | pkg/controller/controller_binding.go:847-889 | The list setter and the two-condition summary the state machines use agree. |
| `Conditions.AnyFailed` | pkg/controller/controller_instance.go:445-453 | For any list, true exactly when some Failed condition is true. |
| `Conditions.SomeTrueIsSummary` | pkg/controller/controller_instance.go:445-453 | With unique types, some condition of a type is true exactly if the first is. |
| `Conditions.FirstReady` | pkg/controller/controller.go:589-597 | The status of the first Ready condition. |
| `Catalog.ConvertCatalog` | pkg/controller/controller.go:479-515 | Succeeds if and only if every service has a plan and everything marshals; one class per service with that service's bindable, tags, description, requirements, plan-updatable flag, name and metadata, and each plan at its place. |
| `Catalog.ConvertServicePlans` | pkg/controller/controller.go:517-585 | Succeeds if and only if there is a plan and all of them marshal; each plan in order with its own ID, class, name, flags and each of its three schemas under its own kind. |
| `Catalog.PlansAreInOrder` | pkg/controller/controller.go:479-515 | The plans of a service stand contiguously at its offset, in order, each referring to the class of that service. |
| `Catalog.PlansReferToClasses` | pkg/controller/controller.go:479-515 | Every converted plan belongs to one service of the catalog and refers to its class. |
| `Brokers.RelistRespectsOthers` | pkg/controller/controller_broker.go:494-547 | Whatever its outcome, a relist removes nothing, changes no class of another broker, and leaves owner, external ID and fixed part of every entry. |
| `Brokers.RelistPublishesClass` | pkg/controller/controller_broker.go:331-368 | After a successful relist every service is published, owned by the broker, with the fields of the service listed last under its ID; a new class has name and metadata of the one listed first, an existing one keeps its own. |
| `Brokers.RelistPublishesPlan` | pkg/controller/controller_broker.go:331-368 | After a successful relist every plan is published with the fields and schemas of the plan listed last under its ID; an existing one keeps its class, name, metadata and owner. |
| `Brokers.RelistCreatesPlan` | pkg/controller/controller_broker.go:551-570 | A new plan has the name, the class and the metadata of the plan listed first under its ID. |
| `Brokers.RelistSucceeds` | pkg/controller/controller_broker.go:331-368 | With current listers, a relist succeeds if and only if the catalog is not empty and converts, no needed write is refused, no ID is taken with another external ID, and no class belongs to another broker. |
| `Brokers.RelistIsIdempotent` | pkg/controller/controller_broker.go:331-368 | With current listers, relisting an unchanged catalog succeeds again and changes nothing, even with repeated IDs. |
| `Brokers.Controller.RelistCatalog` | pkg/controller/controller_broker.go:308-377 | The loops in their own form give the relist function, partial results of a failure included. |
| `Brokers.Controller.ReconcileServiceClass` | pkg/controller/controller_broker.go:494-547 | One class: created, refused or projected onto the existing one. |
| `Brokers.Controller.ReconcileServicePlan` | pkg/controller/controller_broker.go:551-598 | One plan: created, refused or projected; no owner check. |
| `Brokers.Controller.DeleteClassesOf` | pkg/controller/controller_broker.go:404-466 | Removes only the broker's classes and their plans, in any listing order; it succeeds if and only if none of those deletions is refused, and then all of them are gone. |
| `Brokers.Controller.FinalizeBroker` | pkg/controller/controller_broker.go:382-487 | The finalizer goes if and only if no deletion is refused and both updates succeed; then exactly the broker's classes and the plans of those classes are gone. |
| `Parameters.BuildParameters` | pkg/controller/parameters.go:38-70 | Succeeds if and only if every source is readable and no key comes twice; the result is the union, the redacted map has the same keys with the marker on secret ones and true values on inline ones. |
| `Parameters.Merge` | pkg/controller/parameters.go:49-55 | Joins one block entry by entry, in any order, if and only if no key is there yet. |
| `Parameters.AnswersAgree` | pkg/controller/parameters.go:38-70 | Two answers to the same sources are equal, so map iteration order cannot matter. |
| `Parameters.OrderDoesNotMatter` | pkg/controller/parameters.go:38-70 | Rearranging the secret sources does not change the answer. |

## Left out

- Kubernetes and broker client libraries, informers, etcd, HTTP, leader election and start-up: only their contracts appear (compare-and-swap writes, work-queue operations, replies, listers that lag).
- Two controller processes at work at once; a restart ends the old process.
- Recreation of an instance under the same key in the polling model; `Namespace` has it.
- Event recording, log and condition messages, dashboard URLs, JSON and YAML encoding, SHA-256: parameters carry the shape of a checksum and whether a document parses.
- Whether a plan can be bound, whether look-ups find what they look for and what a request's parameters are: a pass takes these as inputs.
- Validation of spec fields, names and labels; only status, properties and generations are modelled.
- Originating identity, which is off by default, and plan or parameter updates; the spec is immutable here.
- Edits of finalizers by users.
- Truncation of stored times to seconds.
- Whether a poll's operation key belongs to the current operation; starting orphan mitigation keeps the key, and the code does not promise more.
- `OperationStartTime` and the retry bookkeeping of brokers, the decision when to relist, the condition setter of brokers (it never appends to a non-empty list), authentication.
- Listers that lag in a relist or a cascading deletion; those two read what is stored.
- Brokers.RelistIsIdempotent: does not cover a lister that has not seen a creation of the same pass; there a repeated ID makes the second creation fail (`pkg/controller/controller_broker.go:497-506`).
- CredentialTheorems.ForeignSecretsAreSafe: says nothing about ejection, which deletes by name whoever controls the secret, as the code does.
- Brokers.RelistRespectsOthers: does not protect plans of other brokers, since the code checks no owner of a plan.
- InstanceTheorems.RetriesEndAtDeadline: does not bound an operation the broker accepts late; the next poll ends it.
- Workers.RequeuesAreBounded: is about the reconcile queues; the polling queue counts additions by the controller and has no bound.
