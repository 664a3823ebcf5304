# cinder-operator: rotation of secrets, and the logic around it

A Dafny 4.11 model of the hard parts of the Cinder operator, with proofs. `dafny verify dfyconfig.toml`
checks all of it.

## What is modelled

**The rotation protocol** (`Cluster`, `Invariant`, `Safety`, `Tracking`, `Fairness`, `Progress`, `Passes`,
`Convergence`, `Limits`, `Operator`). One parent controller and any number of sub-controllers (API, scheduler, backups, volumes: one
machine, parametric in the service) work on one namespace. The parent puts a consumer finalizer on the current
messaging and notifications secrets, writes the shared config, stops once when the input hash changed, runs the
two jobs, writes the sub-CRs, folds a gate over all services, and only then releases the previous secrets and
prunes strays. A sub-controller adds its finalizer to a new sub-CR and returns; otherwise it resets its conditions,
observes its generation, reads its spec and the shared config, rolls a StatefulSet and records
`AppliedInputSecretHash` only when all pods run this very input.

`Cluster` has one event for every write that reaches the API server. Passes are therefore not atomic: everything
else, the outside world included, may happen between two writes of a pass, and a pass may stop or lose its
status patch at any point. A deletion is such a sequence of writes too. `Legal`/`Run` define runs. The main results:

- `Safety.RotationSafety`: in every careful run, up to the first step of a deletion, every secret that a service of
  the spec names or uses holds its finalizer. Careful means: a new secret is published (or the bus disabled) only
  after the previous one became the tracked one, and a service joins the spec only without a leftover sub-CR.
- `Safety.GateSound`: in every careful run, deletions included, an open gate means that all pods are on the current
  pair of secrets, also under A -> B -> A, where a stale applied hash alone can match.
- `Tracking`: write-ahead, stage order with the order of the two jobs, no leaks, and, in arbitrary runs up to the
  deletion, the tracked notifications secret and credential held in every state without exception, and the
  if-and-only-if condition for the tracked messaging secret.
- `Fairness.FairStepsConverge`: with the inputs fixed, every interleaving of atomic steps closes the rotation, from
  every reachable state, within 5 fair stretches for each service and 8 more, although passes may fail or lose their
  status patch in between any number of times; the state reached is stable. `Progress.CanAlwaysConverge`: such a run
  exists from every state. `Convergence` says the same of schedules of whole passes, with the number of hash-changed
  stops and a fixpoint down to the last status field.
- `Limits`: where the code does less than its comments say, with the exact conditions.
- `Operator.Reconcilers`: the imperative passes, each proved to be a run of those events whichever call fails.

**`processCustomServiceConfig`** (`Text`, `ServiceConfig`, `LineGrammar`, `ServiceConfigLaws`): the scan as a loop, how
every kind of line reads whatever its spacing, and over all texts: backends are enabled whenever some are named, the meaning is preserved, the function is idempotent, the generated list reads back, and it is known exactly
when the counting argument for implicit LVM is right.

**Smaller machines**: the set of volume services and its cleanup (`VolumeSet`), the input hash (`InputHash`), the
ownership of the route's timeout (`Routes`), the lists of volumes and mounts (`Mounts`), and the names (`Names`).

## Assumptions

- `ManageSecretConsumerFinalizer` adds and `RemoveSecretConsumerFinalizer` removes a finalizer; the empty name is a
  no-op. `PruneSecretConsumerFinalizers` strips every secret outside its keep list.
- `FinalizeSecretRotation` returns the current name when the previous one is empty or equal, keeps the previous one
  when not ready, and releases it when ready (test/functional/cinder_controller_test.go:2390-2395, 2689-2699,
  2757-2765).
- Hashes are injective, so a hash is represented by what it hashes; the hashed variables do not depend on map order.
- `IsReadyForInput` means that all pods run the template with that hash. Pods use the config of their template.
- A pass reads the Cinder spec and the two TransportURLs at once, at its start. There is one Cinder in the
  namespace; messaging, notifications and credential secrets have different names; deployed services have at least
  one replica.
- `DoJob` creates a job unless its definition is the recorded one, and waits for its end; a definition that has ended
  once counts as ended. `Propagate` gives some number of copies of an entry, the same for volumes and mounts.
- Go's `append`, maps, `strings` functions and the API server's generation counting behave as documented.

## Where the code and its documentation part

- The gate can be open while pods run on another secret, if a secret is published, and withdrawn again, before it
  was tracked: the hash-changed stop leaves the sub-CR at the first secret while the shared config already names
  the second, a sub pass then rolls the pods onto the second and reports the hash of the first.
  `Limits.RapidReturnStrandsPods` builds the run from every converged state. `Limits.GateExact` is the condition, read
  off the state, under which this can be brought about; while it does not arise, `Limits.GateInRuns` says that the
  gate can be trusted in arbitrary runs.
- The tracked messaging secret can lack its finalizer, even after a completed pass, when adding the finalizer failed
  right after early tracking and the secret was rotated before the retry (`Limits.TrackedCanMissFinalizer`). That
  failure is the only cause: `Tracking.TrackedHeldExactly`; for one pass, `Limits.CompletedPassTracks`.
- A service that left the spec, missed a rotation and came back is in the spec with pods on a released secret, with
  every other event careful (`Limits.ReturningServiceIsUnsafe`): backups removed from `CinderBackups` are never
  deleted.
- internal/controller/cinder_controller.go:682-684 replaces a nil tracked notifications name by an empty one, so the
  nil test at 719 never succeeds: the notifications secret is tracked from the first completed pass only.
- A driver line in a section that is no backend makes the LVM count miss a backend, and an LVM driver there is taken
  for a backend (`ServiceConfigLaws.StrayDriverMisleads`); `ServiceConfigLaws.LVMInferenceExactly` is the condition.
- A human hands the route's timeout back also by setting it to the value of the flag (`Routes.HandedBackExactly`).
- A change of a secret is hidden when its variable is set again: by a config secret, a certificate or a generated
  file whose variable has the same name (`InputHash.DetectionExact`).
- Names of services are unique for one Cinder, not for two (`Names.NamesOfTwoCindersCollide`).

## Model

| member | source | states |
|---|---|---|
| `Invariant.SubStepKeeps` | internal/controller/cinderapi_controller.go:179-194 | no step of a sub pass or rollout breaks "DeploymentReady at the observed generation implies applied hash of this spec and pods on configs no older than it" |
| `Invariant.GateSettles` | internal/controller/cinder_controller.go:956-974 | an open gate names the expected pair and means that StatefulSet and pods use configs rendered since this generation |
| `Invariant.GateIsReported` | api/v1beta1/cinderapi_types.go:179-184 | in any run the gate is open exactly for a service that observed its spec, has all replicas ready and applied the expected secrets; a service scaled to zero is ready when nothing is requested |
| `Invariant.WrittenSubOk` | internal/controller/cinder_controller.go:1510-1735 | create-or-update leaves the sub-CR at the wanted spec; its gate is open only when the object was already settled on it |
| `Invariant.StepKeepsInv` | internal/controller/cinder_controller.go:600-1285 | every event, wherever a pass stops, keeps the invariant of sub-CRs, stages, jobs and finalizers |
| `Invariant.RunKeepsInv` | internal/controller/cinder_controller.go:600-1285 | the invariant holds in every reachable state |
| `Safety.ReadyMeansMoved` | internal/controller/cinder_controller.go:934-1156 | when all gates of a pass were open, the whole workload of the spec is on the pass's secrets |
| `Safety.StepKeepsSafety` | internal/controller/cinder_controller.go:658-1276 | every careful event keeps the safety invariant; outside a deletion also that everything in use is held |
| `Safety.RotationSafety` | internal/controller/cinder_controller.go:1197-1276 | in every careful run up to the first step of a deletion, every secret named by a sub-CR of the spec or used by its StatefulSet or pods holds the transport finalizer |
| `Safety.GateSound` | internal/controller/cinder_controller.go:956-974 | in every careful run, deletions included, an open gate means that all pods are on the current secrets, A -> B -> A included |
| `Tracking.WriteAhead` | internal/controller/cinder_controller.go:666-823 | config and sub-CR writes name only secrets that already hold the finalizer, in every run |
| `Tracking.WritesInputs` | internal/controller/cinder_controller.go:823-942 | in every run a written config holds both published secrets and all other input of the pass, and a written sub-CR names them with the replicas and the revision asked for |
| `Tracking.StageOrder` | internal/controller/cinder_controller.go:838-942 | a sub-CR is written only with the hash of the config in place recorded, and after the database sync of the pass's definition and, later in the run, its migration have ended |
| `Tracking.JobsInOrder` | internal/controller/cinder_controller.go:515-597 | in every run the migration of a definition ends only after its database sync |
| `Tracking.NoLeaks` | internal/controller/cinder_controller.go:1197-1276 | after a completed pass only tracked and current secrets hold finalizers; after an all-ready pass exactly the current ones |
| `Tracking.DeleteReleasesAll` | internal/controller/cinder_controller.go:445-498 | from the last step of a deletion on, with every removal a step of its own that may fail and be repeated, no secret holds either finalizer |
| `Tracking.StepKeepsTracked` | internal/controller/cinder_controller.go:658-669 | no event takes the finalizer off the tracked secret; it is replaced only by the current one, with every gate of the pass open |
| `Tracking.TrackedStaysHeld` | internal/controller/cinder_controller.go:1197-1207 | once held, the tracked messaging secret stays held in every later state until deletion, rapid rotation included |
| `Tracking.TrackedAfterRotation` | internal/controller/cinder_controller.go:1197-1267 | so from the first all-ready pass on, in every run |
| `Tracking.StepTracksExactly` | internal/controller/cinder_controller.go:658-669 | the one step, checked before it is taken, that leaves the tracked secret without a finalizer |
| `Tracking.TrackedHeldExactly` | internal/controller/cinder_controller.go:658-669 | in every run up to the deletion the tracked messaging secret is held in every state, if and only if adding the first finalizer never failed after early tracking |
| `Tracking.ReleaseTracksHeld` | internal/controller/cinder_controller.go:1197-1207 | exactly when the release leaves the tracked secret with a finalizer |
| `Tracking.StepKeepsOthers` | internal/controller/cinder_controller.go:1209-1247 | no event takes the finalizer off the tracked notifications secret or credential; either is replaced only when there was none or with every gate of the pass open |
| `Tracking.OthersAlwaysHeld` | internal/controller/cinder_controller.go:859-873 | in every run up to the deletion both are held in every state |
| `Passes.FullPassIsARun` | internal/controller/cinder_controller.go:600-1285 | an uninterrupted pass, in any order of services, is a run of the atomic events |
| `Convergence.SubPassIsARun` | internal/controller/cinderapi_controller.go:196-200 | an uninterrupted sub pass, the first one that only registers the sub-CR included, is a run of the atomic events |
| `Convergence.HashStopsOnce` | internal/controller/cinder_controller.go:838-857 | in every schedule over fixed inputs the hash-changed stop happens at most once, and never once the hash is recorded |
| `Convergence.EditIsSeen` | internal/controller/cinder_controller.go:823-857 | a pass writes every part of the input into the config, and stops at the changed hash exactly when some part changed |
| `Convergence.ConvergedMeans` | internal/controller/cinder_controller.go:934-1276 | convergence field by field: config, specs with replicas, pods, reports, jobs, tracked names and holders are those of the current input |
| `Convergence.CompletingPass` | internal/controller/cinder_controller.go:1197-1276 | a completing pass with all gates open closes the rotation, and keeps a closed one closed |
| `Convergence.MoveLowers` | internal/controller/cinder_controller.go:838-1276 | no pass, sub pass, rollout or job raises the measure, and one that leaves it leaves every part of it |
| `Convergence.FairRoundsConverge` | internal/controller/cinder_controller.go:838-1276 | fair rounds of whole passes and rollouts, in any order, reach the state where tracked equals current and nothing else is held |
| `Convergence.RoundsNeeded` | internal/controller/cinder_controller.go:838-1276 | five such rounds for each service and six more are enough |
| `Convergence.Fixpoint` | internal/controller/cinder_controller.go:600-1285 | a pass over the converged state changes nothing at all |
| `Convergence.ServiceFixpoint` | internal/controller/cinderapi_controller.go:1029-1056 | nor does a pass of a sub-controller or a rollout of a service of the spec |
| `Fairness.StepLowers` | internal/controller/cinder_controller.go:838-1276 | no atomic step of any actor, early returns and lost patches included, takes the state further away; one that leaves the distance leaves every part of it |
| `Fairness.HitHelps` | internal/controller/cinder_controller.go:838-1276 | the event that the state waits for takes it nearer |
| `Fairness.FairStepsConverge` | internal/controller/cinder_controller.go:838-1276 | every fair interleaving of atomic steps over fixed inputs, with any number of failed passes in between, from every reachable state, reaches convergence within the stated number of stretches |
| `Fairness.ConvergedStays` | internal/controller/cinder_controller.go:838-1276 | no calm run leaves the state that is reached |
| `Fairness.HashStopsBounded` | internal/controller/cinder_controller.go:838-857 | in every calm interleaving passes over the current inputs stop at a changed hash at most once; the pass that was under way before may do so too |
| `Progress.FairStretchExists` | internal/controller/cinderapi_controller.go:179-200 | from every state with deployable inputs a fair stretch exists, in which new sub-CRs first get registered |
| `Progress.CanAlwaysConverge` | internal/controller/cinder_controller.go:600-1285 | no state is stuck: a calm run to convergence exists |
| `Limits.GateInRuns` | internal/controller/cinder_controller.go:956-974 | in arbitrary runs an open gate means pods on the current pair, when every config that was in place while the sub-CR had its generation names that pair |
| `Limits.GateExact` | internal/controller/cinder_controller.go:956-974 | if and only if the config in place names other secrets than the spec, the sub-controllers, rollouts and publishers alone can bring about an open gate over pods that are not on the current pair |
| `Limits.RapidReturnStrandsPods` | internal/controller/cinder_controller.go:847-857 | from every converged state a run with a rapid A -> B -> A, in which every status patch lands, ends with the gate open, pods on B and B released |
| `Limits.CompletedPassTracks` | internal/controller/cinder_controller.go:658-669 | if-and-only-if condition, on the state before an uninterrupted completing pass, for the tracked secret to be held after it, and which secret that is |
| `Limits.TrackedCanMissFinalizer` | internal/controller/cinder_controller.go:658-669 | a run, in which every status patch lands, to a completed pass that leaves it unheld |
| `Limits.ReturningServiceIsUnsafe` | internal/controller/cinder_controller.go:1066-1117 | a careful run after which re-adding a service with a leftover sub-CR puts pods on a released secret into the spec |
| `Operator.Reconcilers.SecureTransports` | internal/controller/cinder_controller.go:658-741 | finalizers first; any failing call leaves a legal run with the status persisted |
| `Operator.Reconcilers.WriteConfig` | internal/controller/cinder_controller.go:816-857 | writes the config and goes on if and only if its hash was recorded |
| `Operator.Reconcilers.RunJobs` | internal/controller/cinder_controller.go:515-597 | goes on if and only if db sync and then migration of this definition are done |
| `Operator.Reconcilers.DeployServices` | internal/controller/cinder_controller.go:934-1156 | the loop equals writing all services at once and the conjunction of their gates |
| `Operator.Reconcilers.ReleaseTransports` | internal/controller/cinder_controller.go:1197-1235 | equals the two release steps |
| `Operator.Reconcilers.ReleaseStrays` | internal/controller/cinder_controller.go:1237-1276 | equals the credential release and both prunings |
| `Operator.Reconcilers.ReconcileNormal` | internal/controller/cinder_controller.go:600-1285 | is a run of events whatever fails; equals the one-piece pass when nothing does; once completed, config and sub-CRs carry the whole input |
| `Operator.Reconcilers.ReconcileSafely` | internal/controller/cinder_controller.go:600-1285 | keeps the invariant and rotation safety; all gates open means exactly the current secrets are held |
| `Operator.Reconcilers.ReconcileService` | internal/controller/cinderapi_controller.go:179-200 | the first pass only registers; every pass is a run of events whatever fails; the applied hash changes only with a ready report, and that only when all pods run this pass's template |
| `Operator.Reconcilers.ReconcileDelete` | internal/controller/cinder_controller.go:445-498 | is a run of events whichever removal or pruning fails, keeps the invariant, only takes finalizers away, releases the secrets it knows by name even if pruning fails, and completes exactly when the CR goes, with none left |
| `Text.JoinSplit` | internal/controller/cindervolume_controller.go:807-807 | splitting and joining a text gives it back |
| `Text.SplitJoin` | internal/controller/cindervolume_controller.go:851-867 | joining and splitting parts gives them back if and only if none contains the separator |
| `Text.TrimSpaceExact` | internal/controller/cindervolume_controller.go:816-817 | trimming cuts all spaces off both ends and nothing else |
| `Text.BeforeExact` | internal/controller/cindervolume_controller.go:817-817 | cutting gives what stands before the first separator, or all |
| `Text.SpacesExact` | internal/controller/cindervolume_controller.go:816-817 | the spaces that are trimmed, one by one |
| `Text.TrimBracketsExact` | internal/controller/cindervolume_controller.go:832-832 | trimming brackets cuts all of them off both ends and nothing else |
| `LineGrammar.TokenOfEntry` | internal/controller/cindervolume_controller.go:816-817 | the key of `key = value`, with any spaces around it and any value, is the key |
| `LineGrammar.BackendReads` | internal/controller/cindervolume_controller.go:833-835 | a volume_backend_name entry is one, whatever its spacing |
| `LineGrammar.DriverReads` | internal/controller/cindervolume_controller.go:836-841 | a volume_driver entry is one, and LVM exactly when its value ends in the name of that driver |
| `LineGrammar.EnabledReads` | internal/controller/cindervolume_controller.go:824-826 | an enabled_backends entry is one, whatever its spacing |
| `LineGrammar.OtherReads` | internal/controller/cindervolume_controller.go:824-842 | every other key is passed over |
| `LineGrammar.CommentReads` | internal/controller/cindervolume_controller.go:819-822 | comments are skipped, indented ones too |
| `LineGrammar.BlankReads` | internal/controller/cindervolume_controller.go:819-822 | so are blank lines |
| `LineGrammar.DefaultReads` | internal/controller/cindervolume_controller.go:827-829 | a [DEFAULT] line is one, whatever its spacing |
| `LineGrammar.HeaderReads` | internal/controller/cindervolume_controller.go:830-832 | a header `[name]` is read as the section of that name, whatever its spacing |
| `ServiceConfig.ScanLines` | internal/controller/cindervolume_controller.go:815-842 | the loop computes the five facts of the scan |
| `ServiceConfig.ProcessCustomServiceConfig` | internal/controller/cindervolume_controller.go:806-870 | the method computes the verdict on LVM and the extended text that the laws below are about |
| `ServiceConfigLaws.OutputLines` | internal/controller/cindervolume_controller.go:851-867 | line by line: two lines replace the last [DEFAULT] or come first; every other line is kept in order |
| `ServiceConfigLaws.BackendsEnabled` | internal/controller/cindervolume_controller.go:851-867 | the output enables backends exactly when the text does or names some |
| `ServiceConfigLaws.OneBackendEnabled` | internal/controller/cindervolume_controller.go:806-870 | from the text to the result, for a section with one backend name and any spacing: its name is enabled in front, and it is taken for LVM |
| `ServiceConfigLaws.MeaningPreserved` | internal/controller/cindervolume_controller.go:806-870 | the (section, entry) pairs are those of the input, with one DEFAULT pair inserted exactly when the text enables no backends and names some |
| `ServiceConfigLaws.Idempotent` | internal/controller/cindervolume_controller.go:806-870 | a second application changes neither text nor verdict, for every text |
| `ServiceConfigLaws.EnabledBackendsRoundTrip` | internal/controller/cindervolume_controller.go:824-867 | the generated line is in the output and, split at commas, gives the nearest section of each volume_backend_name line in order, if and only if no name has a comma |
| `ServiceConfigLaws.SectionsCounted` | internal/controller/cindervolume_controller.go:832-842 | with at most one such line in a section, the counter counts sections |
| `ServiceConfigLaws.LVMInferenceExactly` | internal/controller/cindervolume_controller.go:832-849 | with at most one backend name and one driver in a section: the if-and-only-if condition for usesLVM to tell whether some backend section has no driver or the LVM driver |
| `ServiceConfigLaws.LVMInferenceExact` | internal/controller/cindervolume_controller.go:832-849 | so it does when drivers stand only in backend sections |
| `ServiceConfigLaws.StrayDriverMisleads` | internal/controller/cindervolume_controller.go:844-849 | two families of texts, over all section names and drivers, for which the verdict is wrong, one each way |
| `VolumeSet.Namespace.DeployVolumes` | internal/controller/cinder_controller.go:1119-1155 | the volumes up to the first failure, which has one of two causes, are created or updated, the others untouched |
| `VolumeSet.Namespace.VolumeCleanupDeployments` | internal/controller/cinder_controller.go:1736-1767 | exactly the volumes of this Cinder with a backend outside the spec are marked, up to the first failure |
| `VolumeSet.Namespace.ReconcileVolumes` | internal/controller/cinder_controller.go:1119-1167 | a pass that succeeds leaves the reconciled set; with an unreadable list, the deployed one; either way every volume of the spec has its new spec and no other controller |
| `VolumeSet.OwnerAfter` | internal/cinder/funcs.go:15-23 | after the update this Cinder is the owner found, if and only if no other Cinder came first |
| `VolumeSet.VolumeSetExact` | internal/controller/cinder_controller.go:1122-1167 | the live volumes of this Cinder are those of the spec, if and only if the volumes fitted before; others are unchanged |
| `VolumeSet.VolumesCarrySpec` | internal/controller/cinder_controller.go:1707-1730 | every volume of the spec has the spec of its key and keeps its other owners; a created one is labelled with its key |
| `VolumeSet.OthersKept` | internal/controller/cinder_controller.go:1722-1726 | taking control keeps all other owner references in order |
| `VolumeSet.NamesAreKeys` | internal/controller/cinder_controller.go:1707-1713 | the names of the spec's volumes are in bijection with the keys |
| `VolumeSet.PassIsFixpoint` | internal/controller/cinder_controller.go:1122-1167 | a second pass changes nothing |
| `InputHash.Instance.VerifyServiceSecret` | internal/controller/cinder_common.go:107-144 | sets the variable, or InputReady and an outcome: another pass when the secret is missing, an error when reading fails |
| `InputHash.Instance.VerifyConfigSecrets` | internal/controller/cinder_common.go:148-189 | the prefixed variables of the names before the first unreadable one, empty names skipped, and the outcome that one decides |
| `InputHash.Instance.CreateHashOfInputHashes` | internal/controller/cinderapi_controller.go:1132-1151 | reports a change if and only if the recorded hash changes |
| `InputHash.Instance.CollectExtra` | internal/controller/cinderapi_controller.go:756-843 | certificates and generated files: the first that is missing or fails decides the outcome and TLSInputReady |
| `InputHash.Instance.CollectInputs` | internal/controller/cinderapi_controller.go:691-932 | records the hash of all inputs if and only if all could be read; otherwise keeps the record |
| `InputHash.ChangeDetected` | internal/controller/cinder_common.go:158-188 | with separate variables the hash differs if and only if some secret or other input differs |
| `InputHash.ExtraDetected` | internal/controller/cinderapi_controller.go:756-843 | what certificates and files set differs exactly when the bundle's hash, a certificate or a file differs |
| `InputHash.EveryChangeDetected` | internal/controller/cinderapi_controller.go:691-932 | the recorded hash differs exactly when a secret, the bundle, a certificate or a generated file differs |
| `InputHash.MountedSecretsAreHashed` | internal/controller/cinderapi_controller.go:720-729 | every secret that the pods mount from their Cinder, both transport secrets and all custom ones are hashed |
| `InputHash.DetectionExact` | internal/controller/cinder_common.go:142-185 | whatever else goes into the hash: every change of a secret is seen, if and only if no variable is set twice |
| `Routes.Route.SetDefaultRouteAnnotations` | api/v1beta1/cinder_webhook.go:427-450 | the annotations after a call |
| `Routes.OneOwner` | api/v1beta1/cinder_webhook.go:427-450 | after each call of every history one owner, idempotent, other annotations untouched |
| `Routes.HumanValueSurvives` | api/v1beta1/cinder_webhook.go:436-445 | a human value survives every history in which the human leaves it alone |
| `Routes.HandedBackExactly` | api/v1beta1/cinder_webhook.go:436-449 | an event hands the timeout back if and only if it is one of three |
| `Routes.HumanUntilHandedBack` | api/v1beta1/cinder_webhook.go:427-450 | over every history the timeout stays with the human exactly until it is handed back |
| `Routes.CallsCollapse` | api/v1beta1/cinder_webhook.go:427-450 | any number of calls amounts to the last |
| `Routes.SecondsInjective` | api/v1beta1/cinder_webhook.go:447-447 | different timeouts are written differently |
| `Routes.SecondsReadBack` | api/v1beta1/cinder_webhook.go:447-447 | a timeout reads back as its decimal digits and the unit of seconds |
| `Mounts.GetVolumes` | internal/cinder/volumes.go:11-159 | the loops append the volumes of all propagated entries to the fixed ones, in order |
| `Mounts.GetVolumeMounts` | internal/cinder/volumes.go:175-248 | the same for the mounts |
| `Mounts.BaseMounted` | internal/cinder/volumes.go:175-240 | every fixed volume is mounted, host directories at their own path and secrets read-only |
| `Mounts.HostDirectories` | internal/cinder/volumes.go:11-134 | a pod gets the machine id and, exactly if it serves storage, the directories for storage |
| `Mounts.StorageWritable` | internal/cinder/volumes.go:196-240 | of these all but two can be written |
| `Mounts.SecretModes` | internal/cinder/volumes.go:12-43 | scripts can be executed, configs can only be read |
| `Mounts.SelectedExactly` | internal/cinder/volumes.go:147-159 | an entry is propagated exactly when some list has it and the filter lets it through |
| `Mounts.MountClosure` | internal/cinder/volumes.go:175-248 | for storage and other services and every filter: all mounts name volumes, if and only if those of the propagated entries do |
| `Mounts.OwnEntriesClose` | internal/cinder/volumes.go:147-159 | so they do when every entry brings the volumes it mounts |
| `Mounts.VolumeServiceClosure` | internal/cindervolume/volumes.go:12-54 | the same if-and-only-if for the volume service, with and without LVM, propagated to its own name |
| `Mounts.ReachesBackend` | internal/cindervolume/volumes.go:25-28 | an entry reaches a backend exactly when it is for all of Cinder, all volume services or this backend |
| `Mounts.ToolsMounted` | internal/cindervolume/volumes.go:31-44 | all storage tools of the host can be run |
| `Mounts.LVMAddsItsTool` | internal/cindervolume/volumes.go:45-48 | the use of LVM adds the LVM tool and nothing else |
| `Mounts.OwnConfigMounted` | internal/cindervolume/volumes.go:12-38 | the service mounts its own config from its own secret |
| `Names.NamesInjective` | internal/controller/cinder_controller.go:1017-1071 | API, scheduler, backup, backup-k and volume-k names of one Cinder are distinct |
| `Names.NamesOfTwoCindersCollide` | internal/controller/cinder_controller.go:1071-1071 | names of two Cinders can coincide |
| `Names.RevisionLabelFits` | api/v1beta1/cinder_webhook.go:453-463 | the pods' revision label is a DNS label for exactly the keys accepted |

## Left out

- Rollout safety of the ApplicationCredential: its name is in no sub-CR spec and not in the expected hash, so the gate does not see it; only its release and pruning are modelled.
- The pass that adds the finalizer to the Cinder CR itself and returns (internal/controller/cinder_controller.go:227): runs start after it.
- Services with zero replicas in the gate: the outcome depends on a library that is not part of this model.
- A pod that remounts a newer shared config under an unchanged template: pods are taken to use the config of their template.
- A job definition that comes back after another one has run: the job may be created again, while the model counts it as ended.
- Deleted sub-CRs and leftover backups: the invariants on finalizers speak of services in the spec.
- Conditions other than DeploymentReady, InputReady and TLSInputReady, ready counts in the parent's status, and their mirroring.
- A sub pass that stops after it has read ReadyReplicas also persists that count; the model keeps the old one there, which no gate can see because DeploymentReady is then not True.
- Topology finalizers, keystone, MariaDB, memcached and network attachments: a pass may stop at any of these; nothing else of them is modelled.
- The own volumes and mounts of the API, scheduler and backup services: literals of the same form as those of the volume service.
- Templates, StatefulSet, job and cron job definitions, and probes: data or easy members.
- Webhook defaulting and validation apart from the route annotations and the length of volume keys.
- Kubernetes client calls, caches, watches and requeue timing: only the atomic reads and writes are kept.
- Convergence.FairRoundsConverge: speaks of whole passes and rollouts from states in which nothing is under way; `Fairness.FairStepsConverge` is the statement for atomic steps from every state.
- VolumeSet.Namespace.ReconcileVolumes: deletion is modelled as the deletion mark; when the object finally disappears is not.
