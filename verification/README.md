# s3-operator: a verified model of its reconciliation protocol

The operator watches five kinds of custom resource (S3Instance, Bucket, Path, Policy, S3User) and drives a MinIO
backend and the Kubernetes object store towards their specs, one fallible call at a time. A reconcile can fail or
die after any call and is started again from what it finds. This project models all five controllers and proves
what survives that: invariants at every crash point, recovery, quiescence, convergence, who may delete what, and the
self-contained algorithms the controllers rest on.

## How it is built

* `Model`, `Effects`: one `World` value holds the resources, the Secrets and the backend's users, buckets and
  policies. An `Action` is a call that changes it, `Permitted` says when the server accepts it, `Apply` what it does.
* `Api`: class `Cluster`, the two servers as a controller sees them. Every call may fail without effect, fail after
  its effect (the answer is lost), or be refused because of the world's state. The ghost log records what took effect.
* `*Plan`: for each controller, the calls of a reconcile in which no call fails, and its outcome.
* `*Controller`: the controllers themselves, call by call, as classes over a `Cluster`. Each `Reconcile` is proved to
  make, under any failures, an interruption of its plan (a prefix, then at most one report of a failure), and exactly
  the plan when no call fails. A Path's deletion goes on after a failed call, so what it may do is stated by the
  outcome of each path instead (`PathController.MayDo`).
* `UserSafety`, `UserRuns`, `UserHealing`, `UserRecovery`, `UserPass`, `UserTruth`, `UserQueue`, `UserQuiescence`,
  `UserDeletion`, `UserKeys`, `Protocol`, `*Theorems`, `SystemRuns`, `Readiness`: the results, over all interruptions
  of all plans and over runs of any length.
* `Operator`: every reconcile of the five classes is a step of those runs, so the results hold of the classes.
* `PasswordGenerator`, `Namespaces`, `S3InstanceHelper`, `PolicyNames`, `PolicyContent`: the algorithms.

## What is assumed

* The store is linearizable and read-your-writes, and one resource is never reconciled twice at the same time. Update
  conflicts are failed calls.
* One backend serves every S3Instance. Reading an instance's credentials and certificates and building its client are
  calls that may fail.
* `DeleteUser` removes the user with its policies and is idempotent, as is `DeletePolicy`; deleting an absent bucket, or
  one with objects, is refused. `CreateUser` on an absent user gives it no policies; on an existing one it replaces the
  key. Attaching is set union, detaching set difference. The check of credentials is exact when it answers.
* Object keys are equal up to leading slashes. Policy names are not empty and hold no comma and no outer whitespace.
* The UIDs recorded on one Secret are different, and names hold no slash.
* The random source of a reconcile is an argument: a list of draws of any length, and reading past its end is a
  failure; a draw below a bound is taken modulo the bound. A call of the generator that never ends makes more draws
  than any such list has.
* A quantity is an optional 64-bit integer (`AsInt64`). Which strings are valid JSON is a parameter. A backend
  that refuses a document is a failed call.

## What the proofs found

* The S3User invariant "at most one Secret is owned, and if one is, the S3 user exists" is kept at every crash point
  exactly when the reconcile does not start in a *conflict*: a Secret owned by the user, next to an unowned one under
  the configured or the default name that holds no valid credentials. Keeping unowned Secrets off the default name
  alone is not enough (`UserRuns.ConfiguredNameConflict`).
* Reconciled always means that the policies are the spec's, but that the Secret holds the user's credentials exactly
  under a condition on the world before (`UserTruth.WillAgree`). It fails where a Secret holds the valid credentials of
  another user, which the code takes for the user's own (`UserTruth.OtherUsersCredentials`); in read mode where the
  Secret has no key field (`UserTruth.ReadModeExactly`); and with override and read mode both on, where the user gets
  the key found in the Secret while the Secret is overwritten with the generated one (`UserTruth.BothFlagsDisagree`).
* The work queue of an S3User empties into a world whose next reconcile makes no call exactly under a condition on the
  unowned Secrets in the way and the two flags (`UserQuiescence.Settles`). Otherwise some run does not
  end, or ends in a world whose next reconcile makes calls again; with both flags off, worlds with a Secret in
  the way (`UserQuiescence.UnsettledExists`) and worlds whose S3 user was deleted under its Secret
  (`UserQuiescence.StrandedExists`) are among these.
* A Bucket reports Reconciled on creation with its default quota although an override is configured; only the next
  reconcile sets the override (`BucketTheorems.OnePassExactly`).
* A Bucket's deletion cut between deleting the bucket and dropping the finalizer fails when it is done again; it is
  safe to retry exactly when there is no bucket it would delete (`BucketTheorems.RetrySafeExactly`).
* A Policy whose document has a character that JSON marshalling escapes is written anew by every reconcile
  (`PolicyTheorems.FixedPointExactly`).
* A Path whose existence check fails during deletion is skipped, and the finalizer goes although its marker stays;
  every marker is gone exactly when each had a listing whose check was answered (`PathTheorems.CleanedExactly`).
* An instance that exists but does not carry the operator's finalizer can vanish under the resources that refer to it,
  and only such an instance can (`SystemRuns.ReferenceIsSafeExactly`). One without any condition yet makes the client
  lookup index out of range: the reconcile then ends without an answer in the condition, exactly in this case
  (`Readiness.UserAnswersExactly` and its like for the other kinds, `Readiness.UnansweredExists`), and never again once
  the instance has a condition (`Readiness.ReadyForEver`).
* The password generator without repeats can return exactly when it is asked for no more characters than its alphabet
  has (`PasswordGenerator.EndsExactly`); the operator does not call it so.
* Where comments and code differ the code is followed: the log says an S3User is recreated through another reconcile,
  the code does it in the same one (internal/controller/user/reconcile.go:531-556); a comment says a conflict over an
  existing Secret is not requeued, but an error is returned, which is (internal/controller/user/reconcile.go:776-801);
  the password generator ignores the three flags it is called with
  (internal/helpers/password_generator.go:47-53).
* Several branches report a failure reason with status True, since the error they pass on is nil
  (internal/controller/path/reconcile.go:212-223, internal/controller/bucket/reconcile.go:278-294;
  `Readiness.PathWithoutBucket`, `Readiness.BucketWithoutQuantity`). "Reconciled" below always means the reason.

## Model

| member | source | states |
|---|---|---|
| UserSafety.CrashSafeExactly | internal/controller/user/reconcile.go:289-375 | at every crash point of a live S3User at most one Secret is owned and then the S3 user exists: exactly when the reconcile does not start in a conflict |
| UserRuns.SafeRun | internal/controller/user/reconcile.go:673-731 | the invariant holds in every world of every run of the user's own interrupted reconciles, all other resources' reconciles, and the environment |
| UserRuns.ConfiguredNameConflict | internal/controller/user/utils.go:96-118 | a world with no unowned Secret under the default name whose reconcile breaks the invariant |
| UserRecovery.HealsAfterAnyRun | internal/controller/user/reconcile.go:170-573 | after any run of crashed and failed reconciles, of all other resources' reconciles aiming at other Secrets, and of outside changes of Secrets, keys, policies, spec and instance, with or without a client in between, one fault-free reconcile with a client heals the user |
| UserHealing.SelfHealing | internal/controller/user/reconcile.go:223-573 | from any safe world without unowned Secrets in the way one fault-free reconcile leaves the user present, its policies those of the spec, and its only Secret, under the name of the spec or else the resource's own, holding its keys |
| UserHealing.HealingIsFinal | internal/controller/user/reconcile.go:223-573 | the reconcile after a healing one makes no call, in whatever order it lists Secrets |
| UserQuiescence.EmptiesExactly | internal/controller/user/controller.go:66-90 | without faults or period the queue of a live user with a client empties, into a world whose next reconcile makes no call, exactly under a condition on owned and unlinked Secrets and both flags, and then within three reconciles |
| UserQuiescence.RunEmpties | internal/controller/user/controller.go:66-90 | every queue run is no longer than that bound, and where it ends the next reconcile makes no call |
| UserQuiescence.StirredDrains | internal/controller/user/controller.go:66-90 | an S3User made, its generation changed, or a Secret it controls changed or deleted queues it, and from a settling world the queue drains within three reconciles into a quiet world that meets the new spec |
| UserQuiescence.UnsettledExists | internal/controller/user/reconcile.go:896-918 | with both flags off, a safe world with an unowned Secret in the way whose queue never empties quietly |
| UserTruth.FinishedIsTruthful | internal/controller/user/reconcile.go:473-572 | a reconcile that ends without error leaves the spec's policies, and a Secret with the user's credentials exactly when a condition held before: the pair kept named this user, or the Secret taken over allowed it under the flags |
| UserTruth.ReconciledIsTruthful | internal/controller/user/reconcile.go:746-753 | the same, under any failures elsewhere, in the world left by writing the reason Reconciled |
| UserTruth.OtherUsersCredentials | internal/controller/user/reconcile.go:473-477 | a world in which the valid pair of another user is taken for the user's own: Reconciled is written and no Secret holds the user's key |
| UserTruth.ReadModeExactly | internal/controller/user/reconcile.go:801-820 | in read mode alone a takeover leaves the key field agreeing with the user exactly when it was there |
| UserTruth.BothFlagsDisagree | internal/controller/user/reconcile.go:801-894 | with both flags on, success is reported and Secret and user agree exactly when the Secret held no key or the generated one |
| UserTruth.PolicyUpdateConverges | internal/controller/user/reconcile.go:397-471 | what is detached and attached is disjoint, policies present and wanted stay at every crash point, the distance to the spec never grows, and it ends at the spec |
| UserKeys.KeysOfCalls | internal/controller/user/reconcile.go:603-661 | wherever a reconcile is interrupted, a user it made has the generated key of twenty digits and letters or in read mode the one read, and a Secret it wrote goes under the name of the spec with exactly the seven fields and their values |
| UserDeletion.DeletionRetry | internal/controller/user/finalizer.go:60-151 | a deletion stopped after any call and done again ends as the uninterrupted one |
| UserRuns.OwnedSecretSurvives | internal/controller/user/finalizer.go:81-121 | a Secret owned by an S3User is unchanged after every run of the others |
| SystemRuns.OperatorKeepsProtocol | internal/controller/user/reconcile.go:44-168 | whatever a reconcile of any kind did before it was interrupted, each call was one its resource is entitled to: on its own backend object, with the finalizer stored, deleting only Secrets with its UID, overwriting only in override mode, dropping the finalizer only once cleaned up |
| SystemRuns.FinalizerBeforeMutation | internal/controller/bucket/reconcile.go:103-154 | no call reaches the backend before the finalizer of the resource it serves is stored |
| SystemRuns.ServedBeforeCalls | internal/helpers/s3instance.go:43-76 | wherever a reconcile of any kind is interrupted, each call that reached the backend or a Secret was made while the instance referred to existed, admitted the namespace and had Reconciled as its first reason |
| SystemRuns.NoLeak | internal/controller/policy/finalizer.go:53-106 | in every world of every run of all controllers, with deletion on and names unedited and unique, a user, bucket or policy is there only while its resource is, finalizer included |
| SystemRuns.NoDanglingInstance | internal/controller/s3instance/finalizer.go:39-102 | in every world of every run every reference resolves, if the environment creates only resources whose reference leads to an instance with the finalizer |
| SystemRuns.ReferenceIsSafeExactly | internal/controller/s3instance/finalizer.go:39-77 | a reference to an existing instance never dangles, in any run of requests, foreign controllers and the operator, exactly when the instance carries the operator's finalizer |
| Readiness.UserAnswersExactly | internal/helpers/s3instance.go:58-76 | a fault-free reconcile of a live S3User leaves an answer for its generation exactly when there was one or its instance does not exist, does not admit it or has a condition, and then with status False exactly when it ends in an error |
| Readiness.ReadyForEver | internal/controller/s3instance/reconcile.go:64-103 | once an instance has a condition it has one in every world of every run, and no resource that refers to it goes unanswered |
| BucketTheorems.TwoPassesConverge | internal/controller/bucket/reconcile.go:273-397 | from any world two passes make the backend hold the override if not zero, else the default, as the number itself or 2^64 more if negative, and every marker; they add only missing markers and touch nothing else |
| BucketTheorems.OnePassExactly | internal/controller/bucket/reconcile.go:464-531 | one pass converges exactly when the bucket was there, or the override is zero or the default |
| BucketTheorems.RetrySafeExactly | internal/controller/bucket/finalizer.go:30-112 | deletion is safe to retry exactly when it may not delete the bucket, or the bucket is absent or holds objects |
| PathTheorems.DeletionRetry | internal/controller/path/finalizer.go:31-141 | a deletion stopped under any failures with the finalizer still stored, done again, ends as one without failures |
| PathTheorems.CleanedExactly | internal/controller/path/finalizer.go:109-138 | the finalizer goes with every marker gone exactly when each marker had a listing whose check was answered |
| PathTheorems.FinalizerExactly | internal/controller/path/finalizer.go:109-138 | a deletion that drops the finalizer leaves exactly the objects that were there and are no path's marker, or of paths whose every check failed |
| PolicyContent.CompactExactly | internal/controller/policy/reconcile.go:397-405 | compact forms are equal exactly when the texts differ by insignificant whitespace (section 2 of RFC 8259) |
| PolicyTheorems.FixedPointExactly | internal/controller/policy/reconcile.go:271-299 | with the document stored up to whitespace, a reconcile writes none exactly when it is free of escaped characters |
| PolicyTheorems.NeverWritesAgain | internal/controller/policy/reconcile.go:223-333 | after a pass that stored the document, passes of any number never write again, though the backend reformats it between them |
| InstancePlan.DeletionExactly | internal/controller/s3instance/finalizer.go:32-80 | a fault-free deletion drops the finalizer exactly when no resource would look its client up under the instance |
| S3InstanceHelper.CountIsExact | internal/controller/s3instance/finalizer.go:104-138 | the count is that of the resources whose client lookup goes to the instance |
| Namespaces.AllowedExactly | internal/helpers/s3instance.go:213-234 | a list admits a star-free name exactly when one of its simple patterns globs |
| PasswordGenerator.TapesPerOutput | internal/helpers/password_generator.go:93-113 | each output of length n comes from exactly n! pairs of tapes |
| PasswordGenerator.EndsExactly | internal/helpers/password_generator.go:95-113 | without repeats some draws let it end exactly when the alphabet has as many characters as asked for |
| Operator.ReconcileUser | cmd/main.go:359-372 | every reconcile of an S3User, under any failures, is a step of the system's runs and of the runs it recovers from, and each call it logged that makes a user or writes a Secret has the key its random source leads to, or one read in read mode |
| Operator.ReconcileBucket | cmd/main.go:326-336 | every reconcile of a Bucket is a step of the system's runs |
| Operator.ReconcilePath | cmd/main.go:337-347 | every reconcile of a Path is a step of the system's runs |
| Operator.ReconcilePolicy | cmd/main.go:348-358 | every reconcile of a Policy is a step of the system's runs |
| Operator.ReconcileInstance | cmd/main.go:315-325 | every reconcile of an S3Instance is a step of the system's runs |
| Protocol.ForeignSecretUntouched | internal/controller/user/reconcile.go:772-801 | no interrupted reconcile deletes or overwrites a Secret another S3User owns and this one does not |
| UserProtocol.UserKeepsProtocol | internal/controller/user/reconcile.go:170-221 | the S3User controller keeps the protocol wherever it is interrupted |
| UserHealing.HealthyIsLeftAlone | internal/helpers/controller.go:39-90 | a reconcile of a healthy user at rest makes no call at all |
| UserRecovery.InterruptedIsHealable | internal/controller/user/reconcile.go:575-753 | wherever a reconcile is interrupted, it leaves the user safe and healable |
| UserQuiescence.StrandedExists | internal/controller/user/reconcile.go:896-918 | with both flags off, a world whose S3 user was deleted under its own Secret, whose queue never empties quietly |
| UserRecovery.InterruptedIsRecoverable | internal/controller/user/reconcile.go:170-221 | wherever a reconcile is interrupted, and with or without a client, it leaves the user safe and recoverable |
| UserQueue.QueueEmpties | internal/controller/user/controller.go:66-90 | with no Secret unlinked the queue of a safe user empties after at most two reconciles, in a healthy world whose next reconcile makes no call |
| UserQueue.SecondIsLast | internal/controller/user/controller.go:66-90 | with no Secret unlinked the reconcile after a healing one changes nothing and asks for no other |
| UserDeletion.DeletionEnds | internal/controller/user/finalizer.go:60-151 | an uninterrupted deletion removes the user if enabled, every owned Secret and the finalizer, and nothing else |
| UserController.S3UserReconciler.Reconcile | internal/controller/user/reconcile.go:44-168 | the calls made are an interruption of the plan with the key of the random source under any failures, the plan and its outcome when none fails |
| UserController.S3UserReconciler.HandleReconciliation | internal/controller/user/reconcile.go:170-221 | the same, past the opening |
| UserController.S3UserReconciler.HandleUpdate | internal/controller/user/reconcile.go:223-299 | the same for an existing user: which Secret is compared with, and whether it is owned |
| UserController.S3UserReconciler.HandleOwned | internal/controller/user/reconcile.go:324-379 | the same with owned Secrets only: stale ones go, the target is checked or the user made anew |
| UserController.S3UserReconciler.DeleteStale | internal/controller/user/reconcile.go:325-343 | deletes the owned Secrets other than the target, in order, and says whether the target is among them |
| UserController.S3UserReconciler.UpdatePolicies | internal/controller/user/reconcile.go:397-471 | detaches what the spec does not name, then attaches what is missing |
| UserController.S3UserReconciler.CheckUser | internal/controller/user/reconcile.go:381-572 | policies first, then the credentials decide between success and a replacement |
| UserController.S3UserReconciler.Replace | internal/controller/user/reconcile.go:497-556 | an owned Secret goes before the user does, and both are made anew |
| UserController.S3UserReconciler.Recreate | internal/controller/user/reconcile.go:289-320 | the user is deleted and created in one reconcile |
| UserController.S3UserReconciler.HandleCreate | internal/controller/user/reconcile.go:575-661 | creation with the key the random source leads to, and with a failing source among the failures |
| UserController.S3UserReconciler.CreateWith | internal/controller/user/reconcile.go:663-918 | creation by the state of the target Secret: absent, owned elsewhere, to be read or overwritten, or kept |
| UserController.S3UserReconciler.MakeFresh | internal/controller/user/reconcile.go:673-744 | user, then Secret, then policies |
| UserController.S3UserReconciler.TakeOver | internal/controller/user/reconcile.go:801-884 | the user with the key found in read mode, then the Secret overwritten in override mode, then policies |
| UserController.S3UserReconciler.OwnerConflict | internal/controller/user/reconcile.go:775-801 | finds an S3User owner other than this one exactly when there is one |
| UserController.S3UserReconciler.SelectSecrets | internal/controller/user/utils.go:95-120 | selects exactly the listed Secrets that carry the UID, each once, and the unowned one by name |
| UserController.S3UserReconciler.GetUserLinkedSecrets | internal/controller/user/utils.go:65-121 | the owned list enumerates the Secrets some owner of which has the UID, and the unowned result is the configured-name Secret, else the default-name one, else none, whatever the list order |
| UserController.S3UserReconciler.GetUserPolicies | internal/s3/client/impl/minioS3Client.go:450-464 | lists the user's policies, each once, through the comma-joined form |
| UserController.S3UserReconciler.FinalizeS3User | internal/controller/user/finalizer.go:30-51 | deletes the S3 user exactly when the instance enables it |
| UserController.S3UserReconciler.HandleDeletion | internal/controller/user/finalizer.go:53-153 | user, owned Secrets, finalizer, stopped by the first failure |
| UserController.S3UserReconciler.RemoveOwnedAndFinalizer | internal/controller/user/finalizer.go:81-151 | every owned Secret goes before the finalizer does |
| ControllerHelper.SetReconciledCondition | internal/helpers/controller.go:39-89 | writes the status exactly when the condition changes, and passes the error on |
| ControllerHelper.UpsertIsReadBack | internal/helpers/controller.go:56-79 | a condition is read back, leaves other types alone, and written again changes nothing |
| ControllerHelper.Start | internal/controller/user/reconcile.go:64-152 | a first status, then the finalizer, refused when the resource is being deleted without it |
| BucketTheorems.PassEffect | internal/controller/bucket/reconcile.go:351-406 | one pass changes the one bucket and the resource's own status |
| BucketTheorems.ReconciledIsTruthful | internal/controller/bucket/reconcile.go:399-406 | when Reconciled is written, under any failures, every marker is there and the backend holds the default on creation, the override or else the default on update |
| BucketTheorems.BucketKeepsProtocol | internal/controller/bucket/reconcile.go:39-155 | the Bucket controller keeps the protocol wherever it is interrupted |
| BucketTheorems.DeletionExactly | internal/controller/bucket/finalizer.go:30-112 | a fault-free deletion drops the finalizer exactly when deletion is disabled or the bucket is there and empty, and deletes the bucket exactly in the latter case |
| BucketTheorems.InterruptedDeletionSticks | internal/controller/bucket/finalizer.go:37-86 | whenever there is a bucket to delete, a deletion cut between its two calls fails when done again |
| BucketController.BucketReconciler.Reconcile | internal/controller/bucket/reconcile.go:39-155 | the calls made are an interruption of the plan under any failures, the plan when none fails |
| BucketController.BucketReconciler.HandleUpdate | internal/controller/bucket/reconcile.go:215-407 | override if not zero, else default; quota before missing paths |
| BucketController.BucketReconciler.HandleCreation | internal/controller/bucket/reconcile.go:409-541 | bucket, default quota, every path |
| Markers.MissingCallsEffect | internal/controller/bucket/reconcile.go:351-397 | creating what is missing adds exactly the markers of the paths |
| Markers.CreateMissingPaths | internal/controller/path/reconcile.go:234-280 | the loop creates the missing markers in order and stops at the first failure |
| Markers.CreatePaths | internal/controller/bucket/reconcile.go:507-531 | the loop of a creation creates every path and stops at the first failure |
| Effects.MarkerKeysAgree | internal/s3/client/impl/minioS3Client.go:223-292 | the key written and deleted and the key looked up name the same object |
| PathTheorems.ReconciledIsTruthful | internal/controller/path/reconcile.go:234-289 | when Reconciled is written, under any failures, the bucket is there with every marker |
| PathTheorems.PassEffect | internal/controller/path/reconcile.go:150-290 | a fault-free pass adds the markers, changes nothing else in the backend and comes back after the period |
| PathTheorems.FinalizerMeansCleaned | internal/controller/path/finalizer.go:109-138 | when the finalizer goes, no removal failed and every path whose check was answered has lost its marker |
| PathTheorems.DeletionEnds | internal/controller/path/finalizer.go:31-141 | a fault-free deletion removes exactly the paths' markers, if enabled, and the finalizer |
| PathTheorems.FailedCheckLeavesMarker | internal/controller/path/finalizer.go:112-122 | with one failed check the finalizer goes and the marker stays |
| PathTheorems.PathKeepsProtocol | internal/controller/path/reconcile.go:39-148 | the Path controller keeps the protocol under any failures |
| PathController.PathReconciler.Reconcile | internal/controller/path/reconcile.go:39-148 | under any failures a live reconcile interrupts its plan and a deletion follows the outcomes of its paths; the plan when no call fails |
| PathController.PathReconciler.RemovePaths | internal/controller/path/finalizer.go:109-131 | removes every marker found, and the failed list is exactly the subsequence of paths found whose removal failed |
| PathController.PathReconciler.HandleDeletion | internal/controller/path/finalizer.go:31-91 | the finalizer goes only if no path failed |
| PolicyContent.MatchingExactly | internal/controller/policy/reconcile.go:393-415 | for a stored document free of escaped characters the comparison is equality up to insignificant whitespace |
| PolicyContent.SameMatchesExactly | internal/controller/policy/reconcile.go:407-415 | a document equal up to whitespace to the stored one matches exactly when it is free of escaped characters |
| PolicyTheorems.PassStores | internal/controller/policy/reconcile.go:294-332 | after a pass the stored document is the spec's up to insignificant whitespace exactly when the pass wrote it or the one found was free of escaped characters |
| PolicyTheorems.ReconciledIsTruthful | internal/controller/policy/reconcile.go:360-390 | when Reconciled is written, under any failures, the stored document is or matches the spec's, and equals it up to whitespace exactly when it was written or found free of escaped characters |
| PolicyTheorems.PolicyKeepsProtocol | internal/controller/policy/reconcile.go:42-165 | the Policy controller keeps the protocol wherever it is interrupted |
| PolicyController.PolicyReconciler.Reconcile | internal/controller/policy/reconcile.go:42-165 | the calls made are an interruption of the plan under any failures, the plan when none fails |
| ObjectDeletion.HandleDeletion | internal/controller/policy/finalizer.go:53-106 | the object goes before the finalizer, and a refusal keeps the finalizer |
| InstancePlan.InstanceKeepsProtocol | internal/controller/s3instance/finalizer.go:39-77 | an instance's finalizer goes only in a world where nothing refers to it |
| InstanceController.S3InstanceReconciler.CheckS3InstanceReferences | internal/controller/s3instance/finalizer.go:82-102 | whatever order the kinds are taken in, the instance is clear exactly when nothing refers to it |
| InstanceController.S3InstanceReconciler.Reconcile | internal/controller/s3instance/reconcile.go:39-153 | the calls made are an interruption of the plan under any failures, the plan when none fails, and Reconciled is written only if the buckets were listed |
| S3InstanceHelper.GetS3ClientForRessource | internal/helpers/s3instance.go:35-76 | without failures the client is the one the world calls for, by the conditions of ClientExactly, and a failure never yields one |
| S3InstanceHelper.StringUndoesParse | internal/helpers/s3instance.go:205-243 | writing a parsed reference gives it back with the namespace filled in |
| S3InstanceHelper.ParseUndoesString | internal/helpers/s3instance.go:205-243 | parsing a written reference gives back its parts |
| S3InstanceHelper.StringEqualityIsPairEquality | internal/controller/s3instance/finalizer.go:104-138 | comparing written references compares the pairs |
| S3InstanceHelper.CountReferences | internal/controller/s3instance/finalizer.go:104-138 | the loop counts the listed resources whose written reference is the instance's |
| S3InstanceHelper.RefersToIsLookup | internal/helpers/s3instance.go:45-51 | a resource is counted exactly when its client lookup goes to the instance |
| Namespaces.IsAllowedNamespaces | internal/helpers/s3instance.go:213-234 | admits what some pattern matches, and the own namespace alone without a list |
| Namespaces.MatchIsGlob | internal/helpers/s3instance.go:216-228 | sound for recursive glob matching, over all patterns and names |
| Namespaces.MatchExactly | internal/helpers/s3instance.go:216-228 | on star-free names a pattern matches exactly when it has no star but one at each end and globs |
| PasswordGenerator.BuildUndoesUnbuild | internal/helpers/password_generator.go:174-185 | for fixed positions every output is reached |
| PasswordGenerator.UnbuildUndoesBuild | internal/helpers/password_generator.go:174-185 | for fixed positions different drawings give different outputs |
| PasswordGenerator.BuildKeepsCharacters | internal/helpers/password_generator.go:93-113 | the characters drawn are those of the output, with their counts |
| PasswordGenerator.AlphabetIsKept | internal/helpers/password_generator.go:71-91 | outputs over an alphabet come from drawings over it, and only those |
| PasswordGenerator.AlphabetIsDistinct | internal/helpers/password_generator.go:32-54 | the alphabet the operator draws from repeats no character |
| PasswordGenerator.EveryTapeIsDrawn | internal/helpers/password_generator.go:174-194 | every choice of characters and positions is what some random source delivers |
| PasswordGenerator.RandomInsert | internal/helpers/password_generator.go:174-185 | inserts at the drawn position, draws nothing for the empty string, and fails exactly when its draw does |
| PasswordGenerator.Generate | internal/helpers/password_generator.go:63-113 | delivers what the turns of the loop lead to, with or without repeats, and nothing exactly when the source failed |
| PolicyNames.ParseUndoesJoin | internal/s3/client/impl/minioS3Client.go:450-464 | splitting the joined list of policies gives the list back, the empty list included |
| PolicyNames.PolicyDifference | internal/controller/user/reconcile.go:397-411 | the lists to detach and to attach are the two differences, duplicates or not |
| UserQuiescence.OverrideHeals | internal/controller/user/reconcile.go:801-894 | in override mode a Secret in the way is overwritten, the user is then healthy, the overwriting asks for one more reconcile, and that one makes no call |
| UserPass.PassKeeps | internal/controller/user/reconcile.go:473-572 | the exact world after a pass that keeps the user: policies of the spec, stale Secrets gone, the condition reported |
| UserPass.PassMakesFresh | internal/controller/user/reconcile.go:673-753 | the exact world after a pass that makes the user and its Secret anew |
| UserPass.PassTakesOver | internal/controller/user/reconcile.go:801-894 | the exact world after a pass over a Secret in place, for each setting of the flags |
| UserPass.PassRefuses | internal/controller/user/reconcile.go:775-800 | the exact world after a pass that stops at a Secret in place: the user is gone and an error is reported |
| BucketTheorems.RetryReleases | internal/controller/bucket/finalizer.go:37-86 | a deletion interrupted under any failures and done again releases the resource exactly when an uninterrupted one does and it did not stop between its two calls |
| PathPlan.RemovedExactly | internal/controller/path/finalizer.go:109-131 | removals under any failures leave exactly the objects that were there and whose every listing was skipped or failed without effect |
| SystemRuns.GoneExactly | internal/controller/s3instance/reconcile.go:104-140 | a delete request and the release of all foreign finalizers remove exactly an instance without the operator's finalizer |
| UserRecovery.PassesByDisturbs | internal/controller/user/utils.go:96-118 | any other resource's reconcile that writes no Secret under the user's names, the user's instance included, leaves the user recoverable |
| PasswordGenerator.WithRepeats | internal/helpers/password_generator.go:93-113 | with repeats the password is what the characters drawn lead to at the positions drawn, and it fails exactly when the draws run out |
| PasswordGenerator.WithoutRepeats | internal/helpers/password_generator.go:95-113 | without repeats the password has its length, comes from the alphabet and repeats no character |
| PasswordGenerator.TooLongNeverEnds | internal/helpers/password_generator.go:101-104 | without repeats, more characters than the alphabet has are never delivered, whatever the draws |
| Readiness.BucketAnswersExactly | internal/helpers/s3instance.go:58-76 | the same of a live Bucket |
| Readiness.PathAnswersExactly | internal/helpers/s3instance.go:58-76 | the same of a live Path |
| Readiness.PolicyAnswersExactly | internal/helpers/s3instance.go:58-76 | the same of a live Policy |
| Readiness.UnansweredExists | internal/helpers/s3instance.go:71-73 | a world with a new user and a new instance whose reconcile errs and leaves no answer |
| UserKeys.DataExactly | internal/controller/user/reconcile.go:626-644 | a new Secret has the two named fields and the five fixed ones, with the values of spec, key and instance, and no others |
| UserQueue.UserEventsQueue | internal/controller/user/controller.go:67-88 | a new S3User is queued, a changed one exactly when its generation changed, a deleted one exactly when that is confirmed |
| UserQueue.SecretEventsQueue | internal/controller/user/controller.go:67-88 | a Secret queues its controlling owners when changed or confirmed deleted, never when made |
| UserQuiescence.RunMeets | internal/controller/user/reconcile.go:223-573 | where a queue run from a settling world ends, the S3 user has the spec's policies, a Secret under one of its names holds valid credentials, and with none unlinked the only owned one is the spec's |
| S3InstanceHelper.ClientExactly | internal/helpers/s3instance.go:43-76 | a client is obtained exactly when the instance exists, some pattern of its list matches the namespace or it has no list and the namespace is its own, and its first condition has reason Reconciled |
| Readiness.UserTurnedAway | internal/controller/user/reconcile.go:178-198 | an S3User whose instance does not serve it ends in an error, says Unreachable or in deletion DeletionFailure, and touches neither backend nor Secret nor finalizer |
| Readiness.BucketTurnedAway | internal/controller/bucket/reconcile.go:165-185 | the same of a Bucket |
| Readiness.PathTurnedAway | internal/controller/path/reconcile.go:158-179 | the same of a Path |
| Readiness.PolicyTurnedAway | internal/controller/policy/reconcile.go:175-195 | the same of a Policy |
| Readiness.PolicyIncomparable | internal/controller/policy/reconcile.go:271-292 | a Policy whose document or stored document is no JSON ends in an error and writes nothing |
| Readiness.PathWithoutBucket | internal/controller/path/reconcile.go:201-223 | a Path without its bucket ends without error, reason CreationFailure and status True |
| Readiness.BucketWithoutQuantity | internal/controller/bucket/reconcile.go:278-342 | an existing bucket whose wanted quantity is no integer is left alone without error, reason Unreachable and status True |
| Readiness.InstanceAnswers | internal/controller/s3instance/reconcile.go:155-198 | a live instance says Reconciled when no call fails, and changes nothing else |
| BucketTheorems.QuotaIsHeld | internal/s3/client/impl/minioS3Client.go:297-315 | what is set is held as the number itself, or 2^64 more if negative, and read back |
| Effects.MarkerExactly | internal/s3/client/impl/minioS3Client.go:223-292 | a path without leading slash has the marker of its name, and no two share one |
| PolicyTheorems.DeletionExactly | internal/controller/policy/finalizer.go:30-106 | a fault-free deletion drops the finalizer, and removes the policy exactly when the instance enables it |
| ControllerHelper.OpeningExactly | internal/controller/user/reconcile.go:65-152 | the opening stores an Unknown condition for the generation if there was none, and the finalizer, and nothing else |
| PolicyContent.WhitespaceExactly | internal/controller/policy/reconcile.go:397-405 | the four whitespace characters of section 2 of RFC 8259 |
| PolicyContent.LiteralIsKept | internal/controller/policy/reconcile.go:397-405 | a string literal survives compaction character by character |
| PolicyContent.QuoteFreeExactly | internal/controller/policy/reconcile.go:397-405 | a text without quotes loses its whitespace and nothing else |
| PolicyContent.EscapesExactly | internal/controller/policy/reconcile.go:407-412 | the five characters marshalling escapes, and what it makes of them |
| PasswordGenerator.AlphabetExactly | internal/helpers/password_generator.go:32-54 | the operator draws from the digits and letters, all of them and nothing else |
| PasswordGenerator.KeyIsPassword | internal/helpers/password_generator.go:47-113 | every key has twenty characters, each a digit or a letter |
| PasswordGenerator.EveryPasswordIsDrawn | internal/helpers/password_generator.go:47-113 | every such string is the key of some random source |
| PasswordGenerator.GeneratedIsKey | internal/helpers/password_generator.go:47-113 | the generator as the operator calls it delivers the key, and fails exactly when the source does before it |

## Left out

- UserRuns.SafeRun: the user's own reconciles do not start in a conflict, and nobody else deletes the S3 user or makes
  Secrets owned by it; outside that the invariant fails.
- UserTruth.ReconciledIsTruthful: asks that the two field names differ from each other and from the fixed ones, as the
  Secret could not hold both values otherwise.
- UserKeys.KeysOfCalls: says nothing of the fields of a Secret whose two field names are not usable.
- UserQuiescence.EmptiesExactly: asks that the client is available and the field names are distinct; without a client
  every reconcile ends in an error.
- UserQueue.QueueEmpties: asks that no Secret is unlinked; UserQuiescence.EmptiesExactly says what happens otherwise.
- PathTheorems.FinalizerMeansCleaned: says nothing of paths whose check failed; PathTheorems.FinalizerExactly does.
- PathTheorems.DeletionRetry: asks that the finalizer is still stored, since a path skipped before is not tried again.
- Readiness.UserAnswersExactly: a live resource; a deletion that finds its instance without a condition errs likewise
  and keeps its finalizer.
- InstancePlan.DeletionExactly: the list of finalizers is a set of the operator's and others, without their order.
- Concurrent reconciles of one resource, stale caches, and more than one backend.
- Messages, labels, annotations, transition times and log lines: no decision depends on them. A condition message is
  kept as the place it comes from and the error.
- Network, TLS, certificates, URL parsing, quantity parsing, and the client factory.
- `PolicyExist`, `ListBuckets` beyond its success or failure, and `AddServiceAccountForUser`: not used by a decision.
- The mocked client and the test mocks, metrics, webhooks, leader election and flags.
- Work queues and event filters of the other four kinds: theirs is the same filter without Secrets.
