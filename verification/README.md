# A model of the libvirt machine controller

The repository is a Kubernetes controller that turns a LibvirtMachine object into a virtual machine on
a remote libvirt host and takes it down again. This project models its hardest parts in Dafny and
proves what they promise, over every input, every interleaving and every schedule of failures.

`dafny verify dfyconfig.toml` checks the whole project.

## How the model is built

**The host and its failures** (`Host.dfy`). A host is its pools, volumes, files and domains. The client
interface is a datatype of calls, each with its true answer and its effect. A schedule of faults says of
each call whether it works, is refused (a terminal error), fails in a way worth retrying, or dies with the
controller, and how much of its effect took place: none, half (a pool made and not started, or stopped
and not undefined), a torn transfer, or all of it. "Not found" is only ever a true answer.

**One pass** (`Machine.dfy`, `Provisioning.dfy`, `Teardown.dfy`, `Reconciler.dfy`). reconcileNormal and
reconcileDelete are functions from a context and a remote host to a context, a remote host and a flow:
go on, a swallowed terminal error, an error to retry, a crash. `Reconciler.dfy` has the same passes in
the source's form, a class whose methods update the context call by call with loops over pools and
disks, and proves each method equal to its function. The theorems are about the functions.

**Whole lives** (`Life.dfy`, `Definitions.dfy`, `Leftovers.dfy`, `Outcomes.dfy`, `Refusals.dfy`). An
event is a reconcile with its inputs, its schedule of faults and whether its deferred patch gets through; a deletion request; a restart of the libvirt daemon;
the loss of a tmpfs mount; a domain that stops. A run folds any list of events over host and object.
`Keeps.dfy` has the induction principle that carries the proofs: a predicate on hosts that is kept by
each call a pass may make is kept by the pass, wherever it is cut short. Frame, finalizer safety,
definition, pool and sizing results are instances of it. `Preflight.dfy`, `PoolCalls.dfy`, `Ready.dfy`,
`Quiet.dfy`, `Convergence.dfy` and `Retry.dfy` build up to retry convergence; `PoolLoss.dfy` has what a
failing pass can cost.

**Protocols beside it.** Image staging under a lock (`Staging.dfy`), the content-addressed image cache
(`ImageCache.dfy`, with its flight keys in `SourceKeys.dfy`) and the shared cache of boot artifacts
(`BootCache.dfy`) are state machines over the interleaved steps of any number of callers. Node labels (`ManagedKeys.dfy`, `NodeMetadata.dfy`), the
webhook (`Admission.dfy`) and host capacity (`HostCapacity.dfy`) are state machines over requests and
reconciles.

**Text and documents.** Shell quoting against a reader of the POSIX Shell Command Language, sections 2.2
and 2.3 (`Shell.dfy`); file injection into ignition configs (`Ignition.dfy`); target names and ignition
delivery of a domain's disks (`Devices.dfy`).

## Where the code falls short of its documentation

Each of these is proved, with the exact condition under which the promise is kept where there is one.

- A full clone is made in the base image's pool and looked up in the pool the machine works in. With an
  ephemeral pool, or another base image pool, deletion leaves it behind: `Outcomes.LifeRestoresExactly`.
  The webhook rules out the second case and not the first.
- The finalizer is stored by the patch at the end of the first pass, after artifacts exist:
  `Leftovers.FinalizerGuardsExactly`, `Outcomes.UnstoredFinalizerLeaks`.
- A refused ephemeral pool is passed over, and the cloud-init ISO then goes to the storage pool, where
  deletion never looks for it; machines with ignition data leak nothing that way:
  `Leftovers.FinalizerGuards`, `Leftovers.StraysComeFromPasses`, `Leftovers.SomeNeverStray`,
  `Refusals.RefusedPoolLeaksIso`.
- Any failing start of an inactive ephemeral pool destroys it with the root disk, not only one whose tmpfs
  is gone: `PoolLoss.LostExactlyWhenDestroyed`, `PoolLoss.DestroyedOnlyAfterFailedStart`,
  `PoolLoss.FailedStartWipesPool`.
- "All operations are idempotent" does not cover a transfer cut in the middle: the volume, the kernel or
  the initramfs exists and no later pass repairs it: `Convergence.ReachesExactlyWhenGenuine`,
  `Convergence.InterruptedIsoUpload`, `Convergence.InterruptedKernelWrite`, `Convergence.TornKernelStays`.
- A terminal error is swallowed and the pass goes on, up to Ready without the refused disks. The failure
  it records tells, as long as it is stored; when the patch is lost, the next pass sets Ready with no
  failure recorded and the disks still missing: `Definitions.DefiningPassExactly`,
  `Definitions.LifeIsDefinedExactly`, `Refusals.LostRefusal`.
- Image staging can return nil without the volume, after such an error or after a check that found a
  volume somebody else was still filling, although an upload is documented as atomic:
  `Staging.FailedExactlyWhenRefused`, `Staging.MisledExactly`, `Staging.NilMeansWhole`,
  `Staging.CheckTrustsPartialVolume`.
- Withdrawing all node labels and annotations at once leaves them on the Node:
  `NodeMetadata.WithdrawnKeysGoExactlyWhen`. The webhook refuses every such change of the spec
  (`Admission.SpecIsImmutable`), so it takes a controller without it (ENABLE_WEBHOOKS=false, cmd/main.go:223).
- Reserved resources bind only the sizes the controller fills in; an explicit size is never compared with
  them: `HostCapacity.SizeLeavesReservationExactly`.
- One machine per host holds for requests that are committed one after the other; two creations approved
  at the same time share a host: `Admission.HostsAreUniqueExactly`, `Admission.RacingCreationsShareHost`.
- A cloud-init ISO is always sda, also beside a sata or scsi root disk, and letters are code points
  counted up from b: `Devices.TargetsAreDistinctExactly`.
- Unpinned sources can share a fetch with another source: an OCI reference that contains a bar, an S3
  endpoint or bucket that contains a slash: `SourceKeys.SharedExactly`.
- A pin that is not hex is looked up as a file name and can find an unfinished download:
  `ImageCache.ReturnedEntryIsTrueExactly`, `ImageCache.MalformedPinFindsTemp`.

## Model

| member | source | states |
|---|---|---|
| `Reconciler.Context.Client` | internal/libvirt/client.go:38-77 | one client call: the host, the schedule of faults and the log advance by exactly that call, and the answer is the scheduled fault's or the true one |
| `Reconciler.Context.RequiredPools` | internal/controller/libvirtmachine_controller.go:684-713 | the loops with their seen-set compute the first mention of every referenced pool, in order |
| `Reconciler.Context.PreflightPools` | internal/controller/libvirtmachine_controller.go:715-739 | the checking loop over an object in place equals the specification that the preflight theorems are about |
| `Reconciler.Context.ReconcileBaseImage` | internal/controller/libvirtmachine_controller.go:748-828 | image staging (one reconcile) equals its specification, for every fault at every call |
| `Reconciler.Context.EnsureEphemeralPool` | internal/controller/libvirtmachine_controller.go:925-962 | check, start, else destroy and recreate the tmpfs pool: equals its specification for every fault |
| `Reconciler.Context.ReconcileRootDisk` | internal/controller/libvirtmachine_controller.go:917-1006 | root disk by backing store or clone, in the pool it settles on, equals its specification |
| `Reconciler.Context.ReconcileBootstrapArtifacts` | internal/controller/libvirtmachine_controller.go:1010-1090 | ignition file or cloud-init ISO equals its specification |
| `Reconciler.Context.ReconcileAdditionalDisks` | internal/controller/libvirtmachine_controller.go:1094-1124 | the loop, with its early exits, equals the fold over the disks |
| `Reconciler.Context.EnsureRemoteArtifact` | internal/controller/libvirtmachine_controller.go:1322-1336 | a boot file is written only when absent |
| `Reconciler.Context.ReconcileBootArtifacts` | internal/controller/libvirtmachine_controller.go:1130-1166 | kernel and initramfs staging equals its specification |
| `Reconciler.Context.DefineMachine` | internal/controller/libvirtmachine_controller.go:1377-1437 | definition from looked-up paths equals its specification |
| `Reconciler.Context.ReconcileDomain` | internal/controller/libvirtmachine_controller.go:1372-1456 | define if absent, start if not running, equals its specification |
| `Reconciler.Context.ReconcileNormal` | internal/controller/libvirtmachine_controller.go:219-419 | a whole provisioning pass, imperative over the context, equals the function that every theorem below quantifies over |
| `Reconciler.Context.ReconcileDelete` | internal/controller/libvirtmachine_controller.go:1459-1592 | a whole deletion pass, with its ignored and returned errors, equals its function; the finalizer is released exactly when that function goes through |
| `LibvirtMachine.TouchableCarriesBaseName` | internal/scope/machine.go:86-129 | every volume name a machine generates starts with its base name and a dash |
| `PassCalls.BootFilesAreApart` | internal/controller/libvirtmachine_controller.go:1150-1156 | kernel, initramfs and ignition paths never coincide |
| `LibvirtMachine.BootFilesNamedByDigest` | internal/controller/libvirtmachine_controller.go:1150-1156 | under one directory two kernels share a path if and only if they share a digest, and so do two initramfs files |
| `PassCalls.EnsurePoolNeverSkips` | internal/controller/libvirtmachine_controller.go:925-962 | without terminal faults the ephemeral pool ends ready or the pass stops |
| `PassCalls.NormalKeeps` | internal/controller/libvirtmachine_controller.go:219-419 | induction principle for passes: any predicate on the remote host that the pass's allowed calls keep is kept by the whole pass, wherever it is cut short; in a strict pass the calls carry exactly the names, sizes and contents of the spec |
| `Teardown.DeleteKeeps` | internal/controller/libvirtmachine_controller.go:1459-1592 | the same principle for deletion passes, with the calls that only take away |
| `Teardown.DeleteAddsNothing` | internal/controller/libvirtmachine_controller.go:1459-1592 | a deletion pass never adds a volume, pool, domain or file, under any faults |
| `Teardown.DeleteComplete` | internal/controller/libvirtmachine_controller.go:1459-1592 | under every schedule of faults, a pass that releases the finalizer leaves no domain, no volume and no ephemeral pool of the machine |
| `Teardown.ReleasedExactly` | internal/controller/libvirtmachine_controller.go:1459-1592 | under every schedule of faults a deletion pass on a reachable host releases the finalizer if and only if each call it made was answered by success or "not found", that on the ignition file aside |
| `Teardown.ReleaseMeetsNoFault` | internal/controller/libvirtmachine_controller.go:1459-1592 | so a pass that releases it met no fault except at the ignition file |
| `Teardown.ReleaseMakesAllCalls` | internal/controller/libvirtmachine_controller.go:1459-1592 | under every schedule of faults a pass that releases the finalizer made exactly these calls, in this order: stop and undefine the domain, delete root disk, bootstrap data, each additional disk, and destroy the ephemeral pool |
| `Teardown.ReleaseRemovesIgnitionFile` | internal/controller/libvirtmachine_controller.go:1545-1555 | the ignition file, with the bootstrap data, is then gone unless its removal met a fault |
| `Life.FrameOverRun` | internal/controller/libvirtmachine_controller.go:748-1592 | over every run of passes, crashes, lost patches and host events, terminal faults included, everything that is not the machine's stays as it was |
| `Life.ForeignVolumesSurvive` | internal/controller/libvirtmachine_controller.go:748-828 | a volume without the machine's prefix outside its ephemeral pool is never changed or deleted; the only one ever added is the cluster's base image, which is never overwritten |
| `Life.LifeSettles` | internal/controller/libvirtmachine_controller.go:925-962 | no refusal of the ephemeral pool is passed over by a machine without one, whatever the faults, nor in a life without terminal faults |
| `Leftovers.FinalizerGuards` | internal/controller/libvirtmachine_controller.go:110-186 | finalizer safety, for every machine, every life and every schedule of faults, terminal ones included: once the object is gone the host is what it was (a staged base image aside) if and only if each deletion request found the finalizer stored or found the host as it was, and no volume of the machine is left where deletion does not look; while the object lives with a deletion pending it has its finalizer |
| `Leftovers.StraysComeFromPasses` | internal/controller/libvirtmachine_controller.go:917-1090 | where such volumes come from: over every life there is none at the end if and only if none was left by a pass that passed over a refused ephemeral pool, or by a pass of a machine that clones into another pool |
| `Leftovers.FinalizerGuardsExactly` | internal/controller/libvirtmachine_controller.go:110-186 | both together: restoration as a condition on the events of the life alone |
| `Leftovers.LifeRestoresHost` | internal/controller/libvirtmachine_controller.go:1459-1592 | a stored finalizer stays until the object is gone, and the host is then what it was if and only if no pass left such a volume |
| `Leftovers.StraysExactly` | internal/controller/libvirtmachine_controller.go:917-1090 | which volumes deletion does not look for: a full clone outside the pool the machine works in and the cloud-init ISO in the storage pool of a machine with an ephemeral one, unless the spec names them as disk or image |
| `Leftovers.SomeNeverStray` | internal/controller/libvirtmachine_controller.go:1459-1592 | machines that clone within their pool, and have no ISO or no ephemeral pool, never have one, on any host |
| `Leftovers.StrayStays` | internal/controller/libvirtmachine_controller.go:1459-1592 | over every run, under every schedule of faults, a volume outside the ephemeral pool that deletion does not look for is neither removed nor changed |
| `Refusals.RefusedPoolLeaksIso` | internal/controller/libvirtmachine_controller.go:333-368 | how a pass leaves one: after a refused ephemeral pool the cloud-init ISO lands in the storage pool, and whatever follows the host never is again what it was |
| `Outcomes.UnstoredFinalizerLeaks` | internal/controller/libvirtmachine_controller.go:230-232 | the object of a machine can vanish with all its artifacts in place when the patch of the first pass is lost |
| `Outcomes.LifeRestoresExactly` | internal/controller/libvirtmachine_controller.go:965-1003 | cleanup completeness, exactly: a provision-and-delete life restores the host if and only if the root disk is created in the pool where it is looked up |
| `Outcomes.PlainLifeRestores` | internal/controller/libvirtmachine_controller.go:1459-1592 | one half: provisioning and deletion without faults ends with the object gone and the host restored, without an ignition file |
| `Outcomes.PlainLifeLeaksClone` | internal/controller/libvirtmachine_controller.go:975-985 | other half: a full clone made in another pool than the machine works in survives the deletion |
| `Outcomes.FirstPassLeavesClone` | internal/controller/libvirtmachine_controller.go:975-985 | and its first pass ends without a domain |
| `Ready.ProvisionIsComplete` | internal/controller/libvirtmachine_controller.go:344-419 | under every schedule of faults: Ready with no failure recorded means root disk, bootstrap data and all disks exist and the domain runs |
| `Ready.NoStepSkipped` | internal/controller/libvirtmachine_controller.go:344-419 | a pass that sets Ready with no failure recorded went through each of its steps |
| `Ready.NoFailureGathers` | internal/controller/libvirtmachine_controller.go:346-419 | under every schedule of faults, a pass that records no failure passed over no refusal of its pool, a disk or a boot file |
| `Ready.RetryableGathers` | internal/controller/libvirtmachine_controller.go:346-419 | nor does a pass that meets no terminal fault, wherever it stops |
| `Definitions.PassDefines` | internal/controller/libvirtmachine_controller.go:1372-1456 | under every schedule of faults a pass leaves an existing definition alone, and one it makes is over exactly the pool, disks and boot files it got hold of |
| `Definitions.DefiningPassExactly` | internal/controller/libvirtmachine_controller.go:1377-1437 | a pass that defines the domain does so over the root disk and all disks if and only if no refusal of its pool or of a disk was passed over, and exactly as asked for if and only if none of a boot file was either; what was passed over is recorded as a failure |
| `Definitions.PassIsComplete` | internal/controller/libvirtmachine_controller.go:219-419 | Ready means provisioned, for one pass under every schedule of faults: on a host without the domain, Ready with no failure recorded means that every artifact is there and the domain runs with exactly the definition asked for |
| `Definitions.DefinitionStays` | internal/controller/libvirtmachine_controller.go:1372-1456 | over every run without a deletion request the definition never changes: no pass repairs a wrong one |
| `Definitions.LifeIsDefined` | internal/controller/libvirtmachine_controller.go:219-419 | over every life under every schedule of faults in which the failure of every short pass is stored, each state has the right definition or a failure stored |
| `Definitions.LifeIsDefinedExactly` | internal/controller/libvirtmachine_controller.go:219-419 | and only then: the two are equivalent |
| `Definitions.FailuresKept` | internal/controller/libvirtmachine_controller.go:1627-1652 | so it is when every failure is stored, and when no fault is terminal |
| `Definitions.ReadyMeansProvisioned` | internal/controller/libvirtmachine_controller.go:344-419 | over such lives, terminal faults included: Ready with no failure recorded means root disk, bootstrap data and all disks in place and a running domain over the root disk's path and one path per additional disk, in spec order |
| `Refusals.LostRefusal` | internal/controller/libvirtmachine_controller.go:346-368 | without it that is false: a refused disk whose failure is lost with the patch leaves a machine that the next undisturbed pass calls Ready with no failure recorded, running without its disks |
| `Definitions.FailedPassIsIdle` | internal/controller/libvirtmachine_controller.go:234-343 | with a failure recorded a pass makes no call and keeps a failure recorded |
| `Outcomes.FailureAbsorbs` | internal/controller/libvirtmachine_controller.go:234-343 | over every run of passes, restarts and losses a stored failure stays and the host is what the restarts and losses alone make of it |
| `QuietPass.NormalQuiet` | internal/controller/libvirtmachine_controller.go:219-419 | a pass without faults on a host that offers what the spec refers to ends Ready |
| `QuietPass.PresentNeedsNoSource` | internal/controller/libvirtmachine_controller.go:758-768 | without faults a staged image is not fetched again and an ISO that is there is not built again, so neither needs its source |
| `Convergence.SoundByPass` | internal/controller/libvirtmachine_controller.go:219-419 | a pass cut short anywhere by faults that tear no transfer, passing over no refusal, leaves only artifacts that the spec asks for |
| `Convergence.CleanPassReaches` | internal/controller/libvirtmachine_controller.go:219-419 | an undisturbed pass over such a host ends with exactly the blueprint: volumes with their contents, definition, files, running domain |
| `Convergence.QuietKeepsStored` | internal/controller/libvirtmachine_controller.go:917-1124 | an undisturbed pass repairs no volume: what was there stays as it was |
| `PoolLoss.PassIsItsCalls` | internal/controller/libvirtmachine_controller.go:219-419 | under every schedule of faults the host a pass leaves is what the calls of its log made of it |
| `PoolLoss.LostExactlyWhenDestroyed` | internal/controller/libvirtmachine_controller.go:925-962 | under every schedule of faults a volume of an existing ephemeral pool is there, unchanged, after each call of a pass if and only if no call destroys the pool |
| `PoolLoss.DestroyedOnlyAfterFailedStart` | internal/controller/libvirtmachine_controller.go:939-952 | a pass destroys a pool only right after a start of it that failed |
| `PoolLoss.FailedStartWipesPool` | internal/controller/libvirtmachine_controller.go:940-952 | and any failing start does it: one passing error costs the machine its root disk |
| `Convergence.ReachesExactlyWhenGenuine` | internal/controller/libvirtmachine_controller.go:219-419 | an undisturbed pass reaches the blueprint if and only if whatever is already there of the machine is what it should be: volumes, staged image, definition, kernel and initramfs |
| `Convergence.PassKeepsFile` | internal/controller/libvirtmachine_controller.go:1322-1336 | under every schedule of faults no pass changes or removes a file that is there, the ignition file and the ephemeral directory aside |
| `Convergence.InterruptedKernelWrite` | internal/libvirt/virsh_client.go:643-673 | how a boot file gets torn: a write cut in the middle leaves a file and a retryable error |
| `Convergence.TornKernelStays` | internal/controller/libvirtmachine_controller.go:1322-1336 | and what comes of it: an undisturbed pass ends Ready with the kernel still torn |
| `Convergence.InterruptedIsoUpload` | internal/libvirt/virsh_client.go:534-569 | how one gets torn: a transfer cut after the volume was created leaves a volume that later passes take for the ISO |
| `Retry.NormalUnharmed` | internal/controller/libvirtmachine_controller.go:1627-1641 | faults that are not terminal and reads that fail never make a pass record a failure |
| `Retry.SoundByPartialPass` | internal/controller/libvirtmachine_controller.go:219-419 | a pass that lacks some of its inputs leaves only artifacts that are right for all of them |
| `Retry.CalmRun` | internal/controller/libvirtmachine_controller.go:219-419 | what every run of interrupted passes, passes whose host, secret, image or boot reads fail, daemon restarts, lost tmpfs mounts and stopped domains keeps: no failure, foreign state untouched, only genuine artifacts |
| `Retry.RetryConverges` | internal/controller/libvirtmachine_controller.go:219-419 | retry convergence: one undisturbed pass after any such run ends Ready with exactly the artifacts that one undisturbed pass on the original host produces |
| `Retry.ConvergedIsStored` | internal/controller/libvirtmachine_controller.go:110-186 | and once that pass's patch gets through the object is Ready, with the finalizer and no failure, over the same artifacts |
| `Retry.WellNamedIsDistinct` | internal/scope/machine.go:86-129 | the generated names keep a machine's volumes apart from each other and from the images whenever the spec's disk and image names do |
| `Retry.PreparedHostIsCalm` | internal/controller/libvirtmachine_controller.go:219-419 | the premises of convergence are met for every such spec by a host with its pools and base image |
| `Preflight.ReferencedPoolsExact` | internal/controller/libvirtmachine_controller.go:684-713 | the pools collected are exactly those the spec and the cluster image refer to |
| `Preflight.FirstMentionsExact` | internal/controller/libvirtmachine_controller.go:684-713 | the list checked has no repeats and holds exactly the non-empty ones |
| `Preflight.FirstMentionWins` | internal/controller/libvirtmachine_controller.go:684-713 | a pool named twice keeps the reason of its first mention |
| `Preflight.CheckPoolsVerdict` | internal/controller/libvirtmachine_controller.go:715-739 | the pass gives up exactly when a pool is missing, with the reason of the first missing one |
| `Preflight.PreflightExact` | internal/controller/libvirtmachine_controller.go:684-739 | preflight goes through if and only if every referenced pool exists |
| `Preflight.PreflightBlames` | internal/controller/libvirtmachine_controller.go:684-739 | when it gives up it blames the base image's pool if and only if a pool that a base image is looked for in is missing, and a storage pool otherwise |
| `PoolCalls.VolumeCallsFindTheirPool` | internal/controller/libvirtmachine_controller.go:684-1124 | under every schedule of faults each volume call of a pass is on a referenced pool or on the machine's own, and each of these pools, the ephemeral one included, exists on the host the pass leaves |
| `Staging.UploadKeyInjective` | internal/controller/libvirtmachine_controller.go:789-789 | the lock key tells host and digest apart |
| `Staging.OneInside` | internal/controller/libvirtmachine_controller.go:790-793 | two reconciles between lock and unlock under one key are the same |
| `Staging.StagingIsSafe` | internal/controller/libvirtmachine_controller.go:758-828 | invariant over every interleaving of any number of reconciles, terminal and other errors, and restarts, with uploads in two steps: one inside per key, no creation over a volume, a volume partial exactly while somebody fills it |
| `Staging.StagedAtMostOnce` | internal/controller/libvirtmachine_controller.go:758-828 | per volume: at most one upload fills it, none is created over it, one reconcile inside at a time |
| `Staging.WholeStays` | internal/libvirt/virsh_client.go:571-616 | a volume that holds the image holds it from then on |
| `Staging.FailedExactlyWhenRefused` | internal/controller/libvirtmachine_controller.go:758-828 | over every interleaving a reconcile returns nil with a failure recorded if and only if its check, its recheck or its upload met a terminal error |
| `Staging.MisledExactly` | internal/controller/libvirtmachine_controller.go:758-800 | exactly when a check trusts a volume that does not hold the image: without the lock if and only if somebody is filling it or an upload left it torn, under the lock if and only if it is torn |
| `Staging.NilMeansWhole` | internal/controller/libvirtmachine_controller.go:758-828 | nil with no failure recorded means that the volume holds the image, then and from then on, unless a check was so misled |
| `Staging.TidyRunTearsNothing` | internal/libvirt/virsh_client.go:603-612 | uploads that are not cut off and delete what they made tear nothing, and then the check under the lock misleads nobody |
| `Staging.NilWithoutVolume` | internal/controller/libvirtmachine_controller.go:758-828 | nil without the volume comes only from a terminal error or a misled check |
| `Staging.RefusalReturnsNil` | internal/controller/libvirtmachine_controller.go:758-768 | the first happens: a refused check |
| `Staging.CheckTrustsPartialVolume` | internal/controller/libvirtmachine_controller.go:758-768 | and so does the second: a check while another reconcile fills the volume, which then fails and deletes it |
| `Staging.UndisturbedStages` | internal/controller/libvirtmachine_controller.go:758-828 | whatever happened before, a reconcile of an absent volume whose mutex is free and that meets no error returns nil with no failure and leaves the volume holding the image |
| `Staging.UnlockedExactly` | internal/controller/libvirtmachine_controller.go:789-793 | and a mutex is free if and only if nobody is inside under its key |
| `ImageCache.CacheIsSound` | internal/imagecache/cache.go:65-129 | over every interleaving of concurrent Gets with failing opens, streams, renames, removals and restarts: a file named by a digest hashes to its name, and temp files belong to fetches in flight or failed removals |
| `ImageCache.TempHoldsStream` | internal/imagecache/cache.go:85-115 | over every interleaving the temp file of a fetch holds what was streamed, in order and nothing else |
| `ImageCache.FetchDelivers` | internal/imagecache/cache.go:85-129 | when a fetch closes, its rename works and its pin is empty or met, everyone who joined it gets the entry of what was streamed, and the cache holds it |
| `ImageCache.FailsExactly` | internal/imagecache/cache.go:85-129 | a Get ends in an error if and only if the open, the stream or the rename of its fetch failed or a non-empty pin was not met |
| `ImageCache.LookExactly` | internal/imagecache/cache.go:65-83 | a lookup answers at once if and only if the pinned file is there, and otherwise joins the fetch of its source and pin, undisturbed if it is under way |
| `ImageCache.CachedAnswersAtOnce` | internal/imagecache/cache.go:65-83 | from the end of a fetch on, whatever happens, every Get that pins its digest in any case is answered at once |
| `ImageCache.ReturnedEntryIsTrueExactly` | internal/imagecache/cache.go:65-129 | an entry that any Get returned, over every interleaving, names a file that hashes to the entry's digest and to the pin, if and only if the pin is empty or hex |
| `ImageCache.MalformedPinFindsTemp` | internal/imagecache/cache.go:65-83 | a pin that is not hex can name a temp file, which is returned unverified |
| `ImageCache.NoTempSurvives` | internal/imagecache/cache.go:85-129 | when removals succeed no temp file outlives its fetch |
| `ImageCache.KeyFixesPin` | internal/imagecache/cache.go:65-83 | calls that share a fetch have the same usable pin |
| `ImageCache.MatchedPinIsWellFormed` | internal/imagecache/cache.go:117-121 | a pin that a digest matches case-insensitively is hex |
| `SourceKeys.SharedExactly` | internal/imagecache/cache.go:139-159 | which sources share a source key, exactly, further transports beside the type's own included: of one type, with the same URL; the same OCI reference and title or one text cut at different bars; the same S3 object or one text cut at different slashes |
| `SourceKeys.UsualSourcesAreToldApart` | internal/imagecache/cache.go:139-159 | references without a bar and endpoints and buckets without a slash never collide |
| `SourceKeys.SomeSourcesShare` | internal/imagecache/cache.go:139-159 | colliding pairs: two OCI sources, two S3 sources, and a source that carries a transport its type does not name |
| `Shell.ShellJoin` | internal/libvirt/virsh_client.go:715-721 | the loop computes the quoted arguments joined by spaces |
| `Shell.EscapedReadsBack` | internal/libvirt/virsh_client.go:723-728 | inside single quotes the escaped text reads back as itself, for every continuation of the line |
| `Shell.JoinedReadsBack` | internal/libvirt/virsh_client.go:715-728 | a POSIX shell reads the joined line as exactly the arguments |
| `Shell.JoinedIsInjective` | internal/libvirt/virsh_client.go:715-728 | different argument lists give different lines |
| `Shell.ReadsBackExactlyWithoutNul` | internal/libvirt/virsh_client.go:715-728 | the round trip holds if and only if no argument contains NUL |
| `ManagedKeys.FormatManagedKeys` | internal/controller/libvirtmachine_controller.go:520-527 | the text depends on the key set only, whatever the iteration order of the map |
| `ManagedKeys.FilterInPlace` | internal/controller/libvirtmachine_controller.go:534-541 | the filter over its own backing array keeps the non-empty parts in order and loses none before it is read |
| `ManagedKeys.ParseManagedKeys` | internal/controller/libvirtmachine_controller.go:530-542 | split and filter compute the parsed keys |
| `ManagedKeys.SplitUndoesJoin` | internal/controller/libvirtmachine_controller.go:520-542 | splitting at commas undoes joining comma-free keys |
| `ManagedKeys.IncreasingIsUnique` | internal/controller/libvirtmachine_controller.go:520-527 | there is one increasing list of a set of keys |
| `ManagedKeys.ParseUndoesFormat` | internal/controller/libvirtmachine_controller.go:520-542 | round trip: parsing the text of a key set gives the sorted keys |
| `NodeMetadata.NodeObject.ReconcileNodeLabels` | internal/controller/libvirtmachine_controller.go:430-515 | the in-place merge on the Node equals its specification |
| `NodeMetadata.SyncOwns` | internal/controller/libvirtmachine_controller.go:458-515 | one reconcile: declared pairs present, withdrawn keys gone, all other keys as they were, tracking annotations list the declared keys |
| `NodeMetadata.OwnershipOverRun` | internal/controller/libvirtmachine_controller.go:430-515 | over every run mixed with administrators' writes the tracking annotations list exactly the keys applied last, with their values on the Node |
| `NodeMetadata.AdminKeysAreTheirs` | internal/controller/libvirtmachine_controller.go:430-515 | a key never declared always has the administrator's last value |
| `NodeMetadata.FreshNodeIsOwned` | internal/controller/libvirtmachine_controller.go:430-515 | a Node without tracking annotations satisfies the invariant |
| `NodeMetadata.WithdrawnKeysGoExactlyWhen` | internal/controller/libvirtmachine_controller.go:430-515 | of the documented promise on withdrawn keys: withdrawn keys are removed if and only if something is still declared or nothing was applied |
| `BootCache.WriteLines` | internal/controller/libvirtmachine_controller.go:1340-1369 | the builder writes one terminated line per field |
| `BootCache.KeyTextIsInjective` | internal/controller/libvirtmachine_controller.go:1340-1369 | equal key texts come from equal sources: type, presence of each transport and every written field |
| `BootCache.NewlineCollides` | internal/controller/libvirtmachine_controller.go:1340-1369 | a newline in an address can imitate a line break: a family of pairs of HTTPS sources with different addresses and one key text |
| `BootCache.ReturnedArtifactsMatchPins` | internal/controller/libvirtmachine_controller.go:1168-1183 | under every interleaving of reconcilers sharing the cache, and whatever the network delivers, returned artifacts carry their true digests and match the pins of the source asked for |
| `BootCache.ResolvedExactly` | internal/bootartifacts/https.go:100-106 | a resolution returns the delivered kernel as kernel and initramfs as initramfs, with their digests, if and only if the source has its type's transport and each meets the pin given for it there |
| `BootCache.ReturnedWasDelivered` | internal/controller/libvirtmachine_controller.go:1168-1183 | over every interleaving returned kernel and initramfs are those of one delivery |
| `BootCache.StoredOnceServesAll` | internal/controller/libvirtmachine_controller.go:1168-1183 | a delivery that meets the pins is returned and stored, and from then on every request with that key is answered from the cache |
| `BootCache.UndisturbedResolves` | internal/controller/libvirtmachine_controller.go:1168-1183 | a new request, whatever happened before, is answered from the cache if its key is there and otherwise by a delivery that meets its pins |
| `BootCache.ArtifactCache.ResolveCached` | internal/controller/libvirtmachine_controller.go:1168-1183 | a hit returns the entry unchanged, a miss stores what was resolved, an error stores nothing; the pin guarantee holds call by call |
| `Ignition.Config.InjectFile` | internal/ignition/hostname.go:85-117 | the in-place replacement equals its specification |
| `Ignition.InjectMachineMetadata` | internal/ignition/hostname.go:30-65 | parse, version check and up to three injections equal one plan of distinct paths; an error otherwise |
| `Ignition.InjectStaticNetwork` | internal/ignition/network.go:53-90 | the same with the connection file; without addresses the data is returned untouched |
| `Ignition.Personalize` | internal/controller/libvirtmachine_controller.go:1020-1050 | the pipeline, in which a failing injector leaves the data as it was, equals its specification |
| `Ignition.PlanIsExact` | internal/ignition/hostname.go:85-117 | a plan of distinct paths replaces the entries at its paths by its own, at the end and in order, and keeps all others in order |
| `Ignition.PlanTouchesOnlyFiles` | internal/ignition/hostname.go:119-134 | no other section, and nothing in storage but the files, changes; nor does the version |
| `Ignition.PlanTwice` | internal/ignition/hostname.go:85-117 | a second round of a plan changes nothing |
| `Ignition.PersonalizedExactly` | internal/controller/libvirtmachine_controller.go:1020-1050 | the document written to the host: each machine file exactly once, everything else as it was |
| `Ignition.GuestReadsMachineFiles` | internal/ignition/hostname.go:30-117 | read off the written JSON: host name, provider ID and connection file each have one entry, with its contents and mode, overwrite for a 3.x document and filesystem root for a 2.x one; any other data is passed on byte for byte |
| `Ignition.PersonalizedDocument` | internal/controller/libvirtmachine_controller.go:1020-1050 | unreadable or unsupported data is passed on byte for byte |
| `Ignition.PersonalizedTwice` | internal/controller/libvirtmachine_controller.go:1020-1050 | a retried reconcile writes the same bytes |
| `Admission.ValidateNames` | internal/webhook/v1alpha1/libvirtmachine_webhook.go:166-191 | the loop reports exactly the fields that are not identifiers |
| `Admission.ValidateCreate` | internal/webhook/v1alpha1/libvirtmachine_webhook.go:62-116 | the errors are exactly those of addresses, names, clone strategy and host |
| `Admission.ValidateUpdate` | internal/webhook/v1alpha1/libvirtmachine_webhook.go:119-164 | the errors are exactly those of names, provider ID transition and changed spec |
| `Admission.ValidateHostUniqueness` | internal/webhook/v1alpha1/libvirtmachine_webhook.go:201-228 | the scan passes if and only if no other live machine of the namespace names the host |
| `Admission.CreateAcceptedExactly` | internal/webhook/v1alpha1/libvirtmachine_webhook.go:62-116 | a creation is accepted if and only if the machine is proper, the namespace could be listed and the host is free |
| `Admission.UpdateAcceptedExactly` | internal/webhook/v1alpha1/libvirtmachine_webhook.go:119-164 | an update is accepted if and only if it changes nothing but fills in a missing provider ID, and names are safe |
| `Admission.ProperCreationIsStored` | internal/webhook/v1alpha1/libvirtmachine_webhook.go:62-116 | an accepted creation committed at once is stored as it was sent |
| `Admission.ProviderIDIsStored` | internal/webhook/v1alpha1/libvirtmachine_webhook.go:119-164 | every machine that was let in can get its provider ID, over every history |
| `Admission.AcceptedNameIsOneWord` | internal/webhook/v1alpha1/libvirtmachine_webhook.go:166-191 | an accepted name is one shell word, itself, even unquoted |
| `Admission.StoredMachinesAreProper` | internal/webhook/v1alpha1/libvirtmachine_webhook.go:62-164 | over every interleaving of requests every stored machine has valid addresses, safe names, and a full clone only within its pool |
| `Admission.SpecIsImmutable` | internal/webhook/v1alpha1/libvirtmachine_webhook.go:119-164 | from creation to removal a spec changes only by filling in a missing provider ID, once |
| `Admission.HostsAreUniqueExactly` | internal/webhook/v1alpha1/libvirtmachine_webhook.go:201-228 | one live machine per host, exactly: over every interleaving of requests, no two live machines of a namespace ever share a host if and only if every commit that takes effect still finds the host free |
| `Admission.HostsAreUnique` | internal/webhook/v1alpha1/libvirtmachine_webhook.go:201-228 | so it is in every state of a run whose approvals are committed at once |
| `Admission.CommitKeepsHosts` | internal/webhook/v1alpha1/libvirtmachine_webhook.go:201-228 | a commit keeps that if and only if the host is still free when it happens |
| `Admission.RacingCreationsShareHost` | internal/webhook/v1alpha1/libvirtmachine_webhook.go:201-228 | two creations approved against the same store break it |
| `Admission.DeletingMachineSharesHost` | internal/webhook/v1alpha1/libvirtmachine_webhook.go:216-219 | a machine being deleted no longer blocks its host; a live one does |
| `Devices.BuildDisks` | internal/libvirt/domain_xml.go:307-365 | the appending loop with its letter index equals the disks by position |
| `Devices.DisksAreAttached` | internal/libvirt/domain_xml.go:307-365 | root disk first, the ISO as the one cdrom, second and on sata, additional disks last in spec order on their own bus or virtio |
| `Devices.TargetsNamedByBus` | internal/libvirt/domain_xml.go:403-413 | targets start with sd on sata and scsi and with vd otherwise |
| `Devices.TargetsAreDistinctExactly` | internal/libvirt/domain_xml.go:307-413 | target names are pairwise distinct if and only if not both an ISO and a sata or scsi root disk are present and the letters do not run into code points that Go replaces |
| `Devices.LettersExactly` | internal/libvirt/domain_xml.go:403-413 | all letters are in a..z if and only if at most 26 disks take one |
| `Devices.IgnitionDeliveredOnce` | internal/libvirt/domain_xml.go:245-345 | a config is delivered exactly once, by fw_cfg or by the ignition disk, and the path is the config's |
| `HostCapacity.WrapOnlyLoses` | internal/controller/libvirthost_controller.go:270-279 | no truncation or wrap-around inflates a positive availability |
| `HostCapacity.NothingWraps` | internal/controller/libvirthost_controller.go:270-279 | below 2^41 KB the availability is the plain difference |
| `HostCapacity.CpuBoundExactly` | internal/controller/libvirthost_controller.go:271-276 | for CPUs the bound holds exactly without underflow |
| `HostCapacity.SizeLeavesReservationExactly` | internal/controller/libvirtmachine_controller.go:604-635 | an accepted memory size leaves the reservation alone if and only if it was left to the controller or asked for no more than the rest |
| `HostCapacity.CpusLeaveReservationExactly` | internal/controller/libvirtmachine_controller.go:604-635 | the same for CPUs, and sizes filled in are positive |
| `HostCapacity.SizeIsTheRest` | internal/controller/libvirtmachine_controller.go:604-635 | what a machine is given, exactly: the spec's sizes, and for what it leaves open the host's total less the reservation; refused if and only if one is then not positive |
| `HostCapacity.SizedLife` | internal/controller/libvirtmachine_controller.go:604-635 | over every life under every schedule of faults the domain has a size that one of its reconciles settled on |
| `HostCapacity.AutoSizedLifeLeavesReservation` | internal/controller/libvirtmachine_controller.go:604-635 | in every state of every life, whatever the faults, the domain has the spec's sizes, and what is left to the controller is positive, within the host's totals less the reservations, and all of that rest unless numbers wrap |

## Left out

Weaker than the code's widest promise:

- BootCache.KeyTextIsInjective: asks that no written field contains a newline, which is sufficient and not shown necessary source by source; `BootCache.NewlineCollides` shows that it cannot be dropped.
- BootCache.ReturnedArtifactsMatchPins: assumes SHA-256 of key texts free of collisions; credentials and TLS options are not part of the key, as in the code.
- Teardown.DeleteComplete: assumes that a successful DestroyPool means that the pool is gone (the virsh client ignores its errors) and that a "not found" answer is true, because both depend on error texts of libvirt.
- Leftovers.FinalizerGuardsExactly: files are restored up to the machine's own ignition and boot files: boot files are shared and never removed, and of the ignition file `Teardown.ReleaseRemovesIgnitionFile` says when it is gone; of the pools of the host only the machine's own can be lost or restart.
- Definitions.ReadyMeansProvisioned: asks that the root disk is created where it is looked up; `Outcomes.FirstPassLeavesClone` shows the other case.
- Definitions.DefiningPassExactly: asks that the storage pool does not live in the directory of the machine's ephemeral pool, where both disks would have one path.
- Definitions.LifeIsDefinedExactly: as Definitions.DefiningPassExactly.
- Convergence.ReachesExactlyWhenGenuine: asks that volumes lie in existing pools, that a full clone found on the host has its base image there to be compared with, and that boot files lie outside the tmpfs directory.
- Retry.RetryConverges: asks that transfers are not cut in the middle, that names the spec gives to different volumes are different, that the host offers the pools and the base image, and that the secrets and images of the last pass can be read; `Retry.PreparedHostIsCalm` shows when that holds and `Convergence.ReachesExactlyWhenGenuine` what torn transfers cost.
- PoolCalls.VolumeCallsFindTheirPool: asks that no pool of the spec has the name generated for the machine's ephemeral pool and that no refusal of that pool is passed over.
- ImageCache.ReturnedEntryIsTrueExactly: a malformed pin with path separators, which reaches outside the cache directory, is looked up inside it in the model.
- Staging.StagedAtMostOnce: takes the digest of an image as a function of its target, so that all reconciles for one volume share a lock key, and has nobody else touch the volume meanwhile. It does not promise that nil with no failure recorded comes with the volume there, because a check without the lock can find one that is still being filled; `Staging.MisledExactly` is the exact condition.
- Ignition.PersonalizedExactly: takes the JSON codec as a parameter that reads back what it writes, URL escaping as a function, and the text of the NetworkManager connection file as given.
- HostCapacity.AutoSizedLifeLeavesReservation: takes one capacity for the life of the machine, as probed from the host.

Not modelled:

- The lock of image staging inside a provisioning pass: passes of one machine are sequential, and concurrent staging is modelled on values as interleaved steps of its own, as are the two caches.
- SSH sessions, the virsh process, temp-file uploads, timeouts and the texts that are classified into error categories.
- The HTTPS, OCI and S3 transports, TLS, credentials, gzip, SHA-256, JSON and XML marshalling, ISO building.
- Requeue intervals, status conditions, the list of managed artifacts, events and logging.
- NVRAM and firmware paths, network interfaces and consoles of the domain, MAC addresses.
- Liveness of deletion on a stopped domain or an inactive pool, which depends on error texts of libvirt.
- Deletion of the Node object, CSR approval, host probing and the LibvirtCluster controller: they would add only easy members.
