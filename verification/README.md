# Verified model of a libvirt operator

The operator turns Kubernetes objects (volumes, cloud-inits, domains, pools, networks, PCI devices) into volumes and domains on libvirt
hosts. This project models its reconcilers, the libvirt definitions they build, and the two stores they share, and proves
what they keep true together.

## The protocol

`Protocol.dfy` holds one state, `World`: the API objects with labels, finalizer, deletion mark and status, and the hosts'
volumes and domains. Every API call and every host call is one event. An event has two guards:

- `Feasible` is what the API server or the host enforces (optimistic concurrency, a name that is taken, a volume that
  does not exist), together with the standing assumptions about users listed below.
- `Duty` is what the controller that makes the call owes the protocol: for instance that a domain's labels are stored
  before it is defined, or that a deletion has listed its referrers. A duty is never assumed. The reconcilers are methods
  on `Calls.Cluster`, whose only way to change the state is `Perform`, which requires the event to be enabled; so every
  reconciler is proved to do nothing but enabled events.

Between any two calls of a reconcile, `Cluster.Interfere` lets users, guests and all other reconciles take any number of
enabled steps, and every call may fail before or after it took effect. `Interference.Unmoved` is what a reconcile may rely
on across such a gap, and is proved for every step of anybody else. `alone` is a cluster in which a reconcile is not
overtaken (it can still be cut short after any call), `sure` one in which its calls also succeed. The cluster also counts
what a reconcile has asked of hosts (`hostCalls`) and the calls it has heard an error from (`missed`): success always means
that there was none.

Deletion safety needs more than single calls: a reconcile that lists no referrers and then deletes can be overtaken by one
that is about to store a label. The state records reads that lead to a label (`attaching`, `found`), the windows from
listing to deleting or resizing (`windows`), and every window that ever coincided with a reference being made to the same
object (`overlapped`). Results are stated for all interleavings, per object, under the condition that its window has not
overlapped (`Guarantees.Undisputed`); `AtomicRuns.Drive` proves that this condition holds throughout when reconciles do
not overtake each other; `Races.DeletionRace` shows a run that breaks the guarantee when they do, and `Races.OverlapDecides`
that an overlap of the open window is exactly what it takes.

`Guarantees.dfy` collects what follows for all runs: no orphans, write-ahead references, nothing dangling, acyclic and
bounded backing chains, capacities that never shrink and are frozen under an overlay, and undefinition only of domains
last seen shut off. `Attachments.dfy` adds that a definition has a disk for every listed volume that can be one, so that a
resize through a running domain finds it, and that its networks and PCI devices are stored and on its host.

## The definitions and the stores

`TargetDev.dfy`, `DomainAction.dfy` and `VolumeAction.dfy` model the definition a domain action builds in place, with its
linked list of backing stores. `ChainsDescend` and `ChainsResolve` connect it to the protocol: the invariant of the cluster
is what makes the loop down a chain end.

`HostStore.dfy` is a state machine with every point at which a goroutine can be overtaken, and a class whose operations
take its steps. `AuthStore.dfy` is the swap of credential directories over a file system whose calls can fail, some of them
half-way. `PoolProbe.dfy` and `GenerationCache.dfy` model the refresh timer and the two caches keyed by sums of
generations. `Units.dfy` is the wrapping 64-bit arithmetic of sizes.

## What the code does not give

- The pool label of a cloud-init and the host label of a domain are stored after the creation. `Races.CloudInitLabelsLate`
  shows a pool that goes while the copy of a cloud-init is still in it, with no reconcile overtaking another. `PoolsKept` is
  therefore about copies whose object labels the pool, which a Volume's always does; `Guarantees.PoolStaysExactly` proves
  that the label is exactly what keeps the pool. If such a pool's name is then used for another place, the copy is
  orphaned (`Races.RebindingOrphans`); an unlabelled cloud-init's copy is exactly what can be (`Guarantees.RebindingExactly`).
- Ready does not mean filled: when an upload fails, the next reconcile finds the copy and reports it ready
  (`Races.ReadyUnfilled`). Ready does mean there (`Guarantees.ReadyIsThere`), and a successful reconcile has filled the
  copy exactly if it found none (`VolumeController.FilledExactly`, and `Fulfilled` of CloudInitController for cloud-inits).
- A size whose product wraps can be taken for a smaller one (`Units.WrapMisleads`). The conversion is exact precisely when
  the product fits (`Units.ConversionExact`, `Units.DecimalExact`), and the resize decision is right precisely when it fits or what is left
  after wrapping still exceeds the current size (`Units.VerdictOrdersSizes`). Capacities still never shrink.
- A volume that is neither a file nor a block device is accepted by `Disk` without becoming a disk; a live resize of it on
  a running domain finds no match (`VolumeAction.ResizeUnattached`); every other volume that is listed does
  (`VolumeAction.ResizeExactly`).
- When the rename in `AuthStore.Register` fails, the second link stays, and no later registration of a known uid can
  succeed (`AuthStore.RenameFails`, and `Swap` in the contracts of `Register` and `Deregister`). With working file
  operations a registration succeeds exactly if the link it has to make is not there.
- `HostStore` can lose its lock for good once a context is cancelled (`HostStore.CancelBlocks`): a send completes exactly
  as long as the monitor is in its loop (`HostStore.SendCompletes`).
- A caller between `Lookup` and `Session` can open a session that the monitor disconnects (`HostStore.LateHolder`); a
  monitor that has counted no sessions is safe exactly if there is no such caller (`HostStore.ClosesEmptyExactly`), and
  once a context is cancelled, if the entry is also unmapped or the lock is held for good (`HostStore.CutOffExactly`).
- A sum of generations identifies its parts exactly if the second part has not gone down (`GenerationCache.KeysAgree`);
  with another auth it can repeat (`GenerationCache.KeyMisleads`).
- Stored times are rounded down to whole seconds: probes are an interval apart only up to that grain (`PoolProbe.Drive`).
  With any grain above 1, probes at the times 1 and `interval` both take place (`PoolProbe.TooSoon`); the distance is kept
  exactly if nothing is rounded (`PoolProbe.PacingExactly`).

## Assumptions

- Distinct pool objects name distinct host pools, and a pool name is never used again for another one (what the second
  part rules out is said by `Guarantees.RebindingExactly`).
- Volume and cloud-init names do not collide in a pool; the webhooks' uniqueness checks hold of the stored objects.
- Users do not edit names, references, labels or finalizers. Reads of the API are current, and there is at most one
  reconcile per object at a time.
- A volume's key equals its path. The hosts hold nothing under the claimed names that the operator did not create.
- Uploading sets the capacity to what is received; the host reports capacities in bytes.
- Random names and session identifiers are fresh.

## Model

| member | source | states |
|---|---|---|
| Units.BinaryPowers | internal/util/util.go:26-66 | B, KiB, MiB, GiB, TiB, PiB and EiB stand for the powers of 1024 in order, counted in 64-bit words |
| Units.DecimalPowers | internal/util/util.go:26-66 | B, KB, MB, GB, TB, PB and EB stand for the powers of 1000 in order, counted in 64-bit words |
| Units.OtherNames | internal/util/util.go:26-66 | a single letter is its binary unit, no name is bytes, and any other name converts to nothing |
| Units.ConversionExact | internal/util/util.go:26-66 | for binary units the converted size is value times the power of 1024 if and only if that product fits in 64 bits |
| Units.DecimalExact | internal/util/util.go:26-66 | for decimal units it is value times the power of 1000 if and only if that product fits |
| Units.VerdictOrdersSizes | internal/action/volume.go:224-237 | growing and shrinking are decided as the true sizes are ordered, if and only if the product fits or what is left of it after wrapping is more than the volume has |
| Units.WrapMisleads | internal/util/util.go:26-66 | a concrete larger request that reads as shrinking because its product wraps |
| Preservation.Step | internal/controller/volume.go:104-126 | every enabled call of anybody keeps the protocol invariant: finalizers, claims, labels, links, windows |
| Preservation.RunKeeps | internal/controller/domain.go:94-117 | the invariant holds after every run of enabled calls |
| Interference.StepUnmoved | internal/controller/volume.go:53-175 | no single step of others takes away what a reconcile may rely on: its object, its host copies, its references, its empty listings |
| Calls.Cluster.Interfere | internal/controller/volume.go:53-175 | any number of steps of others between two calls keeps the same |
| Calls.Cluster.Update | internal/controller/domain.go:186-191 | an update is accepted only for a current copy, stores exactly the change asked for, and owes its duty |
| Calls.Cluster.Report | internal/controller/volume.go:337-349 | the ready condition and the place that end up stored are the ones reported, unless nothing changed; ready needs the finalizer, the place of the pool, and the copy or the definition on the host |
| Storage.ResolvePool | internal/controller/volume.go:323-335 | a ready pool places the copy, and is being referred to from then on |
| Storage.Locate | internal/action/volume.go:56-94 | what is found at the path is the reconcile's own copy, and if nothing is found it has none anywhere |
| Storage.Finalize | internal/controller/volume.go:104-109 | afterwards the finalizer is stored and the rest of the object is what it was; if it is on already nothing is written |
| Storage.ListReferrers | internal/controller/volume.go:218-245 | an empty answer means no referrer at all for as long as the deletion window has not overlapped |
| Storage.DeleteCopy | internal/controller/volume.go:218-245 | success leaves no copy, and nothing else on the host has changed; alone, it is refused exactly if somebody refers to the copy, and then nothing is deleted |
| Storage.Release | internal/controller/cloudinit.go:111-136 | the object only goes when its copy is gone or was not there; a copy in use keeps both, with no host call |
| Storage.LookUp | internal/controller/domain.go:155-157 | the looked-up copy belongs to the object read and stays there unless its deletion window overlaps |
| Storage.Spawn | internal/host/fake/fake.go:177-189 | the copy gets the size and backing asked for, at the object's own path |
| Storage.Send | internal/host/fake/fake.go:191-210 | an upload fills the copy being created and sets its capacity; alone, no other volume changes |
| VolumeController.VolumeReconciler.Reconcile | internal/controller/volume.go:53-175 | takes enabled steps only; alone: no overlap, nothing left open, nobody's wishes changed; on success there is a copy that is the one found, at the size asked for, or a new one filled from the source or laid on the backing volume with the size asked for or inherited, and it is ready; no host call if no larger size is asked for; a deleted object is gone; which host calls are made and how it ends follows from the state: adjusted, made, waiting for a backing volume, deleted, or kept as long as somebody refers to it; success means that no call has failed; while its pool is not ready a ready volume is left alone |
| VolumeController.DoneIsSettled | internal/controller/volume.go:128-164 | after a successful reconcile the next one changes nothing on the host, unless the volume has just been downloaded and must still grow: exactly then not |
| VolumeController.FilledExactly | internal/action/volume.go:206-222 | a successful reconcile of a volume with a source has filled the copy if and only if there was none before; a copy found stays as filled as it was |
| VolumeController.VolumeReconciler.Existing | internal/controller/volume.go:128-164 | the copy never shrinks and has the bytes asked for on success; alone, the outcome is determined: a smaller size, an overlay, a second domain, or a running domain without the disk are refused with their own error and no host call; else one call, the block resize of the first disk at the path while the domain runs, the storage resize if not |
| VolumeController.VolumeReconciler.IsNotBackingStore | internal/controller/volume.go:181-195 | a free answer means no overlay for as long as the resize window has not overlapped |
| VolumeController.VolumeReconciler.UsedByDomain | internal/controller/volume.go:197-216 | the name of the one domain labelled with the volume, none if there is none, an error if there are more |
| VolumeController.VolumeReconciler.LiveResize | internal/action/volume.go:244-300 | the volume gets the size: while the domain runs, by the block resize of the first of its disks that is the volume, without such a disk there is no match, and otherwise by the storage resize |
| VolumeController.VolumeReconciler.Enlarge | internal/controller/volume.go:149-164 | alone, growing ends as the labels and the domain decide: overlays, then two domains, then the running domain's disks, then the storage resize; refusals ask nothing of the host |
| VolumeController.VolumeReconciler.Source | internal/controller/volume.go:248-297 | the size asked for wins, else the backing volume's size counts; a backing volume is ready, on the same host and held by a reference; what is wrong with it decides the error |
| VolumeController.VolumeReconciler.LabelAll | internal/controller/volume.go:293-305 | both labels are stored before the host is asked for anything |
| VolumeController.VolumeReconciler.Make | internal/action/volume.go:206-222 | the copy lies on the labelled backing volume and has the size of the upload or of the request |
| CloudInitController.CloudInitReconciler.Reconcile | internal/controller/cloudinit.go:52-198 | enabled steps only; alone, on success: the object's own copy is there and ready, and this reconcile has filled it and stored the pool label if there was none before, else it is as filled, or not, as it was found; no host call if there is a copy; a deleted object is gone; a new copy is created with at least 2048 bytes and then uploaded; a copy in use keeps its object; success means that no call has failed |
| ResourceController.ResourceReconciler.ListReferrers | internal/controller/network.go:57-68 | the lists, volumes and cloud-inits for a pool, domains for a network or PCI device, tell whether anything is labelled with it |
| ResourceController.ResourceReconciler.Leave | internal/controller/pool.go:59-87 | with calls that succeed the object goes exactly if nothing refers to it |
| ResourceController.ResourceReconciler.Publish | internal/controller/pool.go:126-157 | the ready condition stored is whether the pool, network or device is on the host and active |
| ResourceController.ResourceReconciler.Reconcile | internal/controller/pcidevice.go:44-166 | for pools, networks and PCI devices alike: what something is labelled with stays; alone, a reconcile that has probed leaves ready exactly if it is on the host and active; with calls that succeed one that is due is probed and a deleted one goes exactly if nothing refers to it; hosts are never changed; success means that no call has failed |
| DomainController.DomainReconciler.Await | internal/action/domain.go:373-386 | at most 31 reads and 30 waits; success exactly if the last read is the first that saw the domain off, an error exactly at the first failed read or the limit |
| DomainController.DomainReconciler.Shutdown | internal/action/domain.go:369-387 | one request to the host; refused, nothing is read; accepted, the polls decide; success means seen off and still off |
| DomainController.DomainReconciler.LookUpDomain | internal/action/domain.go:45-142 | what is found is the reconcile's own domain and its state is the last one seen |
| DomainController.DomainReconciler.Leave | internal/controller/domain.go:101-117 | the finalizer only comes off when the domain is undefined or was not there; with calls that succeed, a guest that is on is asked once to shut down, and the result is what up to 31 looks see: off, and it is undefined, or on every time, and nothing more happens |
| DomainController.DomainReconciler.Existing | internal/controller/domain.go:119-139 | on success the domain is off exactly if the spec says so and the object is ready; no host call, a shutdown request included, if it was so before; with calls that succeed, a guest that has to go off is asked once and the looks decide |
| DomainController.DomainReconciler.AddDisk | internal/controller/domain.go:143-165 | a disk is added only for a ready volume on the domain's host, held by a reference whose label is stored afterwards |
| DomainController.DomainReconciler.AddDevice | internal/controller/domain.go:167-221 | a device is labelled only on the domain's host, and held by a reference; alone, success means it is stored, on that host and ready, and else the outcome is what is wrong with it |
| DomainController.DomainReconciler.AddDevices | internal/controller/domain.go:167-221 | every network or PCI device of the spec is labelled; alone, all are stored, on the host and ready, and the first that is not decides the outcome |
| DomainController.DomainReconciler.Assemble | internal/controller/domain.go:141-272 | before the definition all references are labelled, the disks are those of the spec in order, the cloud-init last, and every listed volume that can be a disk is one, also if others interfere |
| DomainController.DomainReconciler.Build | internal/controller/domain.go:141-298 | alone: if a volume, device or cloud-init it lists is missing, elsewhere or not ready, the first of these decides the outcome and nothing is asked of the host; on success the domain is defined with the disks chosen, then started unless it is to stay off, carries the host label and is ready |
| DomainController.DomainReconciler.Reconcile | internal/controller/domain.go:51-299 | takes enabled steps only; alone: what the spec asks for is what there is, no host call if it is so already, a deleted object is gone on success; with calls that succeed: a guest that is on and has to go off is asked exactly once and the result follows the looks, and with no such guest it succeeds; a domain that is not there is defined exactly if all its spec lists is stored, on its host and ready, else the first thing amiss decides; success means that no call has failed |
| DomainController.DeviceDecides | internal/controller/domain.go:167-221 | if the first thing amiss is a network or PCI device: missing is not found, another host is an error of its own, not ready is tried again |
| DomainController.DoneIsSettled | internal/controller/domain.go:119-139 | after a successful reconcile the domain is settled, so the next one changes nothing on the host |
| Guarantees.DomainsWrittenAhead | internal/controller/domain.go:157-274 | in every reachable state a defined domain's object is stored, carries the finalizer and labels every disk, network, PCI device and cloud-init |
| Guarantees.VolumesWrittenAhead | internal/controller/volume.go:293-305 | in every reachable state a volume's object is stored, carries the finalizer, claims that path and labels its pool and backing store |
| Guarantees.SafeThroughout | internal/controller/volume.go:218-245 | after every call of an undisputed run each disk path and backing path resolves, backing descends, pool objects are kept |
| Guarantees.PoolStaysExactly | internal/controller/cloudinit.go:173-184 | between reconciles, for a copy whose pool nobody else refers to: every continuation without overlap that keeps the copy keeps the pool, if and only if the copy's object labels it |
| Guarantees.RebindingExactly | internal/controller/cloudinit.go:173-184 | if the name of a pool that is gone were used for another place, every copy would keep its owner at its path if and only if no object with a copy asks for that pool, and only an unlabelled cloud-init can |
| Guarantees.ReadyIsThere | internal/controller/volume.go:128-135 | in every reachable state what is ready and not being deleted is on its host, and is its own |
| Guarantees.DeletionSpares | internal/controller/volume.go:218-245 | no deletion takes a volume that is a domain's disk or a backing store |
| Guarantees.ChainsEnd | internal/action/domain.go:253-277 | no chain of backing stores meets a volume twice or is longer than there are volumes |
| Guarantees.NeverShrinks | internal/controller/volume.go:136-164 | over every run a finished volume's capacity never decreases, whatever sizes are asked for |
| Guarantees.Frozen | internal/controller/volume.go:149-155 | while another volume lies on it a volume does not change, unless a resize coincided with such a reference |
| Guarantees.FrozenThroughout | internal/controller/volume.go:149-155 | in a run without overlap a volume is at the end what it was when another one came to lie on it |
| Guarantees.UndefinedOnlyOff | internal/controller/domain.go:101-112 | whoever undefines a domain saw it off the last time it looked, after the domain was defined |
| Attachments.LabelledIsDisk | internal/controller/domain.go:143-165 | in every reachable state a domain labelled with a volume is on its host and, once defined, has it as a disk if it is a file or a block device, unless a deletion of it has overlapped |
| Attachments.DevicesAreLocal | internal/controller/domain.go:167-221 | in every reachable state a network or PCI device a domain labels is stored, finalized and on the domain's host, unless a deletion of it has overlapped |
| Races.DeletionRace | internal/controller/volume.go:218-245 | a run in which a deletion overtakes a reference and a domain is defined on a path that is gone |
| Races.OverlapDecides | internal/controller/volume.go:218-245 | while a deletion window is open and the copy there: some continuation without further overlap ends with a dangling disk of that volume, if and only if the window has overlapped |
| Races.CloudInitLabelsLate | internal/controller/cloudinit.go:173-184 | a run without overlap in which a cloud-init's pool goes while its copy exists |
| Races.RebindingOrphans | internal/controller/cloudinit.go:173-184 | after a run without overlap, using the name of the pool that went for another place would orphan the copy left in it |
| Races.ReadyUnfilled | internal/action/volume.go:212-221 | a run after which a volume with a source is ready and its copy was never filled |
| AtomicRuns.Do | internal/controller/volume.go:53-175 | one user's step, or one reconcile of any kind cut short anywhere, lets no deletion coincide with a reference |
| AtomicRuns.Drive | internal/controller/volume.go:53-175 | any jobs in any order, each cut short anywhere: nothing dangles, backing descends and pools are kept after every call, and overlaid volumes are frozen |
| TargetDev.NamesDiffer | internal/action/domain.go:393-410 | the n-th candidate is sd, n/26 times z and the letter n%26, and no two are the same |
| TargetDev.NameSpelled | internal/action/domain.go:393-410 | the n-th candidate letter by letter: sd, as many z as full rounds, and the letter of the alphabet |
| TargetDev.Pigeonhole | internal/action/domain.go:393-410 | the first n names cannot all be among fewer than n |
| TargetDev.Next | internal/action/domain.go:393-410 | the search ends within one more candidate than there are disks and yields the least unused name |
| TargetDev.OrderKept | internal/action/domain.go:201-213 | disks added one after the other get the first names in order, all different |
| DomainAction.DomainAction.Walk | internal/action/domain.go:253-277 | the linked list built through the moving pointer spells the unfolding of the host's chain, nil at the end, in at most one turn per volume |
| DomainAction.DomainAction.Disk | internal/action/domain.go:201-310 | exactly one disk with driver, target and flags is appended, a file's with a file source and a block device's with a block source, and every backing store likewise presents its volume on the host's chain; none for other kinds, and none on any fault |
| DomainAction.AttachAll | internal/controller/domain.go:143-165 | any sequence of Disk calls yields the requested disks in order under the first names, each with the source and the chain of its own volume |
| DomainAction.DomainAction.SCSIMultiqueue | internal/action/domain.go:183-189 | all virtio-scsi controllers get the queues and no other controller changes |
| DomainAction.ChainsDescend | internal/action/domain.go:253-277 | in every undisputed reachable state age is a rank on each host's chains, so the loop ends |
| DomainAction.ChainsResolve | internal/action/domain.go:253-277 | with file and block volumes only, no chain runs into a missing or unsupported volume |
| VolumeAction.LiveResize | internal/action/volume.go:271-299 | the first matching disk is resized, and there is no match exactly if no disk matches |
| VolumeAction.MatchIsIdentity | internal/action/volume.go:271-293 | a disk matches a volume if and only if it was attached for that volume |
| VolumeAction.ResizeAttached | internal/action/volume.go:244-300 | the i-th volume that became a disk is resized through the i-th target name, whatever else the definition lists |
| VolumeAction.ResizeExactly | internal/action/volume.go:271-299 | a live resize finds a match if and only if the volume is listed and is a file or a block device |
| VolumeAction.ResizeUnattached | internal/action/domain.go:241-247 | a volume of another kind never became a disk and finds no match |
| HostStore.MonitorsLive | internal/store/host.go:57-144 | until a cancellation each mapped entry has one monitor in its loop, channels are signalled at most once, and what is being signalled is received |
| HostStore.SendCompletes | internal/store/host.go:74-90 | a send can complete if and only if the monitor is in its loop |
| HostStore.NeverDeadlocked | internal/store/host.go:57-91 | until a cancellation at most three steps free the lock, given that Connect returns |
| HostStore.CancelBlocks | internal/store/host.go:127-144 | after a cancellation a Deregister can hold the lock for good |
| HostStore.SessionsDrain | internal/store/host.go:101-121 | the sessions of a retired entry only go, each by its own end |
| HostStore.ClosesEmpty | internal/store/host.go:146-159 | the monitor of an entry retired in time disconnects only with no session open |
| HostStore.ClosesEmptyExactly | internal/store/host.go:93-159 | until a cancellation, a monitor that has counted no sessions disconnects without any in every continuation, if and only if nobody is between Lookup and a session of that entry |
| HostStore.CutOffExactly | internal/store/host.go:93-159 | cancelled or not, no continuation disconnects with a session open, if and only if nobody is between Lookup and a session and the entry is unmapped or the lock is held for good |
| HostStore.ClosedForGood | internal/store/host.go:127-159 | what a monitor has disconnected is never connected again, and its late callers are refused |
| HostStore.EndIsOwn | internal/store/host.go:112-118 | an end removes its session and no other entry's |
| HostStore.LateHolder | internal/store/host.go:93-159 | a run in which a late caller's session is open when the monitor disconnects |
| HostStore.Store.Register | internal/store/host.go:57-80 | maps a new entry with the generation given, leaves other names alone, and returns unless a cancellation left the old monitor gone |
| HostStore.Store.Deregister | internal/store/host.go:82-91 | unmaps the entry and returns once it has been signalled, unless a cancellation left its monitor gone |
| AuthStore.Store.Register | internal/store/auth.go:59-116 | after every file-system call readers find the old files or the new ones, complete; an error changes neither map nor resolved files; other uids are untouched; exact condition for success |
| AuthStore.Store.Exchange | internal/store/auth.go:90-110 | the swap is atomic for readers, and a link left by a failed rename blocks it |
| AuthStore.RenameFails | internal/store/auth.go:96-110 | where renames fail a second registration leaves the swap link behind and the entry keeps the first files |
| AuthStore.Store.Deregister | internal/store/auth.go:118-137 | the entry goes and nothing of another uid changes |
| AuthStore.Store.Lookup | internal/store/auth.go:139-145 | an entry found resolves to the files registered last |
| AuthStore.CleanCounts | internal/store/auth.go:59-137 | in a clean store directories, links and entries correspond one to one |
| AuthStore.Drive | internal/store/auth.go:59-137 | while no file operation fails every sequence of operations leaves exactly the registered uids, each with the files registered last |
| PoolProbe.PoolStatus.Refresh | internal/controller/pool.go:89-163 | a requeue delay is positive and at most the interval; nothing happens before the interval is over; a probe that is completed stores the readiness and the sizes the host answered in this refresh; with calls that succeed a due one is completed, and the next is due an interval later |
| PoolProbe.Drive | internal/controller/pool.go:89-182 | whatever is cut short, a status that says probed shows the host's last answer, readiness and sizes, and completed probes are an interval apart up to the grain of stored times |
| PoolProbe.PacingExactly | internal/controller/pool.go:89-93 | what is due by the stored time is always an interval later, if and only if stored times are exact |
| PoolProbe.TooSoon | internal/controller/pool.go:89-93 | with coarser times, whatever the interval: a run with probes completed at 1 and at the interval |
| GenerationCache.KeysAgree | internal/controller/host.go:110-121 | equal sums have equal parts if and only if the second part has not gone down |
| GenerationCache.KeyMisleads | internal/controller/host.go:110-121 | pointing the host at other credentials one generation behind repeats the key |
| GenerationCache.Caches.ReconcileHost | internal/controller/host.go:99-174 | the client kept or dialled was dialled under the generations just read, and it is dialled anew exactly if they differ |
| GenerationCache.Caches.ReconcileAuth | internal/controller/auth.go:87-137 | the files registered were made from the generations just read, and are registered anew exactly if the key differs; with calls that succeed it does so |

## Left out

- libvirt RPC, XML, SSH and TLS dialling, downloads, checksums, the ISO image and YAML: foreign or I/O code; a host is a map of volumes and domains, XML is the structured value, sizes of sources are arbitrary.
- The address of a PCI device and the capacity of a pool in the protocol: only readiness matters there; a pool's capacity is in PoolProbe.
- Hosts and Auths as objects in the protocol: their guarded deletion follows the pool's; their caches are in GenerationCache, and a missing host is a call that fails.
- The host label of a Pool: it only guards Hosts.
- Labels as strings: a label is the key of the object it names.
- Stale informer caches: reads are current.
- Calls.Cluster.Note: conditions other than Ready, such as DeletionPrevented or Probed, and all messages are not part of the state; their update is a call that may fail and moves the version.
- The webhooks' search loops: the uniqueness they check is an assumption on creation.
- Concurrent changes on the host during one Disk call in DomainAction: the walk is over the host as it is; in DomainController the walk is a call that may fail.
- Definition fields without branching (CPU, memory, firmware, interfaces, PCI addresses).
- Races.DeletionRace: like the other runs of that module it lists calls in the order of the code, it is not computed from the reconcilers' methods; what every overlap leads to is said by Races.OverlapDecides.
- Calls.Cluster.Interfere: stands for concurrent reconciles by their enabled calls, not by replaying their bodies.
- HostStore.Store.Register: the wait for the lock is not modelled; a call starts when it has it.
- AuthStore.Store.Register: an error of Close is only logged by the code and has no counterpart.
- GenerationCache.Caches.ReconcileHost: the client's connection and the probe behind it are not part of this model.
