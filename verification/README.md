# A verified model of knuu's instance lifecycle and pod specifications

knuu creates test instances in a Kubernetes cluster. This project models, in Dafny, the parts of
it whose correctness spans many functions, and proves what they promise.

- **Lifecycle over a cluster** (`Cluster`, `Lifecycle`, `Footprint`, `Contents`, `Runs`, `Lookups`,
  `Worlds`, `Progress`, `Protocol`, `Stuck`, `Recovery`, `Services`). A cluster is a map from (kind, name) to objects. Every call
  takes its outcome from a script: it works, it is refused, or it takes effect and still reports
  an error. Start, Stop, Destroy, Disable and Enable are functions on an instance with its
  sidecars (a `Group`) and the cluster; runs interleave any number of groups, with any calls
  failing. The main results are an invariant of every reachable world, isolation of instances,
  lockstep of sidecars, conservation of the cluster's contents, and what a successful start leaves
  in it.
- **The objects themselves** (`Instances`, `Ledgers`, `Budget`, `Refinement`, `Preloader`). The classes
  `Instance`, `BuilderFactory`, `SystemDependencies` and `Preloader` hold the fields the program
  updates. Their methods keep the registry of names, the tree of sidecars, the sharing of builder
  factories, the image caches and the file budget in order, and act on the cluster exactly as the
  functions above say. `Refinement` proves that a heap of any number of instances represents a
  world, and that every call leads to the world of a run's next step, so that what is proved of
  runs holds of the objects. A `Ledger` is the value-level bookkeeping of who has which name,
  factory and sidecars; the invariant ties it to the heap.
- **Pod specifications** (`PodSpec`, `FileSystem`, `Routing`, `InitView`, `FilePhase`,
  `VolumePhase`, `Delivery`, `EndToEnd`). The volumes, mounts and init script generated for a container are
  run on a small operational semantics of mounts (longest prefix wins), `mkdir -p`, `cp`,
  `cp -r`, `chown` and `chmod`; what the main container then reads is proved for every order in
  which the mounted directories were listed, and `EndToEnd` proves it of a pod that was started.
- **Smaller cores**: name sanitizing (`Names`), the argument checks of AddFile (`Arguments`), the error type (`Errors`), the Traefik check
  (`Traefik`), decimal numerals and path strings (`Text`).

Conventions of the model:

- The invariants `SystemDependencies.Valid` (names, factories, sidecars) and `Stored` (caches,
  files) are kept under a seal: `forall o | Opened(S, o) :: exists c :: Closed(S, c) && P` means
  just P, since `Opened` and `Closed` always hold. Methods that only need to pass an invariant on
  therefore do not unfold it. `RegistryHolds`, `BuilderUnshared`, `CachesSound` and
  `FilesWithinBudget` say in plain terms what the invariants contain.
- A GET of a service yields a non-nil pointer whether or not the service exists, and a PUT of a
  service creates it when it is absent.
- Outcomes of building, hashing, copying and argument checks are boolean parameters; the hash is
  an arbitrary function of the instructions and the build context.
- Paths are lists of components; `Text.StringOperations` and `Text.KnuuPrefix` show that the
  string operations of the program do on their rendering what the model does on the lists.

## Model

| member | source | states |
|---|---|---|
| Delivery.FilesDelivered | pkg/k8s/pod.go:419-544 | For every listing order, either image and any non-clashing earlier contents of the storage: the init script succeeds iff every volume's path that shows entries shows one the shell's `*` matches; then the main container reads file i as delivered iff there is no volume or one lies above it, and otherwise what its own image has there |
| Delivery.DeliveredAsRequested | pkg/k8s/pod.go:503-534 | What is delivered has the file's content, the mode and owner asked for (or those of the ConfigMap mount), except that the last volume above it imposes its owner, whose number stands in base 10 on both sides of the one colon |
| Text.PairSpells | pkg/k8s/pod.go:529-531 | A pair of numbers with a colon between them is read back as these numbers, negative ones included |
| Delivery.SourcesDelivered | pkg/instance/storage.go:397-419 | End to end: with the ConfigMap that deployFiles writes, the main container reads at each destination the content of that file's source |
| EndToEnd.StartedFilesDelivered | pkg/instance/execution.go:86-123 | The same of a pod that was started: after a successful start of a committed instance, with the ConfigMap it has put into the cluster, each member's main container reads at each destination the source's content under the owner and mode asked for |
| Delivery.EntryMounted | pkg/k8s/pod.go:481-487 | The key the init container mounts at the destination of file i is the one under which deployFiles put the content of its source |
| Lifecycle.FileDataIs | pkg/instance/storage.go:400-419 | deployFiles writes exactly one entry per file, under pairwise distinct decimal keys, entry i holding the content of source i |
| FilePhase.FilesCopied | pkg/k8s/pod.go:503-524 | After the commands of the first k files, with directories created once each, those files and nothing else have changed below /knuu |
| VolumePhase.VolumesRun | pkg/k8s/pod.go:526-534 | Running the volumes' commands succeeds iff no path shows only hidden entries, and keeps each file's content and mode while the last volume above it sets its owner |
| Routing.InitRouteIs | pkg/k8s/pod.go:452-490 | For every listing order, longest-prefix resolution through the init container's mounts leads to one and the same place: the storage below /knuu, the file's ConfigMap entry at its destination, the image elsewhere |
| Routing.MainRouteIs | pkg/k8s/pod.go:419-449 | The main container sees the storage at a path iff a volume or the directory of a file covers it, for every listing order |
| Text.StringOperations | pkg/k8s/pod.go:432-443 | `path.Dir`, splitting and trimming of rendered paths are the list operations of the model |
| PodSpec.BuildContainerVolumes | pkg/k8s/pod.go:419-449 | The loop yields one mount per volume or, without volumes, one per distinct directory of a file |
| PodSpec.BuildInitContainerVolumes | pkg/k8s/pod.go:452-490 | The loop yields the storage mounts below /knuu and one ConfigMap mount per file; none at all without volumes and files |
| PodSpec.BuildInitContainerCommand | pkg/k8s/pod.go:493-544 | The loop yields the script the semantics is applied to |
| PodSpec.PreparePodSpec | pkg/k8s/pod.go:621-642 | The pod specification has one container per configuration, an init container exactly where one is needed, and all their volumes |
| PodSpec.MountsAreDeclared | pkg/k8s/pod.go:598-642 | Every mount of every container and init container names a volume declared in the same specification |
| PodSpec.MountsLeadTo | pkg/k8s/pod.go:373-490 | As long as no two configurations clash, a container mounts the claim named after it if it has volumes and a scratch directory otherwise; its init container mounts the same below /knuu, each file from the ConfigMap named after it under the file's index, and nothing else |
| PodSpec.VolumeNamesDistinct | pkg/k8s/pod.go:373-416 | Volume names are pairwise distinct iff no two configurations clash: equal names, or one the other plus "-config" |
| PodSpec.VolumesAreMounted | pkg/k8s/pod.go:598-642 | With the init container enabled, every declared volume is mounted somewhere |
| Findings.VolumeRunsExactly | pkg/k8s/pod.go:526-534 | In terms of the request: the commands for a volume work unless the init image or the files have something below its path and all of it has a hidden name there |
| Findings.ScriptSucceeds | pkg/k8s/pod.go:493-544 | The whole init script succeeds iff that is so for every volume |
| Findings.HiddenFilesStopThePod | pkg/k8s/pod.go:526-534 | A volume at /data and the one file /data/.env: the request is well-formed and the init container fails |
| Names.SanitizedIsLabel | pkg/k8s/utils.go:46-62 | The result is a DNS-1123 label of 1 to 63 characters that spells the input's letters and digits, cut short only by length |
| Names.PanicsExactlyWithoutAlnum | pkg/k8s/utils.go:46-62 | It panics iff the lower-cased input has no letter or digit; truncating never empties a name |
| Names.SanitizeIdempotent | pkg/k8s/utils.go:46-62 | Sanitizing twice is sanitizing once |
| Names.FixedPointsAreLabels | pkg/k8s/utils.go:46-62 | A name is left alone iff it is a valid label |
| Names.RunsBecomeHyphens | pkg/k8s/utils.go:46-62 | Any run of other characters between two labels becomes one hyphen |
| Names.CapitalsDoNotMatter | pkg/k8s/utils.go:46-62 | A label in capitals, whole or in part, becomes that label |
| Names.LongNameCut | pkg/k8s/utils.go:46-62 | A longer name keeps its first 63 characters but for the hyphens that these end with |
| Names.SidecarName | pkg/sidecars/netshaper/netshaper.go:47 | "parent-suffix" survives whole iff it fits into 63 characters, and becomes the parent's own name iff the parent has 62 or 63 |
| Errors.Error.Wrap | pkg/errors/errors.go:47-50 | The wrapped error becomes the join of what was there and the new one, and the history of wrapped errors grows by it |
| Errors.RenderFinishes | pkg/errors/errors.go:34-45 | Error() returns on every graph in which each error not containing its own code wraps only errors of lower rank |
| Errors.TerminationNeedsRank | pkg/errors/errors.go:34-45 | The converse: where Error() returns for every error, such a rank exists |
| Errors.RenderedText | pkg/errors/errors.go:34-50 | An error without its own code renders as its message, ": " and the texts of its non-nil wrapped errors, line by line in the order of Wrap, however the joins nest |
| Errors.WrapAdds | pkg/errors/errors.go:34-50 | What the last Wrap adds to the text: after ": " if it is the first, in a line of its own otherwise, the text of a plain or chained error, or what another error's Error() returns |
| Errors.OwnCodeIsRaw | pkg/errors/errors.go:34-45 | An error that contains its own code renders as its message as it is, without parameters and wrapped errors |
| Errors.MutualWrapDiverges | pkg/errors/errors.go:34-45 | Two errors of different codes that wrap each other: Error() does not return |
| Traefik.AllDiscovered | pkg/traefik/traefik.go:346-362 | For an arbitrary list of requirements the shrinking nested loop stays in bounds and answers whether each was discovered at least as often as it is required |
| Traefik.DistinctRequirements | pkg/traefik/traefik.go:346-362 | For a duplicate-free list that is: each was discovered, in any order and with any repetitions |
| Traefik.IsTraefikAPIAvailable | pkg/traefik/traefik.go:339-363 | True iff discovery worked and both resource names occur |
| Worlds.Reachable | pkg/instance/execution.go:86-367 | After every run from any cluster, whichever calls fail: each group is in lockstep, each object named after a member is one that its Destroy deletes, names are disjoint, and objects of other names are as they were |
| Worlds.Isolation | pkg/instance/execution.go:308-367 | An operation on one instance leaves the other groups and all objects bearing their members' names as they were |
| Worlds.ReachableLockstep | pkg/instance/sidecars.go:73-100 | In every reachable world an instance that is started or destroyed has all its sidecars in the same state; otherwise each is committed or stopped |
| Runs.OpLockstep | pkg/instance/execution.go:86-123 | Every operation keeps lockstep; Destroyed is never left, None never entered again, and the sidecar checks of a start never fail |
| Worlds.Conservation | pkg/instance/execution.go:238-269 | Once every instance is destroyed, after any run with any failures, the cluster is what it was except for the network policies that a failed lookup passed over; exactly what it was iff there are none |
| Worlds.FaultFreeConservation | pkg/instance/execution.go:238-269 | If no call of a Destroy fails, the cluster is exactly what it was, whatever else was done and failed |
| Worlds.RenameKeeps | pkg/instance/instance.go:110-124 | A member may take another name within a run iff nothing in the cluster bears its present one |
| Worlds.StuckForever | pkg/instance/execution.go:308-367 | A stuck instance stays stuck in every further run and is never destroyed |
| Stuck.StuckStays | pkg/instance/execution.go:308-367 | Committed with its service account in the cluster, or started without it: no operation, whichever calls fail, leads out |
| Stuck.StartRetry | pkg/instance/execution.go:86-123 | A failed start can be repeated with success iff it has not created the service account |
| Stuck.StopRetry | pkg/instance/execution.go:204-217 | A failed stop can be repeated with success iff it has not deleted the service account |
| Recovery.StoppedStartRecovers | pkg/instance/execution.go:308-367 | After any failed start of a stopped instance Destroy fails and the next start works; the ConfigMaps are still complete iff the instance has no files or the pod had not got as far as its ReplicaSet |
| Recovery.DestroyThenStart | pkg/instance/execution.go:86-123 | After any failed start Destroy and then Start bring the instance up iff it was stopped or its service account was not created |
| Progress.DestroyExactly | pkg/instance/execution.go:238-269 | Without failing calls, destroying a started instance works iff every member with files has its ConfigMap |
| Progress.DestroyStoppedFails | pkg/instance/execution.go:238-269 | A stopped instance that is no sidecar is never destroyed, whatever the cluster holds and whichever calls work |
| Worlds.StoppedSurvives | pkg/instance/execution.go:238-269 | In any world Destroy leaves a stopped instance and all other instances as they are |
| Worlds.DestroyedWasStarted | pkg/instance/execution.go:238-269 | In any step of any world an instance only comes to be destroyed right from being started |
| Protocol.ProtocolProgress | pkg/instance/execution.go:86-269 | Without failing calls every operation, SetImage, Commit, changes and added sidecars included, succeeds iff it is due, changes nothing otherwise, and leaves the cluster as the next one needs it |
| Protocol.ProtocolConserves | pkg/instance/execution.go:86-269 | For any new instance or clone and any plan of SetImage, Commit, Start (Stop Start)* Destroy, with the network cut off and reconnected while started and with configuration and sidecars added whenever that is allowed, SetImage and Commit following on what was added while stopped: every operation succeeds and the cluster ends as it began |
| Footprint.StartAtomic | pkg/instance/execution.go:86-123 | Whichever call fails, a failed start leaves every member's state; a successful one starts all |
| Footprint.StopDestroyAtomic | pkg/instance/execution.go:204-269 | A failed Stop or Destroy changes no member; a successful one moves all of them |
| Footprint.StartFootprint | pkg/instance/resources.go:72-114 | Whatever fails, a start only adds objects of the group's own names and kinds, and knows its service iff it deployed one |
| Contents.StartDeploys | pkg/instance/execution.go:86-430 | Whatever was in the cluster and whichever calls failed on the way, a successful start leaves the ReplicaSet with one container for the instance and one for each sidecar, each with that member's name, image, command, arguments, environment, volumes, files and ports, under an account and a role with the instance's rules; and from Committed, for every member, the service with its ports, the claim of the summed size and the ConfigMap with the files' contents under their positions |
| Contents.VolumesBacked | pkg/instance/resources.go:72-99 | After a successful start from Committed every claim and ConfigMap that the pod's specification refers to is in the cluster |
| Contents.TotalSizeIs | pkg/instance/storage.go:358-384 | The size of a claim is the sum of the sizes of the volumes |
| Footprint.StopTakesPod | pkg/instance/execution.go:204-217 | A successful stop takes away exactly the ReplicaSet with its account, role and binding; services, claims, ConfigMaps and policies stay |
| Footprint.DestroyStopsAtConfigMap | pkg/instance/resources.go:117-145 | When the ConfigMap is not there, the claim is gone already, the service and the policy stay, and that is an error |
| Footprint.DestroyFootprint | pkg/instance/resources.go:117-145 | Whatever fails, Destroy only deletes objects of the group's names; when it succeeds none is left but a policy passed over |
| Services.ServiceExactly | pkg/instance/resources.go:72-114 | Without failing calls deployResources creates a service iff the instance is no sidecar and it or its sidecars have ports |
| Services.StartServes | pkg/instance/execution.go:290-305 | The same for every member of a group that is started from Committed |
| Services.ClonesServe | pkg/instance/sidecars.go:102-114 | A sidecar never gets a service when its owner starts; its clone gets one iff it has ports |
| Services.ClonedShaperServes | pkg/sidecars/netshaper/netshaper.go:102-113 | An instance with the traffic shaper on port 9009 and its clone: the start of the one creates one service, that of the other two |
| RunFindings.PolicyLeftBehind | pkg/instance/network.go:301-316 | A run (Start, Disable, Destroy with a failing lookup of the policy) that succeeds and leaves the policy in the cluster |
| RunFindings.FileAddedWhileStopped | pkg/instance/storage.go:34-78 | A run without a failing call after which an instance can never be stopped or destroyed |
| RunFindings.RenamedWhileStarted | pkg/instance/instance.go:110-124 | A started instance takes another name, its Destroy fails, and all that was deployed stays under the old name |
| Ledgers.RegistryInjective | pkg/system/dependencies.go:25-36 | In every reachable ledger the registry is the set of all names in use, no two of which are equal |
| Instances.SystemDependencies.RegistryHolds | pkg/system/dependencies.go:25-36 | The same of the heap: the registry is exactly the names of all instances and preloaders, orphans of failed clones included, and they are pairwise distinct |
| Instances.SystemDependencies.BuilderUnshared | pkg/instance/build.go:49-77 | A factory that may still be changed, since its instance is preparing, is in no other instance's hands |
| Instances.Instance.BuilderOwn | pkg/instance/instance.go:143-184 | The factory that configuring an instance may change is no other instance's, clones and originals included |
| Instances.SystemDependencies.CachesSound | pkg/instance/build.go:288-300 | Every cached image, in clones too, is "ttl.sh/", its hash and ":24h" and was pushed; two entries, of one cache or of two, name the same image iff their hashes are equal |
| Instances.SystemDependencies.FilesWithinBudget | pkg/instance/storage.go:317-347 | The files of every instance, clones included, exist; no two of them have more than 1 MiB together, and neither have all entries of the ConfigMap made of them |
| Budget.FilesSizeAdds | pkg/instance/storage.go:326-341 | What the budget is compared with: one file counts with the length of its source, and lists of files add up |
| Budget.FileDataSize | pkg/instance/storage.go:397-419 | The entries of the ConfigMap have together the size of the files |
| Instances.Instance.New | pkg/instance/instance.go:46-104 | A new instance takes the sanitized name iff it is free; otherwise nothing changes |
| Instances.Instance.SetName | pkg/instance/instance.go:110-124 | Renaming works iff the sanitized name exists and is free; a failed one changes nothing, a successful one takes the old name out of the registry and puts the new one in |
| Instances.Instance.SetImage | pkg/instance/build.go:49-77 | When it fails, and how; on success a fresh factory of that image is installed and nobody else has it; on failure nothing changes |
| Instances.Instance.SetGitRepo | pkg/instance/build.go:81-115 | From state None only; which failure comes first; a failing build is the one failure that leaves the instance preparing |
| Instances.Instance.Commit | pkg/instance/build.go:174-232 | When it fails, and how; an untouched factory gives its base image; otherwise, cached or not, the image is "ttl.sh/", the hash of instructions and context, and ":24h", and has been pushed; a failure changes nothing; nobody else's factory changes |
| Instances.Instance.CommitsApart | pkg/instance/build.go:235-245 | Two instances committed with changed factories have the same image iff the hashes are equal |
| Instances.Instance.ExecuteCommand | pkg/instance/build.go:139-146 | Only while preparing; appends its instruction to the instance's own factory and leaves every other instance's factory as it was |
| Instances.Instance.SetUser | pkg/instance/build.go:150-161 | The same of the user |
| Instances.Instance.SetEnvironmentVariable | pkg/instance/build.go:269-285 | While preparing the variable goes into the factory, otherwise into the pod, overriding an earlier value; every other instance's factory stays as it was |
| Instances.Instance.CloneWithName | pkg/instance/instance.go:143-184 | The clone has state, image, cached images, the very factory, command, arguments, environment, volumes, files, ports, rules, capabilities and privilege of the original, and so has each of its sidecars, all under names of their own; a failed clone leaves every instance as it was and only adds named orphans |
| Instances.Instance.AddSidecar | pkg/instance/sidecars.go:40-70 | A sidecar is set up under the derived name, with its port, variable, capability and privilege, committed, owned and last in the list; when it fails, and that the list stays |
| Instances.Instance.LongNamesTakeNoSidecar | pkg/instance/sidecars.go:40-70 | An instance whose name has 62 or 63 characters is always refused a sidecar, because the name is taken |
| Instances.Instance.SetStateForSidecars | pkg/instance/sidecars.go:93-100 | The loop moves every sidecar and keeps the invariant |
| Instances.Instance.AddFile | pkg/instance/storage.go:34-78 | Which of its failures comes first, each argument check included; while preparing the factory gets an ADD, later the list of files grows if the budget allows it; the copy stays on the disk even when the file is refused; every other instance's factory stays as it was |
| Arguments.ArgumentsAccepted | pkg/instance/storage.go:245-275 | The arguments of AddFile are accepted iff source, destination and owner are given, the owner is a pair of 64-bit numbers and the source exists; when each of the complaints comes |
| Arguments.NumbersAccepted | pkg/instance/storage.go:269-273 | Of the numbers in base 10 exactly those of 64 bits are accepted |
| Arguments.ChownAccepted | pkg/instance/storage.go:253-275 | An owner is accepted iff it is two 64-bit numbers with a colon between them |
| Instances.Instance.AddFileToInstance | pkg/instance/storage.go:317-347 | The summing loop accepts the file iff all files together stay within the budget |
| Instances.Instance.AddVolumeWithOwner | pkg/instance/storage.go:184-205 | At most one volume, and only while configurable |
| Instances.Instance.AddPortTCP | pkg/instance/network.go:27-45 | A port is added iff it is in range, not yet registered and the instance is configurable |
| Instances.Instance.AddPortUDP | pkg/instance/network.go:103-121 | The same for UDP |
| Instances.Instance.DeployService | pkg/instance/resources.go:101-114 | The service has the instance's ports followed by those of its sidecars, is deployed iff there are any, and is known afterwards iff that worked |
| Instances.PortsFollow | pkg/instance/resources.go:101-107 | The merged ports are those of one instance after another |
| Instances.Instance.DeployFiles | pkg/instance/storage.go:397-430 | The loop over the files builds the ConfigMap whose entries FileDataIs describes, and creates or updates it |
| Instances.Instance.DestroyResources | pkg/instance/resources.go:117-145 | Claim, ConfigMap, service and, unless it is a sidecar, policy go in this order, up to the first error |
| Instances.Instance.PodConfiguration | pkg/instance/execution.go:370-430 | The loop over the sidecars yields a pod with the fields of this instance and, container by container, of each sidecar |
| Instances.Instance.StartAsync | pkg/instance/execution.go:86-123 | Acts on cluster and instances as Start does on their group, loops over sidecars and all; a successful call leaves in the cluster the pod with the fields of this instance and of its sidecars and its role, and from Committed the service with the merged ports and what `Contents.StartDeploys` lists |
| Instances.Instance.Stop | pkg/instance/execution.go:204-217 | Acts as Stop does on the group |
| Instances.Instance.Destroy | pkg/instance/execution.go:238-269 | Acts as Destroy does on the group |
| Instances.Instance.DisableNetwork | pkg/instance/network.go:243-253 | Acts as Disable does on the group |
| Instances.Instance.EnableNetwork | pkg/instance/network.go:257-267 | Acts as Enable does on the group |
| Refinement.Start | pkg/instance/execution.go:86-123 | In a heap that represents a world, StartAsync on one root leads to a heap that represents the world after that step of a run: every other root, with its sidecars, shows the group it showed |
| Refinement.Stop | pkg/instance/execution.go:204-217 | The same of Stop |
| Refinement.Destroy | pkg/instance/execution.go:238-269 | The same of Destroy |
| Refinement.DisableNetwork | pkg/instance/network.go:243-253 | The same of Disable |
| Refinement.EnableNetwork | pkg/instance/network.go:257-267 | The same of Enable |
| Refinement.SetImage | pkg/instance/build.go:49-77 | The same of SetImage, which leaves the world as it is when it fails |
| Refinement.Commit | pkg/instance/build.go:174-232 | The same of Commit |
| Refinement.AddFile | pkg/instance/storage.go:34-78 | The same of AddFile, as an example of the setters |
| Refinement.SetName | pkg/instance/instance.go:110-124 | The same of SetName, to a name new to the world |
| Refinement.AddSidecar | pkg/instance/sidecars.go:40-70 | The same of adding a sidecar, under a name new to the world |
| Refinement.New | pkg/instance/instance.go:46-104 | A new instance joins the world as a newborn group; when naming it fails the world stays |
| Refinement.CloneWithName | pkg/instance/instance.go:143-184 | A clone joins the world as a newborn group like the original's under names of its own; orphans of a failed clone change no group |
| Preloader.WithoutIs | pkg/preloader/preloader.go:72-80 | Removing takes out the one image where it stands, leaves the rest as it is and has no duplicates |
| Preloader.PreloadSyncs | pkg/preloader/preloader.go:89-136 | When preloading succeeds the DaemonSet holds the images in order, or is absent when there are none, and no other object has changed; without failing calls it succeeds unless it would delete an absent DaemonSet |
| Preloader.PreloaderRun | pkg/preloader/preloader.go:59-86 | However the list is changed it never holds an image twice, and while changes succeed the DaemonSet follows it |
| Preloader.ContainersDistinct | pkg/preloader/preloader.go:89-136 | The DaemonSet has one init container per image, in order, under distinct names |
| Preloader.Preloader.New | pkg/preloader/preloader.go:39-51 | A preloader takes a name that no instance and no other preloader has |
| Preloader.Preloader.AddImage | pkg/preloader/preloader.go:59-69 | An image that is listed is not added again and nothing is called; otherwise it comes last, after those there were, and the list is preloaded |
| Preloader.Preloader.Cut | pkg/preloader/preloader.go:72-78 | The range loop over the shrinking slice stays in bounds and computes the order-preserving filter on the shared array |
| Preloader.Preloader.RemoveImage | pkg/preloader/preloader.go:72-80 | The image is filtered out and the rest preloaded |
| Preloader.Preloader.EmptyImages | pkg/preloader/preloader.go:83-86 | The list becomes a new, empty one and the DaemonSet is deleted |

## Findings

What the code does not do, each with the lemma that shows it and, where there is one, the exact
condition under which it does.

- A network policy can survive a successful Destroy: the lookup takes every failure for absence
  (`RunFindings.PolicyLeftBehind`; exact condition in `Worlds.Conservation`).
- A file added to a stopped instance that is started again without SetImage and Commit has no
  ConfigMap, and the instance can then never be destroyed (`RunFindings.FileAddedWhileStopped`;
  exact condition in `Progress.DestroyExactly`). Nothing fails on the way. A started clone of a
  stopped instance is in the same position, since only a committed start deploys resources.
- A start from Committed that fails once the service account exists, and a stop or destroy of a
  started instance that fails once it is gone, can never be completed (`Stuck.StuckStays`,
  `Worlds.StuckForever`; which immediate retries work is said in `Stuck.StartRetry` and
  `Stuck.StopRetry`). A failed start from Stopped is recovered by a Destroy, which fails as well,
  and another Start, but that Destroy may have deleted the instance's ConfigMap
  (`Recovery.StoppedStartRecovers`; exact condition in `Recovery.DestroyThenStart`).
- A stopped instance can never be destroyed (`Progress.DestroyStoppedFails`,
  `Worlds.DestroyedWasStarted`).
- SetName is accepted in every state; of a started instance it orphans all its objects
  (`RunFindings.RenamedWhileStarted`; exact condition in `Worlds.RenameKeeps`).
- A volume below whose path all requested files have hidden names stops the pod
  (`Findings.HiddenFilesStopThePod`; exact condition in `Findings.ScriptSucceeds`).
- With a volume, files outside its path are copied into the storage and never seen
  (`Delivery.FilesDelivered`).
- Two errors that wrap each other cannot be rendered (`Errors.MutualWrapDiverges`; exact condition
  in `Errors.RenderFinishes` and `Errors.TerminationNeedsRank`).
- An instance with a name of 62 or 63 characters cannot have sidecars
  (`Instances.Instance.LongNamesTakeNoSidecar`).
- A cloned sidecar is no longer marked as one and so deploys a service of its own
  (`Services.ClonedShaperServes`; exact condition in `Services.ClonesServe`).
- Emptying a preloader whose DaemonSet is absent is an error (`Preloader.PreloadSyncs`).

## Left out

- File-system clashes: delivery assumes destinations of at least two components, outside /knuu, none above or equal to another, and images and storage that do not have a file where a directory must go.
- Owners and modes of directories, and of files that were not requested.
- Shell text and its parsing; the init script is a list of commands.
- Instances.Instance.PodConfiguration: does not model resource limits, probes, security context, pull policy, node selector and labels, which are copied from fields that nothing else here reads.
- Renaming a started instance as part of a run: the theorems about runs assume that a name is given up only while nothing in the cluster bears it; what happens otherwise is under Findings.
- Lifecycle operations called directly on a sidecar, and exported SetState: sidecars are driven through their parent.
- Objects made by a sidecar's PreStart in Traefik, and custom resources; only whether PreStart works is modelled.
- Reading the build context, hashing, Kaniko, Docker and Minio; their outcomes are parameters, and the hash is an arbitrary function without a claim about collisions.
- Files added while preparing: only the ADD instruction is modelled, not whether the file reaches the build context, since every call makes a new build directory.
- The chain of wrapped errors an operation returns: only the outermost is kept.
- Waiting loops, timeouts, port forwarding, logging and command execution in pods.
- Concurrent use of one registry, and races between checking and taking a name.
- Sidecars other than the traffic shaper: AddSidecar sets up an instance as that one does.
- Contents of Template and Size objects are compared as values; how the API server defaults them is not modelled.
