/** The lifecycle of an instance with its sidecars over a cluster, as functions on values: what
    each operation does for every pattern of failing calls. */
module Lifecycle {

  import opened Wrappers
  import opened Text
  import opened PodSpec
  import opened Cluster

  datatype State = StateNone | StatePreparing | StateCommitted | StateStarted | StateStopped | StateDestroyed

  /** The error an operation returns; of a chain of wrapped errors, the outermost. */
  datatype Error =
    // execution.go
    | ErrStartingNotAllowed | ErrStartingNotAllowedForSidecar | ErrStartingSidecarNotAllowed
    | ErrDeployingResourcesForInstance | ErrDeployingPodForInstance
    | ErrStoppingNotAllowed | ErrDestroyingNotAllowed | ErrDestroyingPod
    | ErrDestroyingResourcesForInstance | ErrDestroyingResourcesForSidecars
    // network.go
    | ErrDisablingNetworkNotAllowed | ErrDisablingNetwork | ErrEnablingNetworkNotAllowed | ErrEnablingNetwork
    | ErrAddingPortNotAllowed | ErrPortNumberOutOfRange | ErrPortAlreadyRegistered | ErrUDPPortAlreadyRegistered
    // instance.go; a name without letters and digits panics
    | ErrInstanceNameAlreadyExists | EmptyNamePanic | ErrCannotCloneInstance
    // build.go
    | ErrSettingImageNotAllowed | ErrSettingImageNotAllowedForSidecarsStarted | ErrGettingBuildDir | ErrCreatingBuilder
    | ErrSettingGitRepo | ErrGettingBuildContext | ErrGettingImageName | ErrBuildingFromGitRepo
    | ErrCommittingNotAllowed | ErrGeneratingImageHash | ErrPushingImage
    | ErrAddingCommandNotAllowed | ErrSettingUserNotAllowed | ErrSettingCommand
    | ErrSettingArgsNotAllowed | ErrSettingEnvNotAllowed
    // storage.go
    | ErrAddingFileNotAllowed | ErrCopyingFile
    | ErrSrcMustBeSet | ErrDestMustBeSet | ErrChownMustBeSet | ErrChownMustBeInFormatUserGroup
    | ErrFailedToConvertToInt64 | ErrSrcDoesNotExist
    | ErrFileTooLargeCommitted | ErrTotalFilesSizeTooLarge
    | ErrAddingVolumeNotAllowed | ErrMaximumVolumesExceeded
    // security.go
    | ErrAddingPolicyRuleNotAllowed | ErrAddingCapabilityNotAllowed | ErrSettingPrivilegedNotAllowed
    // sidecars.go
    | ErrAddingSidecarNotAllowed | ErrInitializingSidecar | ErrSidecarNotCommitted | ErrSidecarCannotHaveSidecar
    // any setter, where it does not matter which
    | ErrConfiguringNotAllowed

  /** One instance as far as the lifecycle operations look at it. The service ports are the
      instance's own followed by those of its sidecars. */
  datatype Member = Member(
    name: string, state: State, isSidecar: bool,
    image: string, command: seq<string>, args: seq<string>, env: map<string, string>,
    volumes: seq<Volume>, files: seq<File>, tcp: seq<int>, udp: seq<int>,
    serviceTcp: seq<int>, serviceUdp: seq<int>,
    rules: seq<string>, hasService: bool)
  {
    /** A clone: no sidecar, even if this one is, and not yet with a service. */
    function Cloned(newName: string): Member { this.(name := newName, isSidecar := false, hasService := false) }

    predicate HasPorts() { serviceTcp != [] || serviceUdp != [] }

    function Config(): ContainerConfig {
      ContainerConfig(name, image, command, args, env, volumes, files, tcp, udp)
    }
  }

  /** An instance and the sidecars that start, stop and end with it. */
  datatype Group = Group(self: Member, sidecars: seq<Member>)
  {
    function Members(): seq<Member> { [self] + sidecars }

    function Names(): set<string> { set m | m in Members() :: m.name }

    function Pod(): PodConfig {
      PodConfig(self.name, self.name, self.Config(),
          seq(|sidecars|, i requires 0 <= i < |sidecars| => sidecars[i].Config()))
    }

    function WithState(s: State): Group {
      Group(self.(state := s), seq(|sidecars|, i requires 0 <= i < |sidecars| => sidecars[i].(state := s)))
    }
  }

  datatype Effect = Effect(api: Api, group: Group, err: Option<Error>)

  // ---------------------------------------------------------------- pods

  function DeployPod(a: Api, g: Group): Reply {
    var n := g.self.name;
    var sa := a.Create(Key(ServiceAccount, n), Bare);
    if !sa.ok then sa
    else if g.self.rules == [] then sa.api.Create(Key(ReplicaSet, n), Template(g.Pod()))
    else
      var role := sa.api.Create(Key(Role, n), Rules(g.self.rules));
      if !role.ok then role
      else
        var binding := role.api.Create(Key(RoleBinding, n), Bare);
        if !binding.ok then binding
        else binding.api.Create(Key(ReplicaSet, n), Template(g.Pod()))
  }

  function DestroyPod(a: Api, m: Member): Reply {
    var rs := a.DeleteIfPresent(Key(ReplicaSet, m.name));
    if !rs.ok then rs
    else
      var sa := rs.api.Delete(Key(ServiceAccount, m.name));
      if !sa.ok || m.rules == [] then sa
      else
        var role := sa.api.Delete(Key(Role, m.name));
        if !role.ok then role else role.api.Delete(Key(RoleBinding, m.name))
  }

  // ---------------------------------------------------------------- resources

  /** The data of the ConfigMap: one entry per file, under its index. */
  function FileData(files: seq<File>, disk: map<string, string>): map<string, string>
    requires forall f | f in files :: f.source in disk
  {
    if files == [] then map[]
    else FileData(files[..|files| - 1], disk)[Decimal(|files| - 1) := disk[files[|files| - 1].source]]
  }

  /** The numerals of the first n positions. */
  ghost function Numerals(n: nat): set<string> { set i | 0 <= i < n :: Decimal(i) }

  lemma NewNumeral(n: nat)
    ensures Decimal(n) !in Numerals(n) && Numerals(n + 1) == Numerals(n) + {Decimal(n)}
  {
    if Decimal(n) in Numerals(n) {
      var i :| 0 <= i < n && Decimal(i) == Decimal(n);
      DecimalInjective(i, n);
    }
    forall k ensures k in Numerals(n + 1) <==> k in Numerals(n) || k == Decimal(n) {
      if k in Numerals(n + 1) {
        var i :| 0 <= i < n + 1 && Decimal(i) == k;
        assert i < n ==> Decimal(i) in Numerals(n);
      }
      assert k == Decimal(n) ==> Decimal(n) in Numerals(n + 1);
    }
  }

  lemma {:induction false} FileDataKeys(files: seq<File>, disk: map<string, string>)
    requires forall f | f in files :: f.source in disk
    ensures FileData(files, disk).Keys == Numerals(|files|) && |FileData(files, disk)| == |files|
  {
    if files != [] {
      var n, front := |files| - 1, files[..|files| - 1];
      FileDataKeys(front, disk);
      NewNumeral(n);
      var d, e := FileData(front, disk), FileData(files, disk);
      assert e.Keys == d.Keys + {Decimal(n)};
      assert |e.Keys| == |d.Keys| + 1;
    } else {
      assert Numerals(0) == {};
    }
  }

  lemma {:induction false} FileDataEntry(files: seq<File>, disk: map<string, string>, i: nat)
    requires i < |files| && forall f | f in files :: f.source in disk
    ensures Decimal(i) in FileData(files, disk) && FileData(files, disk)[Decimal(i)] == disk[files[i].source]
  {
    var n, front := |files| - 1, files[..|files| - 1];
    if i < n {
      FileDataEntry(front, disk, i);
      if Decimal(i) == Decimal(n) { DecimalInjective(i, n); }
    }
  }

  /** One entry per file, under pairwise distinct keys: the numerals of the files' positions. */
  lemma FileDataIs(files: seq<File>, disk: map<string, string>)
    requires forall f | f in files :: f.source in disk
    ensures var data := FileData(files, disk);
            && data.Keys == Numerals(|files|) && |data| == |files|
            && forall i | 0 <= i < |files| :: Decimal(i) in data && data[Decimal(i)] == disk[files[i].source]
  {
    FileDataKeys(files, disk);
    forall i | 0 <= i < |files|
      ensures Decimal(i) in FileData(files, disk) && FileData(files, disk)[Decimal(i)] == disk[files[i].source]
    {
      FileDataEntry(files, disk, i);
    }
  }

  function TotalSize(volumes: seq<Volume>): nat {
    if volumes == [] then 0 else TotalSize(volumes[..|volumes| - 1]) + volumes[|volumes| - 1].size
  }

  function DeployService(a: Api, m: Member): Reply {
    if !m.HasPorts() then Reply(a, true)
    else
      var svc := a.ServicePointer();
      if svc.ok then svc.api.Put(Key(Service, m.name), Ports(m.serviceTcp, m.serviceUdp))
      else svc.api.Create(Key(Service, m.name), Ports(m.serviceTcp, m.serviceUdp))
  }

  function DeployVolume(a: Api, m: Member): Reply {
    if m.volumes == [] then Reply(a, true)
    else
      var claim := a.Exists(Key(VolumeClaim, m.name));
      if claim.ok then claim
      else claim.api.Create(Key(VolumeClaim, m.name), Size(TotalSize(m.volumes)))
  }

  function DeployFiles(a: Api, m: Member, disk: map<string, string>): Reply {
    if m.files == [] then Reply(a, true)
    else if forall f | f in m.files :: f.source in disk then
      a.CreateOrUpdate(Key(ConfigMap, m.name), Entries(FileData(m.files, disk)))
    else Reply(a, false)
  }

  datatype Deployed = Deployed(api: Api, member: Member, ok: bool)

  /** Equal but for the pointer to the service. */
  predicate ServiceAside(m: Member, n: Member) { n == m.(hasService := n.hasService) }

  /** deployResources of one instance; only instances that are not sidecars have a service. */
  function DeployResources(a: Api, m: Member, disk: map<string, string>): (d: Deployed)
    ensures ServiceAside(m, d.member)
  {
    var service := if m.isSidecar then Reply(a, true) else DeployService(a, m);
    if !service.ok then Deployed(service.api, m, false)
    else
      var m1 := if m.isSidecar then m else m.(hasService := m.hasService || m.HasPorts());
      var volume := DeployVolume(service.api, m1);
      if !volume.ok then Deployed(volume.api, m1, false)
      else
        var files := DeployFiles(volume.api, m1, disk);
        Deployed(files.api, m1, files.ok)
  }

  datatype DeployedAll = DeployedAll(api: Api, sidecars: seq<Member>, ok: bool)

  /** PreStart and deployResources of sidecar i, unless an earlier one failed. */
  function DeployNext(before: DeployedAll, i: nat, disk: map<string, string>): (r: DeployedAll)
    requires i < |before.sidecars|
    ensures |r.sidecars| == |before.sidecars|
  {
    if !before.ok then before
    else
      var prestart := before.api.Other();
      if !prestart.ok then before.(api := prestart.api, ok := false)
      else
        var d := DeployResources(prestart.api, before.sidecars[i], disk);
        DeployedAll(d.api, before.sidecars[i := d.member], d.ok)
  }

  /** The same for the first n sidecars, in order. */
  function DeploySidecars(a: Api, sidecars: seq<Member>, disk: map<string, string>, n: nat): (r: DeployedAll)
    requires n <= |sidecars|
    ensures |r.sidecars| == |sidecars|
  {
    if n == 0 then DeployedAll(a, sidecars, true)
    else DeployNext(DeploySidecars(a, sidecars, disk, n - 1), n - 1, disk)
  }

  function EnableIfDisabled(a: Api, m: Member): Reply {
    if m.state != StateStarted then Reply(a, false)
    else
      var disabled := a.PolicyExists(Key(NetworkPolicy, m.name));
      if !disabled.ok then Reply(disabled.api, true) else disabled.api.Delete(Key(NetworkPolicy, m.name))
  }

  /** destroyResources of one instance. */
  function DestroyResources(a: Api, m: Member): Reply {
    var volume := if m.volumes == [] then Reply(a, true) else a.DeleteIfPresent(Key(VolumeClaim, m.name));
    if !volume.ok then volume
    else
      var files := if m.files == [] then Reply(volume.api, true) else volume.api.DeleteExisting(Key(ConfigMap, m.name));
      if !files.ok then files
      else
        var service := if !m.hasService then Reply(files.api, true)
            else files.api.DeleteIfPresent(Key(Service, m.name));
        if !service.ok || m.isSidecar then service else EnableIfDisabled(service.api, m)
  }

  function DestroyNext(before: Reply, m: Member): Reply {
    if !before.ok then before else DestroyResources(before.api, m)
  }

  /** destroyResources of the first n sidecars, stopping at the first error. */
  function DestroySidecars(a: Api, sidecars: seq<Member>, n: nat): Reply
    requires n <= |sidecars|
  {
    if n == 0 then Reply(a, true)
    else DestroyNext(DestroySidecars(a, sidecars, n - 1), sidecars[n - 1])
  }

  // ---------------------------------------------------------------- operations

  predicate Startable(s: State) { s == StateCommitted || s == StateStopped }

  function DeployCommitted(a: Api, g: Group, disk: map<string, string>): Effect {
    var own := DeployResources(a, g.self, disk);
    var g1 := g.(self := own.member);
    if !own.ok then Effect(own.api, g1, Some(ErrDeployingResourcesForInstance))
    else
      var all := DeploySidecars(own.api, g.sidecars, disk, |g.sidecars|);
      Effect(all.api, g1.(sidecars := all.sidecars), if all.ok then None else Some(ErrDeployingResourcesForInstance))
  }

  function Start(a: Api, g: Group, disk: map<string, string>): Effect {
    if !Startable(g.self.state) then Effect(a, g, Some(ErrStartingNotAllowed))
    else if exists m | m in g.sidecars :: !Startable(m.state) then Effect(a, g, Some(ErrStartingNotAllowedForSidecar))
    else if g.self.isSidecar then Effect(a, g, Some(ErrStartingSidecarNotAllowed))
    else
      var e := if g.self.state == StateCommitted then DeployCommitted(a, g, disk) else Effect(a, g, None);
      if e.err.Some? then e
      else
        var pod := DeployPod(e.api, e.group);
        if !pod.ok then Effect(pod.api, e.group, Some(ErrDeployingPodForInstance))
        else Effect(pod.api, e.group.WithState(StateStarted), None)
  }

  function Stop(a: Api, g: Group): Effect {
    if g.self.state != StateStarted then Effect(a, g, Some(ErrStoppingNotAllowed))
    else
      var pod := DestroyPod(a, g.self);
      if !pod.ok then Effect(pod.api, g, Some(ErrDestroyingPod))
      else Effect(pod.api, g.WithState(StateStopped), None)
  }

  function Destroy(a: Api, g: Group): Effect {
    if g.self.state == StateDestroyed then Effect(a, g, None)
    else if g.self.state != StateStarted
        && g.self.state != StateStopped then Effect(a, g, Some(ErrDestroyingNotAllowed))
    else
      var pod := DestroyPod(a, g.self);
      if !pod.ok then Effect(pod.api, g, Some(ErrDestroyingPod))
      else
        var own := DestroyResources(pod.api, g.self);
        if !own.ok then Effect(own.api, g, Some(ErrDestroyingResourcesForInstance))
        else
          var all := DestroySidecars(own.api, g.sidecars, |g.sidecars|);
          if !all.ok then Effect(all.api, g, Some(ErrDestroyingResourcesForSidecars))
          else Effect(all.api, g.WithState(StateDestroyed), None)
  }

  function Disable(a: Api, g: Group): Effect {
    if g.self.state != StateStarted then Effect(a, g, Some(ErrDisablingNetworkNotAllowed))
    else
      var r := a.Create(Key(NetworkPolicy, g.self.name), Bare);
      Effect(r.api, g, if r.ok then None else Some(ErrDisablingNetwork))
  }

  function Enable(a: Api, g: Group): Effect {
    if g.self.state != StateStarted then Effect(a, g, Some(ErrEnablingNetworkNotAllowed))
    else
      var r := a.Delete(Key(NetworkPolicy, g.self.name));
      Effect(r.api, g, if r.ok then None else Some(ErrEnablingNetwork))
  }
}
