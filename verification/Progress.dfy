/** Without failing calls: which operations succeed, and that following the documented
    protocol an instance can always be started, stopped and destroyed. */
module Progress {

  import opened Wrappers
  import opened Text
  import opened PodSpec
  import opened Cluster
  import opened Lifecycle
  import opened Footprint
  import opened Runs

  /** The pod's objects exist exactly while the instance is started. */
  ghost predicate PodExact(a: Api, g: Group) {
    && (Key(ReplicaSet, g.self.name) in a.objs <==> g.self.state == StateStarted)
    && (Key(ServiceAccount, g.self.name) in a.objs <==> g.self.state == StateStarted)
    && (Key(Role, g.self.name) in a.objs <==> g.self.state == StateStarted && g.self.rules != [])
    && (Key(RoleBinding, g.self.name) in a.objs <==> g.self.state == StateStarted && g.self.rules != [])
  }

  predicate HasConfigMap(a: Api, m: Member) { m.files != [] ==> Key(ConfigMap, m.name) in a.objs }

  /** Every member with files has its ConfigMap in the cluster. */
  ghost predicate Filed(a: Api, g: Group) {
    HasConfigMap(a, g.self) && forall i | 0 <= i < |g.sidecars| :: HasConfigMap(a, g.sidecars[i])
  }

  ghost predicate Readable(g: Group, disk: map<string, string>) {
    forall m, f | m in g.Members() && f in m.files :: f.source in disk
  }

  /** What the protocol maintains; `dirty` tells that a stopped instance may have been changed
      since its resources were deployed. */
  ghost predicate Tidy(a: Api, g: Group, disk: map<string, string>, dirty: bool) {
    && a.FaultFree() && Lockstep(g) && DistinctMembers(g) && PodExact(a, g) && Readable(g, disk)
    && !g.self.isSidecar
    && (g.self.state == StateStarted || (g.self.state == StateStopped && !dirty) ==> Filed(a, g))
  }

  ghost predicate Orderly(a: Api, g: Group, disk: map<string, string>) { Tidy(a, g, disk, false) }

  // ---------------------------------------------------------------- deploying

  /** From a to b nothing has disappeared and no call has failed yet. */
  ghost predicate Keeps(a: Api, b: Api) { b.FaultFree() && a.objs.Keys <= b.objs.Keys }

  /** From a to b no object of the pod has appeared. */
  ghost predicate NoNewPods(a: Api, b: Api) {
    forall k | k in b.objs && k !in a.objs :: k.kind == VolumeClaim || k.kind == ConfigMap || k.kind == Service
  }

  lemma DeployServiceWorks(a: Api, m: Member)
    requires a.FaultFree()
    ensures var r := DeployService(a, m); r.ok && Keeps(a, r.api) && NoNewPods(a, r.api)
  {
  }

  lemma DeployVolumeWorks(a: Api, m: Member)
    requires a.FaultFree()
    ensures var r := DeployVolume(a, m); r.ok && Keeps(a, r.api) && NoNewPods(a, r.api)
  {
  }

  lemma DeployFilesWorks(a: Api, m: Member, disk: map<string, string>)
    requires a.FaultFree() && forall f | f in m.files :: f.source in disk
    ensures var r := DeployFiles(a, m, disk); r.ok && Keeps(a, r.api) && NoNewPods(a, r.api) && HasConfigMap(r.api, m)
  {
  }

  lemma DeployResourcesWorks(a: Api, m: Member, disk: map<string, string>)
    requires a.FaultFree() && forall f | f in m.files :: f.source in disk
    ensures var d := DeployResources(a, m, disk);
            d.ok && Keeps(a, d.api) && NoNewPods(a, d.api)
            && HasConfigMap(d.api, m)
  {
    var service := if m.isSidecar then Reply(a, true) else DeployService(a, m);
    DeployServiceWorks(a, m);
    var m1 := if m.isSidecar then m else m.(hasService := m.hasService || m.HasPorts());
    DeployVolumeWorks(service.api, m1);
    DeployFilesWorks(DeployVolume(service.api, m1).api, m1, disk);
  }

  ghost predicate StepWorks(a: Api, ms: seq<Member>, r: DeployedAll, n: nat) {
    && r.ok && Keeps(a, r.api) && NoNewPods(a, r.api) && RestSame(ms, r.sidecars, n)
    && forall i | 0 <= i < n && i < |ms| :: HasConfigMap(r.api, ms[i])
  }

  lemma DeployNextWorks(a: Api, ms: seq<Member>, before: DeployedAll, i: nat, disk: map<string, string>, r: DeployedAll)
    requires i < |ms| == |before.sidecars| && StepWorks(a, ms, before, i) && r == DeployNext(before, i, disk)
    requires forall f | f in ms[i].files :: f.source in disk
    ensures StepWorks(a, ms, r, i + 1)
  {
    var prestart := before.api.Other();
    assert prestart.ok && prestart.api.FaultFree();
    DeployResourcesWorks(prestart.api, ms[i], disk);
  }

  lemma DeploySidecarsWork(a: Api, ms: seq<Member>, disk: map<string, string>)
    requires a.FaultFree() && forall i, f | 0 <= i < |ms| && f in ms[i].files :: f.source in disk
    ensures StepWorks(a, ms, DeploySidecars(a, ms, disk, |ms|), |ms|)
  {
    var keeps := (r: DeployedAll, i: nat) => StepWorks(a, ms, r, i);
    forall before: DeployedAll, i: nat | i < |ms| && |before.sidecars| == |ms| && keeps(before, i)
      ensures keeps(DeployNext(before, i, disk), i + 1)
    {
      DeployNextWorks(a, ms, before, i, disk, DeployNext(before, i, disk));
    }
    SidecarInduction(a, ms, disk, |ms|, keeps);
  }

  lemma DeployCommittedWorks(a: Api, g: Group, disk: map<string, string>)
    requires a.FaultFree() && Readable(g, disk)
    ensures var e := DeployCommitted(a, g, disk);
            e.err.None? && Keeps(a, e.api) && NoNewPods(a, e.api) && Filed(e.api, g)
  {
    var own := DeployResources(a, g.self, disk);
    assert g.Members()[0] == g.self;
    DeployResourcesWorks(a, g.self, disk);
    forall i, f | 0 <= i < |g.sidecars| && f in g.sidecars[i].files ensures f.source in disk {
      assert g.Members()[i + 1] == g.sidecars[i];
    }
    DeploySidecarsWork(own.api, g.sidecars, disk);
  }

  lemma PlainPodWorks(a: Api, g: Group)
    requires a.FaultFree() && PodExact(a, g) && g.self.state != StateStarted && g.self.rules == []
    ensures var r := DeployPod(a, g);
            r.ok && Keeps(a, r.api) && PodExact(r.api, g.WithState(StateStarted))
  {
    var sa := a.Create(Key(ServiceAccount, g.self.name), Bare);
    assert sa.ok && Keeps(a, sa.api);
  }

  lemma RolesPodWorks(a: Api, g: Group)
    requires a.FaultFree() && PodExact(a, g) && g.self.state != StateStarted && g.self.rules != []
    ensures var r := DeployPod(a, g);
            r.ok && Keeps(a, r.api) && PodExact(r.api, g.WithState(StateStarted))
  {
    var n := g.self.name;
    var sa := a.Create(Key(ServiceAccount, n), Bare);
    assert sa.ok && Keeps(a, sa.api);
    var role := sa.api.Create(Key(Role, n), Rules(g.self.rules));
    assert role.ok && Keeps(a, role.api);
    var binding := role.api.Create(Key(RoleBinding, n), Bare);
    assert binding.ok && Keeps(a, binding.api);
  }

  lemma DeployPodWorks(a: Api, g: Group)
    requires a.FaultFree() && PodExact(a, g) && g.self.state != StateStarted
    ensures var r := DeployPod(a, g);
            r.ok && Keeps(a, r.api) && PodExact(r.api, g.WithState(StateStarted))
  {
    if g.self.rules == [] { PlainPodWorks(a, g); } else { RolesPodWorks(a, g); }
  }

  // ---------------------------------------------------------------- start and stop

  lemma SameFiles(a: Api, g: Group, h: Group)
    requires Filed(a, g) && |h.sidecars| == |g.sidecars|
    requires h.self.files == g.self.files && h.self.name == g.self.name
    requires forall i | 0 <= i < |g.sidecars| ::
            h.sidecars[i].files == g.sidecars[i].files
            && h.sidecars[i].name == g.sidecars[i].name
    ensures Filed(a, h)
  {
  }

  lemma StillReadable(g: Group, h: Group, disk: map<string, string>)
    requires Readable(g, disk) && h.self.files == g.self.files && |h.sidecars| == |g.sidecars|
    requires forall i | 0 <= i < |g.sidecars| :: h.sidecars[i].files == g.sidecars[i].files
    ensures Readable(h, disk)
  {
    forall m, f | m in h.Members() && f in m.files ensures f.source in disk {
      var i :| 0 <= i < |h.Members()| && h.Members()[i] == m;
      assert f in g.Members()[i].files;
    }
  }

  lemma StillFiled(a: Api, b: Api, g: Group)
    requires Keeps(a, b) && Filed(a, g)
    ensures Filed(b, g)
  {
    forall i | 0 <= i < |g.sidecars| ensures HasConfigMap(b, g.sidecars[i]) { assert HasConfigMap(a, g.sidecars[i]); }
  }

  lemma StartedFiles(g: Group, h: Group, deployed: bool)
    requires var before := g.WithState(StateStarted);
             ServiceKnown(before.self, h.self, deployed)
                 && ServicesKnown(before.sidecars, h.sidecars, deployed, |g.sidecars|)
    ensures h.self.files == g.self.files && h.self.name == g.self.name && |h.sidecars| == |g.sidecars|
    ensures forall i | 0 <= i < |g.sidecars| ::
            h.sidecars[i].files == g.sidecars[i].files
            && h.sidecars[i].name == g.sidecars[i].name
  {
    var before := g.WithState(StateStarted);
    forall i | 0 <= i < |g.sidecars| ensures h.sidecars[i].files == g.sidecars[i].files
        && h.sidecars[i].name == g.sidecars[i].name {
      assert ServiceKnown(before.sidecars[i], h.sidecars[i], deployed);
    }
  }

  lemma DeployedForStart(a: Api, g: Group, disk: map<string, string>) returns (r: Effect)
    requires Orderly(a, g, disk) && Startable(g.self.state)
    ensures r == if g.self.state == StateCommitted then DeployCommitted(a, g, disk) else Effect(a, g, None)
    ensures r.err.None? && r.api.FaultFree() && Filed(r.api, g) && PodExact(r.api, r.group)
    ensures r.group.self == g.self.(hasService := r.group.self.hasService)
  {
    r := if g.self.state == StateCommitted then DeployCommitted(a, g, disk) else Effect(a, g, None);
    if g.self.state == StateCommitted {
      DeployCommittedFootprint(a, g, disk);
      DeployCommittedWorks(a, g, disk);
    }
  }

  lemma StartInTwo(a: Api, g: Group, disk: map<string, string>) returns (r: Effect)
    requires Orderly(a, g, disk) && Startable(g.self.state)
    ensures r.err.None? && r.api.FaultFree() && Filed(r.api, g) && PodExact(r.api, r.group)
    ensures r.group.self == g.self.(hasService := r.group.self.hasService)
    ensures DeployPod(r.api, r.group).ok
    ensures Start(a, g, disk) == Effect(DeployPod(r.api, r.group).api, r.group.WithState(StateStarted), None)
  {
    StartLockstep(a, g, disk);
    r := DeployedForStart(a, g, disk);
    DeployPodWorks(r.api, r.group);
  }

  lemma StartKeepsFiles(a: Api, g: Group, disk: map<string, string>, b: Api)
    requires MayStart(g) && Readable(g, disk) && Start(a, g, disk).err.None? && Keeps(b, Start(a, g, disk).api)
            && Filed(b, g)
    requires DistinctMembers(g)
    ensures var e := Start(a, g, disk); Readable(e.group, disk) && Filed(e.api, e.group) && DistinctMembers(e.group)
  {
    var e := Start(a, g, disk);
    StartFootprint(a, g, disk);
    StartedFiles(g, e.group, g.self.state == StateCommitted);
    StillReadable(g, e.group, disk);
    StillFiled(b, e.api, g);
    SameFiles(e.api, g, e.group);
  }

  lemma StartWorks(a: Api, g: Group, disk: map<string, string>)
    requires Orderly(a, g, disk) && Startable(g.self.state)
    ensures var e := Start(a, g, disk); e.err.None? && Orderly(e.api, e.group, disk)
  {
    StartLockstep(a, g, disk);
    var r := StartInTwo(a, g, disk);
    DeployPodWorks(r.api, r.group);
    StartKeepsFiles(a, g, disk, r.api);
  }

  lemma DestroyPodWorks(a: Api, g: Group)
    requires a.FaultFree() && PodExact(a, g) && g.self.state == StateStarted
    ensures var r := DestroyPod(a, g.self);
            && r.ok && r.api.FaultFree() && r.api.objs == a.objs - PodKeys(g.self)
  {
    var n := g.self.name;
    var rs := a.DeleteIfPresent(Key(ReplicaSet, n));
    DeleteIfPresentWorks(a, Key(ReplicaSet, n));
    var sa := rs.api.Delete(Key(ServiceAccount, n));
    DeleteWorks(rs.api, Key(ServiceAccount, n));
    assert sa.api.objs == a.objs - {Key(ReplicaSet, n), Key(ServiceAccount, n)};
    if g.self.rules != [] {
      var role := sa.api.Delete(Key(Role, n));
      DeleteWorks(sa.api, Key(Role, n));
      DeleteWorks(role.api, Key(RoleBinding, n));
      assert role.api.Delete(Key(RoleBinding, n)).api.objs == a.objs - PodKeys(g.self);
    }
  }

  /** Stopping removes no ConfigMap. */
  lemma FiledWithoutPod(a: Api, b: Api, g: Group)
    requires b.objs == a.objs - PodKeys(g.self)
    ensures forall m :: HasConfigMap(b, m) <==> HasConfigMap(a, m)
    ensures Filed(b, g) <==> Filed(a, g)
  {
    forall m ensures HasConfigMap(b, m) <==> HasConfigMap(a, m) {
      assert Key(ConfigMap, m.name) !in PodKeys(g.self);
    }
  }

  lemma StopWorks(a: Api, g: Group, disk: map<string, string>)
    requires Orderly(a, g, disk) && g.self.state == StateStarted
    ensures var e := Stop(a, g); e.err.None? && Orderly(e.api, e.group, disk)
  {
    var e, h := Stop(a, g), g.WithState(StateStopped);
    DestroyPodWorks(a, g);
    FiledWithoutPod(a, e.api, g);
    SameFiles(e.api, g, h);
    StillReadable(g, h, disk);
    Moved(g, StateStopped);
  }

  // ---------------------------------------------------------------- destroy

  lemma DestroyResourcesWorks(a: Api, m: Member)
    requires a.FaultFree() && m.state == StateStarted
    ensures var r := DestroyResources(a, m);
            (r.ok <==> HasConfigMap(a, m)) && r.api.FaultFree()
  {
    var volume := if m.volumes == [] then Reply(a, true) else a.DeleteIfPresent(Key(VolumeClaim, m.name));
    DeleteIfPresentWorks(a, Key(VolumeClaim, m.name));
    var files := if m.files == [] then Reply(volume.api, true) else volume.api.DeleteExisting(Key(ConfigMap, m.name));
    DeleteExistingWorks(volume.api, Key(ConfigMap, m.name));
    var service := if !m.hasService then Reply(files.api, true) else files.api.DeleteIfPresent(Key(Service, m.name));
    DeleteIfPresentWorks(files.api, Key(Service, m.name));
    if files.ok {
      DeleteWorks(service.api.Popped(), Key(NetworkPolicy, m.name));
    }
  }

  /** The sidecars from position i on still have what they had. */
  ghost predicate LaterSame(a: Api, b: Api, ms: seq<Member>, i: nat) {
    forall j | i <= j < |ms| :: HasConfigMap(b, ms[j]) <==> HasConfigMap(a, ms[j])
  }

  ghost predicate DestroyedSoFar(a: Api, ms: seq<Member>, r: Reply, i: nat) {
    && r.api.FaultFree() && LaterSame(a, r.api, ms, i)
    && (r.ok <==> forall j | 0 <= j < i && j < |ms| :: HasConfigMap(a, ms[j]))
  }

  lemma DestroyNextWorks(a: Api, g: Group, before: Reply, i: nat)
    requires DistinctMembers(g) && i < |g.sidecars| && g.sidecars[i].state == StateStarted
    requires DestroyedSoFar(a, g.sidecars, before, i)
    ensures DestroyedSoFar(a, g.sidecars, DestroyNext(before, g.sidecars[i]), i + 1)
  {
    if before.ok {
      var m, r := g.sidecars[i], DestroyNext(before, g.sidecars[i]);
      DestroyResourcesWorks(before.api, m);
      DestroyResourcesFootprint(before.api, m);
      assert HasConfigMap(before.api, m) <==> HasConfigMap(a, m);
      forall j | i + 1 <= j < |g.sidecars| ensures HasConfigMap(r.api, g.sidecars[j]) <==>
          HasConfigMap(a, g.sidecars[j]) {
        assert g.sidecars[j].name != m.name;
      }
    }
  }

  lemma DestroySidecarsWork(a: Api, g: Group)
    requires a.FaultFree() && DistinctMembers(g) && forall m | m in g.sidecars :: m.state == StateStarted
    ensures DestroyedSoFar(a, g.sidecars, DestroySidecars(a, g.sidecars, |g.sidecars|), |g.sidecars|)
  {
    var keeps := (r: Reply, i: nat) => DestroyedSoFar(a, g.sidecars, r, i);
    forall before: Reply, i: nat | i < |g.sidecars|
        && keeps(before, i) ensures keeps(DestroyNext(before, g.sidecars[i]), i + 1) {
      assert g.sidecars[i] in g.sidecars;
      DestroyNextWorks(a, g, before, i);
    }
    DestroyInduction(a, g.sidecars, |g.sidecars|, keeps);
  }

  /** The exact condition: without failing calls, destroying a started instance works if and
      only if every member with files has its ConfigMap. It lacks one when files were added to
      a stopped instance that was started again without SetImage and Commit. */
  lemma DestroyExactly(a: Api, g: Group)
    requires a.FaultFree() && PodExact(a, g) && Lockstep(g) && DistinctMembers(g) && g.self.state == StateStarted
    ensures var e := Destroy(a, g);
            (e.err.None? <==> Filed(a, g)) && e.api.FaultFree()
            && (e.err.None? ==> PodExact(e.api, e.group))
  {
    var pod := DestroyPod(a, g.self);
    DestroyPodWorks(a, g);
    FiledWithoutPod(a, pod.api, g);
    var own := DestroyResources(pod.api, g.self);
    DestroyResourcesWorks(pod.api, g.self);
    if own.ok {
      SidecarsStillHave(pod.api, g);
      DestroySidecarsWork(own.api, g);
      DestroyedExact(a, g);
    }
  }

  lemma SidecarsStillHave(a: Api, g: Group)
    requires DistinctMembers(g)
    ensures forall i | 0 <= i < |g.sidecars| ::
              HasConfigMap(DestroyResources(a, g.self).api, g.sidecars[i]) <==> HasConfigMap(a, g.sidecars[i])
  {
    DestroyResourcesFootprint(a, g.self);
    forall i | 0 <= i < |g.sidecars|
      ensures HasConfigMap(DestroyResources(a, g.self).api, g.sidecars[i]) <==> HasConfigMap(a, g.sidecars[i])
    {
      assert g.sidecars[i].name != g.self.name;
    }
  }

  lemma DestroyedExact(a: Api, g: Group)
    requires g.self.state == StateStarted && PodExact(a, g)
    ensures var e := Destroy(a, g); e.err.None? ==> PodExact(e.api, e.group)
  {
    var e := Destroy(a, g);
    DestroyFootprint(a, g);
    if e.err.None? {
      assert e.group == g.WithState(StateDestroyed);
      forall kind ensures Key(kind, g.self.name) in e.api.objs ==> Key(kind, g.self.name) in a.objs {}
      assert PodGone(e.api, g.self);
      assert Key(ReplicaSet, g.self.name) in PodKeys(g.self) && Key(ServiceAccount, g.self.name) in PodKeys(g.self);
      assert g.self.rules != [] ==>
          Key(Role, g.self.name) in PodKeys(g.self)
          && Key(RoleBinding, g.self.name) in PodKeys(g.self);
    }
  }

  /** Whatever calls fail or work and whatever the cluster holds, a stopped instance is not
      destroyed: the network of a stopped instance cannot be looked up. */
  lemma DestroyStoppedFails(a: Api, g: Group)
    requires g.self.state == StateStopped && !g.self.isSidecar
    ensures var e := Destroy(a, g); e.err.Some? && e.group == g
  {
  }

  /** After a stop it does not even get that far: the service account is gone already, and
      deleting it again is an error. */
  lemma DestroyAfterStop(a: Api, g: Group)
    requires PodExact(a, g) && g.self.state == StateStopped
    ensures var e := Destroy(a, g);
            e.err == Some(ErrDestroyingPod) && e.group == g && e.api.objs == a.objs
                && (a.FaultFree() ==> e.api.FaultFree())
  {
  }
}
