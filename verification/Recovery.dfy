/** A start of a stopped instance that fails half way: Destroy fails too, but it clears what the
    start left of the pod, and the next start works. */
module Recovery {

  import opened Wrappers
  import opened PodSpec
  import opened Cluster
  import opened Lifecycle
  import opened Footprint
  import opened Runs
  import opened Progress
  import opened Stuck

  /** A pod's objects are made in this order: the account, the role, its binding, the ReplicaSet. */
  ghost predicate PodPrefix(a: Api, g: Group) {
    && (Key(ReplicaSet, g.self.name) in a.objs ==> PodWhole(a, g))
    && (Key(RoleBinding, g.self.name) in a.objs ==> Key(Role, g.self.name) in a.objs)
    && (Key(Role, g.self.name) in a.objs ==> Account(g) in a.objs && g.self.rules != [])
  }

  /** All of them, but perhaps the ReplicaSet. */
  ghost predicate PodWhole(a: Api, g: Group) {
    && Account(g) in a.objs
    && (g.self.rules != [] ==> Key(Role, g.self.name) in a.objs && Key(RoleBinding, g.self.name) in a.objs)
  }

  ghost predicate PodNone(a: Api, g: Group) { PodGone(a, g.self) && (g.self.rules == [] ==> NoRoles(a, g)) }

  ghost predicate NoRoles(a: Api, g: Group) {
    Key(Role, g.self.name) !in a.objs && Key(RoleBinding, g.self.name) !in a.objs
  }

  lemma PlainPodStarted(a: Api, g: Group)
    requires PodExact(a, g) && g.self.state == StateStopped && g.self.rules == []
    ensures PodPrefix(DeployPod(a, g).api, g)
  {
  }

  lemma RolesPodStarted(a: Api, g: Group)
    requires PodExact(a, g) && g.self.state == StateStopped && g.self.rules != []
    ensures PodPrefix(DeployPod(a, g).api, g)
  {
    var n := g.self.name;
    var sa := a.Create(Key(ServiceAccount, n), Bare);
    if sa.ok {
      var role := sa.api.Create(Key(Role, n), Rules(g.self.rules));
      if role.ok {
        var binding := role.api.Create(Key(RoleBinding, n), Bare);
        assert binding.ok ==> PodWhole(binding.api, g);
      }
    }
  }

  lemma PodStarted(a: Api, g: Group)
    requires PodExact(a, g) && g.self.state == StateStopped
    ensures PodPrefix(DeployPod(a, g).api, g)
  {
    if g.self.rules == [] { PlainPodStarted(a, g); } else { RolesPodStarted(a, g); }
  }

  /** Without failing calls, destroying such a pod works exactly when it is whole, and leaves
      nothing of it in any case. */
  lemma PrefixGoes(a: Api, g: Group)
    requires a.FaultFree() && PodPrefix(a, g)
    ensures var r := DestroyPod(a, g.self);
            && (r.ok <==> PodWhole(a, g)) && r.api.FaultFree() && PodNone(r.api, g)
            && forall k | k !in PodKeys(g.self) :: k in r.api.objs <==> k in a.objs
  {
    var rs := a.DeleteIfPresent(Key(ReplicaSet, g.self.name));
    DeleteIfPresentWorks(a, Key(ReplicaSet, g.self.name));
    if Account(g) in a.objs {
      DeleteWorks(rs.api, Account(g));
      var sa := rs.api.Delete(Account(g));
      if g.self.rules != [] && Key(Role, g.self.name) in a.objs {
        DeleteWorks(sa.api, Key(Role, g.self.name));
        var role := sa.api.Delete(Key(Role, g.self.name));
        if Key(RoleBinding, g.self.name) in a.objs { DeleteWorks(role.api, Key(RoleBinding, g.self.name)); }
      }
    }
  }

  /** Destroying the resources of a stopped instance fails at its network, after everything else
      of its own is gone. */
  lemma OwnResourcesGo(a: Api, g: Group)
    requires a.FaultFree() && g.self.state == StateStopped && !g.self.isSidecar && HasConfigMap(a, g.self)
    ensures var r := DestroyResources(a, g.self);
            && !r.ok && r.api.FaultFree() && r.api.objs.Keys <= a.objs.Keys
            && (g.self.files != [] ==> Key(ConfigMap, g.self.name) !in r.api.objs)
            && forall k: Key | k in a.objs && k.name != g.self.name :: k in r.api.objs
  {
    var m := g.self;
    var volume := if m.volumes == [] then Reply(a, true) else a.DeleteIfPresent(Key(VolumeClaim, m.name));
    DeleteIfPresentWorks(a, Key(VolumeClaim, m.name));
    var files := if m.files == [] then Reply(volume.api, true) else volume.api.DeleteExisting(Key(ConfigMap, m.name));
    DeleteExistingWorks(volume.api, Key(ConfigMap, m.name));
    DeleteIfPresentWorks(files.api, Key(Service, m.name));
  }

  /** Destroy of a stopped instance with what a failed start left of its pod. */
  lemma DestroyClears(a: Api, g: Group)
    requires a.FaultFree() && PodPrefix(a, g) && Filed(a, g) && g.self.state == StateStopped && !g.self.isSidecar
    requires DistinctMembers(g)
    ensures var d := Destroy(a, g);
            && d.err.Some? && d.group == g && d.api.FaultFree() && PodNone(d.api, g)
            && (Filed(d.api, g) <==> g.self.files == [] || !PodWhole(a, g))
  {
    var pod, d := DestroyPod(a, g.self), Destroy(a, g);
    PrefixGoes(a, g);
    assert forall n :: Key(ConfigMap, n) !in PodKeys(g.self);
    if PodWhole(a, g) { OwnResourcesGo(pod.api, g); }
    forall i | 0 <= i < |g.sidecars| ensures HasConfigMap(d.api, g.sidecars[i]) {
      assert g.sidecars[i].name != g.self.name && HasConfigMap(a, g.sidecars[i]);
      assert Key(ConfigMap, g.sidecars[i].name) in a.objs ==> Key(ConfigMap, g.sidecars[i].name) in pod.api.objs;
    }
  }

  /** A start of a stopped instance is its pod. */
  lemma StoppedStart(a: Api, g: Group, disk: map<string, string>)
    requires MayStart(g) && g.self.state == StateStopped
    ensures var pod := DeployPod(a, g);
            Start(a, g, disk) == if pod.ok then Effect(pod.api, g.WithState(StateStarted), None)
                                 else Effect(pod.api, g, Some(ErrDeployingPodForInstance))
  {
  }

  lemma NoneIsExact(a: Api, g: Group)
    requires PodNone(a, g) && g.self.state == StateStopped
    ensures PodExact(a, g)
  {
    var keys := PodKeys(g.self);
    assert Key(ReplicaSet, g.self.name) in keys && Account(g) in keys;
    assert g.self.rules != [] ==> Key(Role, g.self.name) in keys && Key(RoleBinding, g.self.name) in keys;
  }

  lemma PodMapsNothing(a: Api, g: Group)
    ensures forall n :: Key(ConfigMap, n) in DeployPod(a, g).api.objs <==> Key(ConfigMap, n) in a.objs
  {
    DeployPodFootprint(a, g);
  }

  lemma StartsAgain(a: Api, g: Group, disk: map<string, string>)
    requires a.FaultFree() && MayStart(g) && g.self.state == StateStopped && PodNone(a, g)
    ensures var s := Start(a, g, disk);
            && s.err.None? && s.group == g.WithState(StateStarted)
            && (Filed(s.api, s.group) <==> Filed(a, g))
  {
    StoppedStart(a, g, disk);
    NoneIsExact(a, g);
    DeployPodWorks(a, g);
    PodMapsNothing(a, g);
    SameMaps(a, DeployPod(a, g).api, g);
  }

  lemma SameMaps(a: Api, b: Api, g: Group)
    requires forall n :: Key(ConfigMap, n) in b.objs <==> Key(ConfigMap, n) in a.objs
    ensures Filed(b, g.WithState(StateStarted)) <==> Filed(a, g)
  {
    var h := g.WithState(StateStarted);
    forall i | 0 <= i < |g.sidecars| ensures HasConfigMap(b, h.sidecars[i]) <==> HasConfigMap(a, g.sidecars[i]) {
    }
  }

  /** However a start of a stopped instance has failed, Destroy errs and the start after that
      works. But the instance is whole again only if the failed start had not got as far as the
      ReplicaSet, or the instance has no files: otherwise Destroy has taken its ConfigMap along,
      which no start of a stopped instance brings back. */
  lemma StoppedStartRecovers(a: Api, g: Group, disk: map<string, string>)
    requires Orderly(Healed(a), g, disk) && g.self.state == StateStopped && Start(a, g, disk).err.Some?
    ensures var b := Healed(Start(a, g, disk).api);
            var d := Destroy(b, g);
            var s := Start(d.api, g, disk);
            && Start(a, g, disk).group == g && d.err.Some? && d.group == g
            && s.err.None? && s.group == g.WithState(StateStarted)
            && (Filed(s.api, s.group) <==> g.self.files == [] || !PodWhole(b, g))
  {
    StartLockstep(a, g, disk);
    StoppedStart(a, g, disk);
    var b := Healed(DeployPod(a, g).api);
    PodStarted(a, g);
    PodMapsNothing(a, g);
    assert Filed(b, g) by { SameMapsHere(a, b, g); }
    DestroyClears(b, g);
    StartsAgain(Destroy(b, g).api, g, disk);
  }

  lemma SameMapsHere(a: Api, b: Api, g: Group)
    requires Filed(a, g) && forall n :: Key(ConfigMap, n) in b.objs <==> Key(ConfigMap, n) in a.objs
    ensures Filed(b, g)
  {
    forall i | 0 <= i < |g.sidecars| ensures HasConfigMap(b, g.sidecars[i]) { assert HasConfigMap(a, g.sidecars[i]); }
  }

  /** After a start that failed, from whatever state, Destroy and then Start bring the instance up
      exactly when it was stopped before, or its service account has not been created. */
  lemma DestroyThenStart(a: Api, g: Group, disk: map<string, string>)
    requires Orderly(Healed(a), g, disk) && Startable(g.self.state) && Start(a, g, disk).err.Some?
    ensures var e := Start(a, g, disk);
            var d := Destroy(Healed(e.api), e.group);
            Start(d.api, d.group, disk).err.None? <==> g.self.state == StateStopped || Account(g) !in e.api.objs
  {
    var e := Start(a, g, disk);
    if g.self.state == StateStopped {
      StoppedStartRecovers(a, g, disk);
    } else {
      StartAtomic(a, g, disk);
      assert Destroy(Healed(e.api), e.group).api == Healed(e.api);
      StartRetry(a, g, disk);
    }
  }
}
