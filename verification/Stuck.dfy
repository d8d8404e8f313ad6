/** What failing calls do for good: instances that no further operation can bring to an end, and
    network policies that a failed lookup leaves behind. */
module Stuck {

  import opened Wrappers
  import opened Cluster
  import opened Lifecycle
  import opened Footprint
  import opened Runs
  import opened Progress

  // ---------------------------------------------------------------- what deploying keeps

  /** From a to b no object has disappeared and no lookup has missed a policy. */
  ghost predicate Gains(a: Api, b: Api) { a.objs.Keys <= b.objs.Keys && b.missed == a.missed }

  /** Nor has an object of a pod appeared. */
  ghost predicate Deploys(a: Api, b: Api) { Gains(a, b) && NoNewPods(a, b) }

  lemma DeployServiceGains(a: Api, m: Member)
    ensures Deploys(a, DeployService(a, m).api)
  {
  }

  lemma DeployVolumeGains(a: Api, m: Member)
    ensures Deploys(a, DeployVolume(a, m).api)
  {
  }

  lemma DeployFilesGains(a: Api, m: Member, disk: map<string, string>)
    ensures Deploys(a, DeployFiles(a, m, disk).api)
  {
  }

  lemma DeployResourcesGains(a: Api, m: Member, disk: map<string, string>)
    ensures Deploys(a, DeployResources(a, m, disk).api)
  {
    var service := if m.isSidecar then Reply(a, true) else DeployService(a, m);
    DeployServiceGains(a, m);
    var m1 := if m.isSidecar then m else m.(hasService := m.hasService || m.HasPorts());
    DeployVolumeGains(service.api, m1);
    DeployFilesGains(DeployVolume(service.api, m1).api, m1, disk);
  }

  lemma DeployNextGains(a: Api, before: DeployedAll, i: nat, disk: map<string, string>)
    requires i < |before.sidecars| && Deploys(a, before.api)
    ensures Deploys(a, DeployNext(before, i, disk).api)
  {
    if before.ok { DeployResourcesGains(before.api.Other().api, before.sidecars[i], disk); }
  }

  lemma DeploySidecarsGains(a: Api, ms: seq<Member>, disk: map<string, string>)
    ensures Deploys(a, DeploySidecars(a, ms, disk, |ms|).api)
  {
    var keeps := (r: DeployedAll, i: nat) => Deploys(a, r.api);
    forall before: DeployedAll, i: nat | i < |ms| && |before.sidecars| == |ms| && keeps(before, i)
      ensures keeps(DeployNext(before, i, disk), i + 1)
    {
      DeployNextGains(a, before, i, disk);
    }
    SidecarInduction(a, ms, disk, |ms|, keeps);
  }

  lemma DeployCommittedGains(a: Api, g: Group, disk: map<string, string>)
    ensures Deploys(a, DeployCommitted(a, g, disk).api)
  {
    DeployResourcesGains(a, g.self, disk);
    DeploySidecarsGains(DeployResources(a, g.self, disk).api, g.sidecars, disk);
  }

  lemma DeployPodGains(a: Api, g: Group)
    ensures Gains(a, DeployPod(a, g).api)
  {
  }

  lemma StartGains(a: Api, g: Group, disk: map<string, string>)
    ensures Gains(a, Start(a, g, disk).api)
  {
    DeployCommittedGains(a, g, disk);
    var e := DeployCommitted(a, g, disk);
    DeployPodGains(e.api, e.group);
    DeployPodGains(a, g);
  }

  // ---------------------------------------------------------------- stuck instances

  function Account(g: Group): Key { Key(ServiceAccount, g.self.name) }

  /** Started without a service account: neither Stop nor Destroy gets past deleting it. */
  predicate CannotEnd(a: Api, g: Group) { g.self.state == StateStarted && Account(g) !in a.objs }

  /** Committed with a service account already there: Start does not get past creating it, and
      no other operation is allowed to delete it. */
  predicate CannotBegin(a: Api, g: Group) { g.self.state == StateCommitted && Account(g) in a.objs }

  predicate IsStuck(a: Api, g: Group) { CannotEnd(a, g) || CannotBegin(a, g) }

  lemma AccountExists(a: Api, g: Group)
    requires Account(g) in a.objs
    ensures var r := DeployPod(a, g); !r.ok && r.api.objs == a.objs
  {
  }

  lemma StartStuck(a: Api, g: Group, disk: map<string, string>)
    requires CannotBegin(a, g)
    ensures var e := Start(a, g, disk); e.err.Some? && CannotBegin(e.api, e.group)
  {
    StartGains(a, g, disk);
    StartAtomic(a, g, disk);
    StartFootprint(a, g, disk);
    DeployCommittedGains(a, g, disk);
    DeployCommittedFootprint(a, g, disk);
    AccountExists(DeployCommitted(a, g, disk).api, DeployCommitted(a, g, disk).group);
  }

  lemma NoAccount(a: Api, m: Member)
    requires Key(ServiceAccount, m.name) !in a.objs
    ensures var r := DestroyPod(a, m); !r.ok && Key(ServiceAccount, m.name) !in r.api.objs && r.api.missed == a.missed
  {
  }

  /** Stuck is for good: whichever calls fail or work from now on, no operation ends it. */
  lemma StuckStays(a: Api, g: Group, op: Op, disk: map<string, string>)
    requires IsStuck(a, g)
    ensures var e := Apply(a, g, op, disk); IsStuck(e.api, e.group) && e.group.self.state == g.self.state
  {
    match op
    case OpStart => if CannotBegin(a, g) { StartStuck(a, g, disk); }
    case OpStop => if CannotEnd(a, g) { NoAccount(a, g.self); }
    case OpDestroy => if CannotEnd(a, g) { NoAccount(a, g.self); }
    case OpConfigure(next) => if Grown(g, next) { assert MemberGrown(g.self, next.self); }
    case _ =>
  }

  // ---------------------------------------------------------------- what can be retried

  /** The same cluster, with every call from now on working. */
  function Healed(a: Api): Api { a.(script := []) }

  lemma FailedPod(a: Api, g: Group)
    requires PodExact(a, g) && g.self.state != StateStarted
    ensures var r := DeployPod(a, g);
            !r.ok && Account(g) !in r.api.objs ==> PodExact(r.api, g)
  {
  }

  /** The members after a failed start are what they were, but for a service pointer. */
  lemma FailedGroup(a: Api, g: Group, disk: map<string, string>)
    requires Start(a, g, disk).err.Some? && Lockstep(g) && DistinctMembers(g) && Readable(g, disk)
    ensures var h := Start(a, g, disk).group;
            && h.self == g.self.(hasService := h.self.hasService) && Lockstep(h) && DistinctMembers(h)
                && Readable(h, disk)
            && |h.sidecars| == |g.sidecars|
            && forall i | 0 <= i < |g.sidecars| :: h.sidecars[i].files == g.sidecars[i].files
                && h.sidecars[i].name == g.sidecars[i].name
  {
    var h := Start(a, g, disk).group;
    StartLockstep(a, g, disk);
    StartFootprint(a, g, disk);
    forall i | 0 <= i < |g.sidecars| ensures h.sidecars[i].files == g.sidecars[i].files
        && h.sidecars[i].name == g.sidecars[i].name {
      assert ServiceKnown(g.sidecars[i], h.sidecars[i], false);
    }
    StillReadable(g, h, disk);
  }

  /** Where a failed start leaves the pod: as it was, or with a service account. */
  lemma FailedStart(a: Api, g: Group, disk: map<string, string>)
    requires PodExact(a, g) && Startable(g.self.state) && Start(a, g, disk).err.Some?
    ensures var e := Start(a, g, disk);
            Account(g) in e.api.objs || PodExact(e.api, g)
  {
    if MayStart(g) {
      var r := if g.self.state == StateCommitted then DeployCommitted(a, g, disk) else Effect(a, g, None);
      DeployCommittedGains(a, g, disk);
      DeployCommittedFootprint(a, g, disk);
      assert PodExact(r.api, r.group);
      if r.err.None? { FailedPod(r.api, r.group); }
    } else {
      StartFootprint(a, g, disk);
    }
  }

  /** A start that failed can be retried exactly when its service account was not created. */
  lemma StartRetry(a: Api, g: Group, disk: map<string, string>)
    requires Orderly(Healed(a), g, disk) && Startable(g.self.state) && Start(a, g, disk).err.Some?
    ensures var e := Start(a, g, disk);
            Start(Healed(e.api), e.group, disk).err.None? <==> Account(g) !in e.api.objs
  {
    var e := Start(a, g, disk);
    FailedGroup(a, g, disk);
    if Account(g) in e.api.objs {
      RetryFails(Healed(e.api), e.group, disk);
    } else {
      FailedStart(a, g, disk);
      StartGains(a, g, disk);
      if g.self.state == StateStopped {
        forall i | 0 <= i < |e.group.sidecars| ensures HasConfigMap(e.api, e.group.sidecars[i]) {
          assert HasConfigMap(Healed(a), g.sidecars[i]);
        }
      }
      StartWorks(Healed(e.api), e.group, disk);
    }
  }

  lemma RetryFails(a: Api, g: Group, disk: map<string, string>)
    requires Startable(g.self.state) && Account(g) in a.objs
    ensures Start(a, g, disk).err.Some?
  {
    if g.self.state == StateCommitted { StartStuck(a, g, disk); } else { AccountExists(a, g); }
  }

  /** A stop that failed can be retried exactly when the service account is still there. */
  lemma StopRetry(a: Api, g: Group)
    requires PodExact(a, g) && g.self.state == StateStarted && Stop(a, g).err.Some?
    ensures Stop(Healed(Stop(a, g).api), g).err.None? <==> Account(g) in Stop(a, g).api.objs
  {
    var b := Healed(Stop(a, g).api);
    if Account(g) in b.objs {
      PodLeft(a, g.self);
      PodGoes(b, g.self);
    } else {
      NoAccount(b, g.self);
    }
  }

  lemma PodLeft(a: Api, m: Member)
    requires !DestroyPod(a, m).ok && Key(ServiceAccount, m.name) in DestroyPod(a, m).api.objs
    ensures var b := DestroyPod(a, m).api; b.objs == a.objs || b.objs == a.objs - {Key(ReplicaSet, m.name)}
  {
  }

  lemma PodGoes(a: Api, m: Member)
    requires a.FaultFree() && Key(ServiceAccount, m.name) in a.objs
    requires m.rules != [] ==> Key(Role, m.name) in a.objs && Key(RoleBinding, m.name) in a.objs
    ensures DestroyPod(a, m).ok
  {
    var rs := a.DeleteIfPresent(Key(ReplicaSet, m.name));
    DeleteIfPresentWorks(a, Key(ReplicaSet, m.name));
    var sa := rs.api.Delete(Key(ServiceAccount, m.name));
    DeleteWorks(rs.api, Key(ServiceAccount, m.name));
    var role := sa.api.Delete(Key(Role, m.name));
    DeleteWorks(sa.api, Key(Role, m.name));
    DeleteWorks(role.api, Key(RoleBinding, m.name));
  }
}
