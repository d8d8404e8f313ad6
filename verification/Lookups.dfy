/** Network policies that a failed lookup passes over: the instance is destroyed without them,
    or it can never be destroyed at all. */
module Lookups {

  import opened Wrappers
  import opened Cluster
  import opened Lifecycle
  import opened Footprint
  import opened Runs
  import opened Stuck

  function Policy(m: Member): Key { Key(NetworkPolicy, m.name) }

  /** A policy that was passed over is still there after the instance was destroyed, unless the
      instance cannot be destroyed any more; sidecars have no policies. */
  ghost predicate MissedOk(a: Api, g: Group) {
    && (Policy(g.self) in a.missed ==> (g.self.state == StateDestroyed && Policy(g.self) in a.objs) || CannotEnd(a, g))
    && forall i | 0 <= i < |g.sidecars| :: Policy(g.sidecars[i]) !in a.missed
  }

  lemma DestroyPodMissed(a: Api, m: Member)
    ensures DestroyPod(a, m).api.missed == a.missed
  {
  }

  lemma EnableMissed(a: Api, m: Member)
    ensures var r := EnableIfDisabled(a, m);
            && (m.state != StateStarted ==> r.api.missed == a.missed)
            && (Policy(m) in r.api.missed && Policy(m) !in a.missed ==> Policy(m) in r.api.objs)
  {
  }

  /** The part of destroyResources before the policy is looked up. */
  lemma StorageMissed(a: Api, m: Member)
    ensures var volume := if m.volumes == [] then Reply(a, true) else a.DeleteIfPresent(Key(VolumeClaim, m.name));
            var files := if m.files == [] then Reply(volume.api, true)
                else volume.api.DeleteExisting(Key(ConfigMap, m.name));
            var service := if !m.hasService then Reply(files.api, true)
                else files.api.DeleteIfPresent(Key(Service, m.name));
            volume.api.missed == a.missed && files.api.missed == a.missed && service.api.missed == a.missed
  {
  }

  lemma DestroyResourcesMissed(a: Api, m: Member)
    ensures var r := DestroyResources(a, m);
            && (m.state != StateStarted ==> r.api.missed == a.missed)
            && (Policy(m) in r.api.missed && Policy(m) !in a.missed ==> Policy(m) in r.api.objs)
  {
    StorageMissed(a, m);
    var volume := if m.volumes == [] then Reply(a, true) else a.DeleteIfPresent(Key(VolumeClaim, m.name));
    var files := if m.files == [] then Reply(volume.api, true) else volume.api.DeleteExisting(Key(ConfigMap, m.name));
    var service := if !m.hasService then Reply(files.api, true) else files.api.DeleteIfPresent(Key(Service, m.name));
    EnableMissed(service.api, m);
  }

  /** Destroying the sidecars' resources does not touch what belongs to the instance itself. */
  lemma SidecarsElsewhere(a: Api, g: Group)
    requires DistinctMembers(g)
    ensures var b := DestroySidecars(a, g.sidecars, |g.sidecars|).api;
            && (Policy(g.self) in b.missed <==> Policy(g.self) in a.missed)
            && (Policy(g.self) in b.objs <==> Policy(g.self) in a.objs)
            && (Account(g) in b.objs <==> Account(g) in a.objs)
  {
    forall i | 0 <= i < |g.sidecars| ensures g.sidecars[i].name in NamesOf(g.sidecars) {
      assert g.sidecars[i] in g.sidecars;
    }
    DestroySidecarsFootprint(a, g.sidecars, |g.sidecars|, NamesOf(g.sidecars));
  }

  /** A destroy that does not get past the instance's own objects. */
  lemma OwnMissed(a: Api, g: Group)
    requires (g.self.state == StateStarted || g.self.state == StateStopped) && Policy(g.self) !in a.missed
    ensures var pod := DestroyPod(a, g.self);
            var own := DestroyResources(pod.api, g.self);
            && Policy(g.self) !in pod.api.missed
            && (pod.ok ==> Account(g) !in own.api.objs)
            && (Policy(g.self) in own.api.missed ==> g.self.state == StateStarted && Policy(g.self) in own.api.objs)
  {
    var pod := DestroyPod(a, g.self);
    DestroyPodMissed(a, g.self);
    DestroyPodFootprint(a, g.self);
    assert Account(g) in PodKeys(g.self);
    DestroyResourcesFootprint(pod.api, g.self);
    DestroyResourcesMissed(pod.api, g.self);
  }

  lemma DestroySelfMissed(a: Api, g: Group)
    requires DistinctMembers(g) && MissedOk(a, g)
    ensures var e := Destroy(a, g);
            Policy(g.self) in e.api.missed ==>
              (e.group.self.state == StateDestroyed && Policy(g.self) in e.api.objs) || CannotEnd(e.api, e.group)
  {
    if CannotEnd(a, g) {
      NoAccount(a, g.self);
    } else if g.self.state == StateStarted || g.self.state == StateStopped {
      OwnMissed(a, g);
      SidecarsElsewhere(DestroyResources(DestroyPod(a, g.self).api, g.self).api, g);
    }
  }

  /** A policy that can be missed existed, and the sidecars' policies never do. */
  lemma SidecarsMissed(a: Api, b: Api, g: Group)
    requires Accounted(a, g) && MissedOk(a, g) && Cuts(a, b, g.Names()) && g.self.state != StateDestroyed
    ensures forall i | 0 <= i < |g.sidecars| :: Policy(g.sidecars[i]) !in b.missed
  {
    forall i | 0 <= i < |g.sidecars| ensures Policy(g.sidecars[i]) !in b.missed {
      assert MemberAccounted(a, g.sidecars[i], false, g.self.state);
    }
  }

  lemma DestroyMissed(a: Api, g: Group)
    requires Accounted(a, g) && DistinctMembers(g) && MissedOk(a, g)
    ensures var e := Destroy(a, g); MissedOk(e.api, e.group)
  {
    if g.self.state != StateDestroyed {
      DestroySelfMissed(a, g);
      DestroySidecarsMissed(a, g);
    }
  }

  lemma DestroySidecarsMissed(a: Api, g: Group)
    requires Accounted(a, g) && MissedOk(a, g) && g.self.state != StateDestroyed
    ensures var e := Destroy(a, g);
            e.group.self.name == g.self.name
                && forall i | 0 <= i < |e.group.sidecars| :: Policy(e.group.sidecars[i]) !in e.api.missed
  {
    var e := Destroy(a, g);
    StopDestroyAtomic(a, g);
    DestroyFootprint(a, g);
    SidecarsMissed(a, e.api, g);
  }

  lemma StartMissed(a: Api, g: Group, disk: map<string, string>)
    requires MissedOk(a, g)
    ensures var e := Start(a, g, disk); MissedOk(e.api, e.group)
  {
    var e := Start(a, g, disk);
    StartGains(a, g, disk);
    StartFootprint(a, g, disk);
    var h := if e.err.None? then g.WithState(StateStarted) else g;
    forall i | 0 <= i < |e.group.sidecars| ensures Policy(e.group.sidecars[i]) !in e.api.missed {
      assert ServiceKnown(h.sidecars[i], e.group.sidecars[i], e.err.None? && g.self.state == StateCommitted);
    }
  }

  /** Every operation keeps this, whichever of its calls fail. */
  lemma OpMissed(a: Api, g: Group, op: Op, disk: map<string, string>)
    requires Accounted(a, g) && DistinctMembers(g) && MissedOk(a, g)
    requires op.OpAddSidecar? ==> Policy(op.sidecar) !in a.missed
    ensures var e := Apply(a, g, op, disk); MissedOk(e.api, e.group)
  {
    match op
    case OpStart => StartMissed(a, g, disk);
    case OpStop =>
      DestroyPodMissed(a, g.self);
      NoAccountOrElse(a, g);
    case OpDestroy => DestroyMissed(a, g);
    case OpConfigure(next) =>
      if Grown(g, next) {
        forall i | 0 <= i < |next.sidecars| ensures next.sidecars[i].name == g.sidecars[i].name {
          assert MemberGrown(g.sidecars[i], next.sidecars[i]);
        }
      }
    case _ =>
  }

  lemma NoAccountOrElse(a: Api, g: Group)
    ensures CannotEnd(a, g) ==> !DestroyPod(a, g.self).ok && CannotEnd(DestroyPod(a, g.self).api, g)
  {
    if CannotEnd(a, g) { NoAccount(a, g.self); }
  }

  // ---------------------------------------------------------------- without failing calls

  lemma EnableCalm(a: Api, m: Member)
    requires a.FaultFree()
    ensures var r := EnableIfDisabled(a, m); r.api.FaultFree() && r.api.missed == a.missed
  {
    if m.state == StateStarted { DeleteWorks(a.Popped(), Policy(m)); }
  }

  lemma DestroyResourcesCalm(a: Api, m: Member)
    requires a.FaultFree()
    ensures var r := DestroyResources(a, m); r.api.FaultFree() && r.api.missed == a.missed
  {
    var volume := if m.volumes == [] then Reply(a, true) else a.DeleteIfPresent(Key(VolumeClaim, m.name));
    DeleteIfPresentWorks(a, Key(VolumeClaim, m.name));
    var files := if m.files == [] then Reply(volume.api, true) else volume.api.DeleteExisting(Key(ConfigMap, m.name));
    DeleteExistingWorks(volume.api, Key(ConfigMap, m.name));
    var service := if !m.hasService then Reply(files.api, true) else files.api.DeleteIfPresent(Key(Service, m.name));
    DeleteIfPresentWorks(files.api, Key(Service, m.name));
    StorageMissed(a, m);
    EnableCalm(service.api, m);
  }

  lemma DestroySidecarsCalm(a: Api, ms: seq<Member>)
    requires a.FaultFree()
    ensures DestroySidecars(a, ms, |ms|).api.missed == a.missed
  {
    var keeps := (r: Reply, i: nat) => r.api.FaultFree() && r.api.missed == a.missed;
    forall before: Reply, i: nat | i < |ms| && keeps(before, i) ensures keeps(DestroyNext(before, ms[i]), i + 1) {
      if before.ok { DestroyResourcesCalm(before.api, ms[i]); }
    }
    DestroyInduction(a, ms, |ms|, keeps);
  }

  lemma DestroyPodCalm(a: Api, m: Member)
    requires a.FaultFree()
    ensures var r := DestroyPod(a, m); r.api.FaultFree() && r.api.missed == a.missed
  {
    DestroyPodMissed(a, m);
    var rs := a.DeleteIfPresent(Key(ReplicaSet, m.name));
    DeleteIfPresentWorks(a, Key(ReplicaSet, m.name));
    var sa := rs.api.Delete(Key(ServiceAccount, m.name));
    DeleteWorks(rs.api, Key(ServiceAccount, m.name));
    var role := sa.api.Delete(Key(Role, m.name));
    DeleteWorks(sa.api, Key(Role, m.name));
    DeleteWorks(role.api, Key(RoleBinding, m.name));
  }

  lemma DestroyCalm(a: Api, g: Group)
    requires a.FaultFree()
    ensures Destroy(a, g).api.missed == a.missed
  {
    var pod := DestroyPod(a, g.self);
    DestroyPodCalm(a, g.self);
    DestroyResourcesCalm(pod.api, g.self);
    DestroySidecarsCalm(DestroyResources(pod.api, g.self).api, g.sidecars);
  }

  /** Without failing calls no lookup misses a policy; and no other operation than Destroy looks
      one up, so with failing calls none of the others misses one either. */
  lemma OpCalm(a: Api, g: Group, op: Op, disk: map<string, string>)
    requires a.FaultFree() || !op.OpDestroy?
    ensures Apply(a, g, op, disk).api.missed == a.missed
  {
    match op
    case OpStart => StartGains(a, g, disk);
    case OpStop => DestroyPodMissed(a, g.self);
    case OpDestroy => DestroyCalm(a, g);
    case _ =>
  }
}
