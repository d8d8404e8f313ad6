/** Which objects each lifecycle operation can touch, add or leave behind. */
module Footprint {

  import opened Wrappers
  import opened PodSpec
  import opened Cluster
  import opened Lifecycle

  // ---------------------------------------------------------------- keys

  function PodKeys(m: Member): set<Key> {
    {Key(ReplicaSet, m.name), Key(ServiceAccount, m.name)} +
    (if m.rules == [] then {} else {Key(Role, m.name), Key(RoleBinding, m.name)})
  }

  function ResourceKeys(m: Member): set<Key> {
    (if m.volumes == [] then {} else {Key(VolumeClaim, m.name)}) +
    (if m.files == [] then {} else {Key(ConfigMap, m.name)}) +
    (if m.isSidecar || !m.HasPorts() then {} else {Key(Service, m.name)})
  }

  /** Nothing of the pod is left. */
  ghost predicate PodGone(a: Api, m: Member) {
    forall k | k in PodKeys(m) :: k !in a.objs
  }

  /** Nothing of the resources is left, except a network policy that a failed lookup passed
      over. */
  ghost predicate ResourcesGone(a: Api, m: Member) {
    && (m.volumes != [] ==> Key(VolumeClaim, m.name) !in a.objs)
    && (m.files != [] ==> Key(ConfigMap, m.name) !in a.objs)
    && (m.hasService ==> Key(Service, m.name) !in a.objs)
    && (!m.isSidecar && Key(NetworkPolicy, m.name) in a.objs ==> Key(NetworkPolicy, m.name) in a.missed)
  }

  lemma StaysGone(a: Api, b: Api, names: set<string>, m: Member)
    requires Cuts(a, b, names)
    ensures PodGone(a, m) ==> PodGone(b, m)
    ensures ResourcesGone(a, m) ==> ResourcesGone(b, m)
  {
  }

  // ---------------------------------------------------------------- pods

  lemma DeployPodFootprint(a: Api, g: Group)
    ensures Grows(a, DeployPod(a, g).api, {g.self.name}, PodKeys(g.self))
  {
    var n, names, keys := g.self.name, {g.self.name}, PodKeys(g.self);
    var sa := a.Create(Key(ServiceAccount, n), Bare);
    CreateGrows(a, Key(ServiceAccount, n), Bare);
    GrowsWider(a, sa.api, names, {Key(ServiceAccount, n)}, names, keys);
    if sa.ok && g.self.rules == [] {
      CreateGrows(sa.api, Key(ReplicaSet, n), Template(g.Pod()));
      GrowsThen(a, sa.api, DeployPod(a, g).api, names, keys, names, {Key(ReplicaSet, n)});
      assert keys + {Key(ReplicaSet, n)} == keys;
    } else if sa.ok {
      RolesFootprint(sa.api, g);
      GrowsThen(a, sa.api, DeployPod(a, g).api, names, keys, names, keys);
    }
  }

  lemma RolesFootprint(a: Api, g: Group)
    requires g.self.rules != []
    ensures var role := a.Create(Key(Role, g.self.name), Rules(g.self.rules));
            var binding := role.api.Create(Key(RoleBinding, g.self.name), Bare);
            var r := if !role.ok then role else if !binding.ok then binding
                     else binding.api.Create(Key(ReplicaSet, g.self.name), Template(g.Pod()));
            Grows(a, r.api, {g.self.name}, PodKeys(g.self))
  {
    var n, names, keys := g.self.name, {g.self.name}, PodKeys(g.self);
    var role := a.Create(Key(Role, n), Rules(g.self.rules));
    var binding := role.api.Create(Key(RoleBinding, n), Bare);
    CreateGrows(a, Key(Role, n), Rules(g.self.rules));
    CreateGrows(role.api, Key(RoleBinding, n), Bare);
    CreateGrows(binding.api, Key(ReplicaSet, n), Template(g.Pod()));
    var rs := binding.api.Create(Key(ReplicaSet, n), Template(g.Pod())).api;
    GrowsThen(a, role.api, binding.api, names, {Key(Role, n)}, names, {Key(RoleBinding, n)});
    GrowsThen(a, binding.api, rs, names, {Key(Role, n)} + {Key(RoleBinding, n)}, names, {Key(ReplicaSet, n)});
    GrowsWider(a, role.api, names, {Key(Role, n)}, names, keys);
    GrowsWider(a, binding.api, names, {Key(Role, n)} + {Key(RoleBinding, n)}, names, keys);
    GrowsWider(a, rs, names, {Key(Role, n)} + {Key(RoleBinding, n)} + {Key(ReplicaSet, n)}, names, keys);
  }

  lemma DestroyPodFootprint(a: Api, m: Member)
    ensures var r := DestroyPod(a, m);
            Cuts(a, r.api, {m.name}) && (r.ok ==> PodGone(r.api, m))
  {
    var names := {m.name};
    var rs := a.DeleteIfPresent(Key(ReplicaSet, m.name));
    DeleteIfPresentCuts(a, Key(ReplicaSet, m.name));
    if rs.ok {
      var sa := rs.api.Delete(Key(ServiceAccount, m.name));
      DeleteCuts(rs.api, Key(ServiceAccount, m.name));
      CutsThen(a, rs.api, sa.api, names);
      if sa.ok && m.rules != [] {
        RolesCut(sa.api, m);
        CutsThen(a, sa.api, DestroyPod(a, m).api, names);
      }
    }
  }

  lemma RolesCut(a: Api, m: Member)
    ensures var role := a.Delete(Key(Role, m.name));
            var r := if !role.ok then role else role.api.Delete(Key(RoleBinding, m.name));
            Cuts(a, r.api, {m.name}) && (r.ok ==>
                Key(Role, m.name) !in r.api.objs
                && Key(RoleBinding, m.name) !in r.api.objs)
  {
    var role := a.Delete(Key(Role, m.name));
    DeleteCuts(a, Key(Role, m.name));
    if role.ok {
      DeleteCuts(role.api, Key(RoleBinding, m.name));
      CutsThen(a, role.api, role.api.Delete(Key(RoleBinding, m.name)).api, {m.name});
    }
  }

  // ---------------------------------------------------------------- resources

  lemma DeployServiceFootprint(a: Api, m: Member)
    ensures Grows(a, DeployService(a, m).api, {m.name}, if m.HasPorts() then {Key(Service, m.name)} else {})
  {
  }

  lemma DeployVolumeFootprint(a: Api, m: Member)
    ensures Grows(a, DeployVolume(a, m).api, {m.name}, if m.volumes == [] then {} else {Key(VolumeClaim, m.name)})
  {
  }

  lemma DeployFilesFootprint(a: Api, m: Member, disk: map<string, string>)
    ensures Grows(a, DeployFiles(a, m, disk).api, {m.name}, if m.files == [] then {} else {Key(ConfigMap, m.name)})
  {
  }

  /** The service pointer of a member of the group after a deployment. */
  predicate ServiceKnown(m: Member, n: Member, ok: bool) {
    && ServiceAside(m, n)
    && (n.hasService ==> m.hasService || (!m.isSidecar && m.HasPorts()))
    && (m.hasService ==> n.hasService)
    && (ok && !m.isSidecar && m.HasPorts() ==> n.hasService)
  }

  /** The claim and the ConfigMap, after the service. */
  lemma DeployStorageFootprint(a: Api, b: Api, m: Member, disk: map<string, string>)
    requires Grows(a, b, {m.name}, ResourceKeys(m))
    ensures var volume := DeployVolume(b, m);
            Grows(a, volume.api, {m.name}, ResourceKeys(m)) &&
            Grows(a, DeployFiles(volume.api, m, disk).api, {m.name}, ResourceKeys(m))
  {
    var names, keys := {m.name}, ResourceKeys(m);
    var volume := DeployVolume(b, m);
    DeployVolumeFootprint(b, m);
    GrowsWider(b, volume.api, names, if m.volumes == [] then {} else {Key(VolumeClaim, m.name)}, names, keys);
    GrowsThen(a, b, volume.api, names, keys, names, keys);
    var files := DeployFiles(volume.api, m, disk);
    DeployFilesFootprint(volume.api, m, disk);
    GrowsWider(volume.api, files.api, names, if m.files == [] then {} else {Key(ConfigMap, m.name)}, names, keys);
    GrowsThen(a, volume.api, files.api, names, keys, names, keys);
  }

  lemma DeployResourcesFootprint(a: Api, m: Member, disk: map<string, string>)
    ensures var d := DeployResources(a, m, disk);
            Grows(a, d.api, {m.name}, ResourceKeys(m)) && ServiceKnown(m, d.member, d.ok)
  {
    var names, keys := {m.name}, ResourceKeys(m);
    var service := if m.isSidecar then Reply(a, true) else DeployService(a, m);
    DeployServiceFootprint(a, m);
    GrowsWider(a, service.api, names, if m.isSidecar || !m.HasPorts() then {} else {Key(Service, m.name)}, names, keys);
    if service.ok {
      var m1 := if m.isSidecar then m else m.(hasService := m.hasService || m.HasPorts());
      DeployStorageFootprint(a, service.api, m1, disk);
    }
  }

  function NamesOf(ms: seq<Member>): set<string> { set m | m in ms :: m.name }

  function ResourceKeysOf(ms: seq<Member>): set<Key> { set m, k | m in ms && k in ResourceKeys(m) :: k }

  /** After deploying the first n members, the service pointers of all of them. */
  ghost predicate ServicesKnown(ms: seq<Member>, ns: seq<Member>, ok: bool, n: nat) {
    |ns| == |ms| && forall i | 0 <= i < |ms| :: ServiceKnown(ms[i], ns[i], ok && i < n)
  }

  lemma ServicesWeaken(ms: seq<Member>, ns: seq<Member>, ok: bool, n: nat, m: nat)
    requires ServicesKnown(ms, ns, ok, n)
    ensures ServicesKnown(ms, ns, false, m)
  {
  }

  lemma PrestartGrows(a: Api, b: Api, names: set<string>, keys: set<Key>)
    requires Grows(a, b, names, keys)
    ensures Grows(a, b.Other().api, names, keys)
  {
  }

  /** The sidecars from position n on are as they were. */
  ghost predicate RestSame(ms: seq<Member>, ns: seq<Member>, n: nat) {
    |ns| == |ms| && forall i | n <= i < |ms| :: ns[i] == ms[i]
  }

  predicate Within(m: Member, names: set<string>, keys: set<Key>) {
    m.name in names && ResourceKeys(m) <= keys
  }

  ghost predicate AllWithin(ms: seq<Member>, names: set<string>, keys: set<Key>) {
    forall i | 0 <= i < |ms| :: Within(ms[i], names, keys)
  }

  /** Where deploying the first n sidecars has led. */
  ghost predicate Stepped(a: Api, ms: seq<Member>, r: DeployedAll, n: nat, names: set<string>, keys: set<Key>) {
    Grows(a, r.api, names, keys) && ServicesKnown(ms, r.sidecars, r.ok, n) && RestSame(ms, r.sidecars, n)
  }

  lemma DeployNextFootprint(a: Api, ms: seq<Member>, before: DeployedAll, i: nat, disk: map<string, string>,
                            names: set<string>, keys: set<Key>, r: DeployedAll)
    requires i < |ms| == |before.sidecars| && AllWithin(ms, names, keys)
    requires Stepped(a, ms, before, i, names, keys) && r == DeployNext(before, i, disk)
    ensures Stepped(a, ms, r, i + 1, names, keys)
  {
    ServicesWeaken(ms, before.sidecars, before.ok, i, i + 1);
    if before.ok {
      var prestart := before.api.Other();
      PrestartGrows(a, before.api, names, keys);
      if prestart.ok {
        var d := DeployResources(prestart.api, ms[i], disk);
        assert Within(ms[i], names, keys);
        DeployResourcesFootprint(prestart.api, ms[i], disk);
        GrowsWider(prestart.api, d.api, {ms[i].name}, ResourceKeys(ms[i]), names, keys);
        GrowsThen(a, prestart.api, d.api, names, keys, names, keys);
      }
    }
  }

  /** Induction over the sidecars: what every step keeps holds in the end. */
  lemma {:induction false} SidecarInduction(a: Api, ms: seq<Member>, disk: map<string, string>, n: nat,
      keeps: (DeployedAll, nat) -> bool)
    requires n <= |ms| && keeps(DeployedAll(a, ms, true), 0)
    requires forall before: DeployedAll, i: nat | i < |ms| && |before.sidecars| == |ms| && keeps(before, i) ::
               keeps(DeployNext(before, i, disk), i + 1)
    ensures keeps(DeploySidecars(a, ms, disk, n), n)
  {
    if n > 0 {
      SidecarInduction(a, ms, disk, n - 1, keeps);
      var before := DeploySidecars(a, ms, disk, n - 1);
      assert keeps(DeployNext(before, n - 1, disk), n);
    }
  }

  lemma DeploySidecarsFootprint(a: Api, ms: seq<Member>, disk: map<string, string>, n: nat, names: set<string>,
      keys: set<Key>)
    requires n <= |ms| && AllWithin(ms, names, keys)
    ensures Stepped(a, ms, DeploySidecars(a, ms, disk, n), n, names, keys)
  {
    var keeps := (r: DeployedAll, i: nat) => Stepped(a, ms, r, i, names, keys);
    forall before: DeployedAll, i: nat | i < |ms| && |before.sidecars| == |ms| && keeps(before, i)
      ensures keeps(DeployNext(before, i, disk), i + 1)
    {
      DeployNextFootprint(a, ms, before, i, disk, names, keys, DeployNext(before, i, disk));
    }
    SidecarInduction(a, ms, disk, n, keeps);
  }

  lemma EnableIfDisabledFootprint(a: Api, m: Member)
    ensures var r := EnableIfDisabled(a, m);
            && Cuts(a, r.api, {m.name})
            && (r.ok && Key(NetworkPolicy, m.name) in r.api.objs ==> Key(NetworkPolicy, m.name) in r.api.missed)
  {
  }

  lemma DestroyResourcesFootprint(a: Api, m: Member)
    ensures var r := DestroyResources(a, m);
            Cuts(a, r.api, {m.name}) && (r.ok ==> ResourcesGone(r.api, m))
  {
    var names := {m.name};
    var volume := if m.volumes == [] then Reply(a, true) else a.DeleteIfPresent(Key(VolumeClaim, m.name));
    DeleteIfPresentCuts(a, Key(VolumeClaim, m.name));
    if volume.ok {
      var files := if m.files == [] then Reply(volume.api, true) else volume.api.DeleteExisting(Key(ConfigMap, m.name));
      DeleteExistingCuts(volume.api, Key(ConfigMap, m.name));
      CutsThen(a, volume.api, files.api, names);
      if files.ok {
        var service := if !m.hasService then Reply(files.api, true)
            else files.api.DeleteIfPresent(Key(Service, m.name));
        DeleteIfPresentCuts(files.api, Key(Service, m.name));
        CutsThen(a, files.api, service.api, names);
        if service.ok && !m.isSidecar {
          EnableIfDisabledFootprint(service.api, m);
          CutsThen(a, service.api, EnableIfDisabled(service.api, m).api, names);
        }
      }
    }
  }

  ghost predicate FirstGone(a: Api, ms: seq<Member>, n: nat) {
    forall i | 0 <= i < n && i < |ms| :: ResourcesGone(a, ms[i])
  }

  lemma {:induction false} DestroyInduction(a: Api, ms: seq<Member>, n: nat, keeps: (Reply, nat) -> bool)
    requires n <= |ms| && keeps(Reply(a, true), 0)
    requires forall before: Reply, i: nat | i < |ms| && keeps(before, i) :: keeps(DestroyNext(before, ms[i]), i + 1)
    ensures keeps(DestroySidecars(a, ms, n), n)
  {
    if n > 0 {
      DestroyInduction(a, ms, n - 1, keeps);
      var before := DestroySidecars(a, ms, n - 1);
      assert keeps(DestroyNext(before, ms[n - 1]), n);
    }
  }

  ghost predicate CutSoFar(a: Api, ms: seq<Member>, r: Reply, n: nat, names: set<string>) {
    Cuts(a, r.api, names) && (r.ok ==> FirstGone(r.api, ms, n))
  }

  lemma DestroySidecarsFootprint(a: Api, ms: seq<Member>, n: nat, names: set<string>)
    requires n <= |ms| && forall i | 0 <= i < |ms| :: ms[i].name in names
    ensures CutSoFar(a, ms, DestroySidecars(a, ms, n), n, names)
  {
    var keeps := (r: Reply, i: nat) => CutSoFar(a, ms, r, i, names);
    forall before: Reply, i: nat | i < |ms| && keeps(before, i) ensures keeps(DestroyNext(before, ms[i]), i + 1) {
      if before.ok { NextDestroyed(a, before.api, ms, i, names); }
    }
    DestroyInduction(a, ms, n, keeps);
  }

  lemma NextDestroyed(a: Api, b: Api, ms: seq<Member>, n: nat, names: set<string>)
    requires n < |ms| && ms[n].name in names && Cuts(a, b, names) && FirstGone(b, ms, n)
    ensures CutSoFar(a, ms, DestroyResources(b, ms[n]), n + 1, names)
  {
    var r := DestroyResources(b, ms[n]);
    DestroyResourcesFootprint(b, ms[n]);
    GrowsWider(b, r.api, {ms[n].name}, {}, names, {});
    CutsThen(a, b, r.api, names);
    forall i | 0 <= i < n && i < |ms| ensures ResourcesGone(r.api, ms[i]) { StaysGone(b, r.api, names, ms[i]); }
  }

  // ---------------------------------------------------------------- operations

  ghost predicate MayStart(g: Group) {
    && Startable(g.self.state) && !g.self.isSidecar
    && forall m | m in g.sidecars :: Startable(m.state)
  }

  /** The objects a start may create. */
  function StartKeys(g: Group): set<Key> {
    PodKeys(g.self) + (if g.self.state == StateCommitted then ResourceKeysOf(g.Members()) else {})
  }

  lemma MemberFacts(g: Group)
    ensures g.self.name in g.Names() && ResourceKeys(g.self) <= ResourceKeysOf(g.Members())
    ensures AllWithin(g.sidecars, g.Names(), ResourceKeysOf(g.Members()))
  {
    assert g.Members()[0] == g.self;
    forall m | m in g.sidecars ensures m in g.Members() {}
  }

  lemma DeployCommittedFootprint(a: Api, g: Group, disk: map<string, string>)
    ensures var e := DeployCommitted(a, g, disk);
            && Grows(a, e.api, g.Names(), ResourceKeysOf(g.Members()))
            && ServiceKnown(g.self, e.group.self, e.err.None?)
            && ServicesKnown(g.sidecars, e.group.sidecars, e.err.None?, |g.sidecars|)
  {
    var names, keys := g.Names(), ResourceKeysOf(g.Members());
    var own := DeployResources(a, g.self, disk);
    MemberFacts(g);
    DeployResourcesFootprint(a, g.self, disk);
    GrowsWider(a, own.api, {g.self.name}, ResourceKeys(g.self), names, keys);
    if own.ok {
      var all := DeploySidecars(own.api, g.sidecars, disk, |g.sidecars|);
      DeploySidecarsFootprint(own.api, g.sidecars, disk, |g.sidecars|, names, keys);
      GrowsThen(a, own.api, all.api, names, keys, names, keys);
    }
  }

  lemma StartPod(a: Api, b: Api, g: Group, h: Group)
    requires Grows(a, b, g.Names(), StartKeys(g)) && h.self == g.self.(hasService := h.self.hasService)
    ensures Grows(a, DeployPod(b, h).api, g.Names(), StartKeys(g))
  {
    var pod, names, keys := DeployPod(b, h).api, g.Names(), StartKeys(g);
    DeployPodFootprint(b, h);
    MemberFacts(g);
    GrowsWider(b, pod, {g.self.name}, PodKeys(g.self), names, keys);
    GrowsThen(a, b, pod, names, keys, names, keys);
  }

  lemma ServicesMoved(g: Group, h: Group, ok: bool, s: State)
    requires ServiceKnown(g.self, h.self, ok) && ServicesKnown(g.sidecars, h.sidecars, ok, |g.sidecars|)
    ensures var g1, h1 := g.WithState(s), h.WithState(s);
            ServiceKnown(g1.self, h1.self, ok) && ServicesKnown(g1.sidecars, h1.sidecars, ok, |g.sidecars|)
  {
  }

  /** The part of a start that deploys resources. */
  lemma ResourcesForStart(a: Api, g: Group, disk: map<string, string>) returns (r: Effect)
    ensures r == if g.self.state == StateCommitted then DeployCommitted(a, g, disk) else Effect(a, g, None)
    ensures Grows(a, r.api, g.Names(), StartKeys(g))
    ensures var deployed := r.err.None? && g.self.state == StateCommitted;
            ServiceKnown(g.self, r.group.self, deployed)
                && ServicesKnown(g.sidecars, r.group.sidecars, deployed, |g.sidecars|)
  {
    r := if g.self.state == StateCommitted then DeployCommitted(a, g, disk) else Effect(a, g, None);
    DeployCommittedFootprint(a, g, disk);
    GrowsWider(a, r.api, g.Names(), if g.self.state == StateCommitted then ResourceKeysOf(g.Members()) else {},
        g.Names(), StartKeys(g));
  }

  /** What a start changes, whichever of its calls fail. */
  lemma StartFootprint(a: Api, g: Group, disk: map<string, string>)
    ensures var e := Start(a, g, disk);
            && Grows(a, e.api, g.Names(), StartKeys(g))
            && (!MayStart(g) ==> e.err.Some? && e.api == a && e.group == g)
            && var deployed := e.err.None? && g.self.state == StateCommitted;
               var h := if e.err.None? then g.WithState(StateStarted) else g;
               ServiceKnown(h.self, e.group.self, deployed)
                   && ServicesKnown(h.sidecars, e.group.sidecars, deployed, |g.sidecars|)
  {
    var e := Start(a, g, disk);
    if MayStart(g) {
      var r := ResourcesForStart(a, g, disk);
      var deployed := r.err.None? && g.self.state == StateCommitted;
      if r.err.None? {
        StartPod(a, r.api, g, r.group);
        ServicesWeaken(g.sidecars, r.group.sidecars, deployed, |g.sidecars|, |g.sidecars|);
        ServicesMoved(g, r.group, deployed, StateStarted);
      }
    }
  }

  /** A delete that works takes away that object, if it was there, and nothing else. */
  lemma DeletedOne(a: Api, k: Key)
    ensures a.Delete(k).ok ==> a.Delete(k).api.objs == a.objs - {k}
    ensures a.DeleteIfPresent(k).ok ==> a.DeleteIfPresent(k).api.objs == a.objs - {k}
  {
  }

  lemma TakenInTurn(a: map<Key, Object>, b: map<Key, Object>, c: map<Key, Object>, k: Key, l: Key)
    requires b == a - {k} && c == b - {l}
    ensures c == a - {k, l}
  {
  }

  lemma AccountTaken(a: Api, m: Member)
    requires DestroyPod(a, m).ok
    ensures var rs := a.DeleteIfPresent(Key(ReplicaSet, m.name));
            var sa := rs.api.Delete(Key(ServiceAccount, m.name));
            rs.ok && sa.ok && sa.api.objs == a.objs - {Key(ReplicaSet, m.name), Key(ServiceAccount, m.name)}
  {
    var rs := a.DeleteIfPresent(Key(ReplicaSet, m.name));
    DeletedOne(a, Key(ReplicaSet, m.name));
    var sa := rs.api.Delete(Key(ServiceAccount, m.name));
    DeletedOne(rs.api, Key(ServiceAccount, m.name));
    TakenInTurn(a.objs, rs.api.objs, sa.api.objs, Key(ReplicaSet, m.name), Key(ServiceAccount, m.name));
  }

  lemma RoleTaken(a: Api, n: string)
    ensures var role := a.Delete(Key(Role, n));
            var binding := role.api.Delete(Key(RoleBinding, n));
            role.ok && binding.ok ==> binding.api.objs == a.objs - {Key(Role, n), Key(RoleBinding, n)}
  {
    var role := a.Delete(Key(Role, n));
    DeletedOne(a, Key(Role, n));
    DeletedOne(role.api, Key(RoleBinding, n));
    if role.ok && role.api.Delete(Key(RoleBinding, n)).ok {
      TakenInTurn(a.objs, role.api.objs, role.api.Delete(Key(RoleBinding, n)).api.objs, Key(Role, n),
          Key(RoleBinding, n));
    }
  }

  lemma PodTaken(a: Api, m: Member)
    requires DestroyPod(a, m).ok
    ensures DestroyPod(a, m).api.objs == a.objs - {Key(ReplicaSet, m.name), Key(ServiceAccount, m.name)}
              - if m.rules == [] then {} else {Key(Role, m.name), Key(RoleBinding, m.name)}
  {
    AccountTaken(a, m);
    var sa := a.DeleteIfPresent(Key(ReplicaSet, m.name)).api.Delete(Key(ServiceAccount, m.name));
    if m.rules != [] { RoleTaken(sa.api, m.name); }
  }

  /** A successful stop takes away exactly the pod with its account and role: services, claims,
      ConfigMaps and policies stay. */
  lemma StopTakesPod(a: Api, g: Group)
    requires Stop(a, g).err.None?
    ensures var n := g.self.name;
            Stop(a, g).api.objs == a.objs - {Key(ReplicaSet, n), Key(ServiceAccount, n)}
              - if g.self.rules == [] then {} else {Key(Role, n), Key(RoleBinding, n)}
  {
    PodTaken(a, g.self);
  }

  /** Destroying the resources of one instance stops at the first error: when its ConfigMap is not
      there, the claim is gone already, and service and policy stay. */
  lemma DestroyStopsAtConfigMap(a: Api, m: Member)
    requires a.FaultFree() && m.files != [] && Key(ConfigMap, m.name) !in a.objs
    ensures var r := DestroyResources(a, m);
            !r.ok && r.api.objs == a.objs - if m.volumes == [] then {} else {Key(VolumeClaim, m.name)}
  {
    DeleteIfPresentWorks(a, Key(VolumeClaim, m.name));
  }

  lemma StopFootprint(a: Api, g: Group)
    ensures Cuts(a, Stop(a, g).api, g.Names())
  {
    MemberFacts(g);
    if g.self.state == StateStarted {
      DestroyPodFootprint(a, g.self);
      GrowsWider(a, DestroyPod(a, g.self).api, {g.self.name}, {}, g.Names(), {});
    }
  }

  /** Every member's objects are gone. */
  ghost predicate AllGone(a: Api, g: Group) {
    PodGone(a, g.self) && ResourcesGone(a, g.self) && FirstGone(a, g.sidecars, |g.sidecars|)
  }

  lemma DestroyFootprint(a: Api, g: Group)
    ensures var e := Destroy(a, g);
            Cuts(a, e.api, g.Names()) && (e.err.None? && g.self.state != StateDestroyed ==> AllGone(e.api, g))
  {
    if g.self.state == StateStarted || g.self.state == StateStopped {
      TearDownFootprint(a, g);
    }
  }

  lemma PodCut(a: Api, g: Group)
    ensures var r := DestroyPod(a, g.self);
            Cuts(a, r.api, g.Names()) && (r.ok ==> PodGone(r.api, g.self))
  {
    MemberFacts(g);
    DestroyPodFootprint(a, g.self);
    GrowsWider(a, DestroyPod(a, g.self).api, {g.self.name}, {}, g.Names(), {});
  }

  lemma OwnCut(a: Api, g: Group)
    ensures var r := DestroyResources(a, g.self);
            Cuts(a, r.api, g.Names()) && (r.ok ==> ResourcesGone(r.api, g.self))
  {
    MemberFacts(g);
    DestroyResourcesFootprint(a, g.self);
    GrowsWider(a, DestroyResources(a, g.self).api, {g.self.name}, {}, g.Names(), {});
  }

  lemma SidecarsCut(a: Api, g: Group)
    requires PodGone(a, g.self) && ResourcesGone(a, g.self)
    ensures var r := DestroySidecars(a, g.sidecars, |g.sidecars|);
            Cuts(a, r.api, g.Names()) && (r.ok ==> AllGone(r.api, g))
  {
    MemberFacts(g);
    var r := DestroySidecars(a, g.sidecars, |g.sidecars|);
    DestroySidecarsFootprint(a, g.sidecars, |g.sidecars|, g.Names());
    StaysGone(a, r.api, g.Names(), g.self);
  }

  lemma TearDownFootprint(a: Api, g: Group)
    requires g.self.state == StateStarted || g.self.state == StateStopped
    ensures var e := Destroy(a, g);
            Cuts(a, e.api, g.Names()) && (e.err.None? ==> AllGone(e.api, g))
  {
    MemberFacts(g);
    var names := g.Names();
    var pod := DestroyPod(a, g.self);
    PodCut(a, g);
    if pod.ok {
      var own := DestroyResources(pod.api, g.self);
      OwnCut(pod.api, g);
      CutsThen(a, pod.api, own.api, names);
      if own.ok {
        StaysGone(pod.api, own.api, names, g.self);
        SidecarsCut(own.api, g);
        CutsThen(a, own.api, DestroySidecars(own.api, g.sidecars, |g.sidecars|).api, names);
      }
    }
  }

  lemma NetworkFootprint(a: Api, g: Group)
    ensures Grows(a, Disable(a, g).api, g.Names(), if g.self.state == StateStarted then
            {Key(NetworkPolicy, g.self.name)} else {})
    ensures Cuts(a, Enable(a, g).api, g.Names())
  {
    MemberFacts(g);
    CreateGrows(a, Key(NetworkPolicy, g.self.name), Bare);
    DeleteCuts(a, Key(NetworkPolicy, g.self.name));
  }

  // ---------------------------------------------------------------- failure atomicity

  ghost predicate SameStates(g: Group, h: Group) {
    && g.self.state == h.self.state && g.self.image == h.self.image
    && |g.sidecars| == |h.sidecars|
    && forall i | 0 <= i < |g.sidecars| :: g.sidecars[i].state == h.sidecars[i].state
        && g.sidecars[i].image == h.sidecars[i].image
  }


  /** Whatever call fails, a failed operation leaves the state and the image of the instance
      and of every sidecar as they were; a successful one moves all of them together. */
  lemma StartAtomic(a: Api, g: Group, disk: map<string, string>)
    ensures var e := Start(a, g, disk);
            && (e.err.Some? ==> SameStates(g, e.group))
            && (e.err.None? ==> SameStates(g.WithState(StateStarted), e.group))
  {
    StartFootprint(a, g, disk);
  }

  lemma StopDestroyAtomic(a: Api, g: Group)
    ensures var e := Stop(a, g);
            && (e.err.Some? ==> e.group == g) && (e.err.None? ==> e.group == g.WithState(StateStopped))
    ensures var e := Destroy(a, g);
            && (e.err.Some? ==> e.group == g)
            && (e.err.None? ==> e.group == if g.self.state == StateDestroyed then g else g.WithState(StateDestroyed))
  {
  }
}
