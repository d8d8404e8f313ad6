/** What a successful start has put into the cluster: the pod with all its containers, and the
    role, service, claim and ConfigMap that they use. */
module Contents {

  import opened Wrappers
  import opened Text
  import opened PodSpec
  import opened Cluster
  import opened Lifecycle
  import opened Footprint
  import opened Runs

  // ---------------------------------------------------------------- the objects

  /** The container is configured as the member is. */
  ghost predicate Configures(c: ContainerConfig, m: Member) {
    && c.name == m.name && c.image == m.image && c.command == m.command && c.args == m.args && c.env == m.env
    && c.volumes == m.volumes && c.files == m.files && c.tcp == m.tcp && c.udp == m.udp
  }

  /** The pod of the group: a container for the instance and one for every sidecar, in order, and
      no others. */
  ghost predicate IsPodOf(pod: PodConfig, g: Group) {
    && pod.name == g.self.name && pod.serviceAccount == g.self.name && Configures(pod.main, g.self)
    && |pod.sidecars| == |g.sidecars|
    && forall k | 0 <= k < |g.sidecars| :: Configures(pod.sidecars[k], g.sidecars[k])
  }

  ghost predicate PodDeployed(a: Api, g: Group) {
    var n := g.self.name;
    && Key(ReplicaSet, n) in a.objs && a.objs[Key(ReplicaSet, n)].Template?
    && IsPodOf(a.objs[Key(ReplicaSet, n)].config, g)
    && Key(ServiceAccount, n) in a.objs
    && (g.self.rules != [] ==>
          && Key(Role, n) in a.objs && a.objs[Key(Role, n)] == Rules(g.self.rules)
          && Key(RoleBinding, n) in a.objs)
  }

  /** The claim; one that was there before is left as it is. */
  ghost predicate ClaimDeployed(a: Api, b: Api, m: Member) {
    var k := Key(VolumeClaim, m.name);
    m.volumes != [] ==> k in b.objs && b.objs[k] == if k in a.objs then a.objs[k] else Size(TotalSize(m.volumes))
  }

  /** The ConfigMap: the contents of the files under their positions. */
  ghost predicate FilesDeployed(b: Api, m: Member, disk: map<string, string>) {
    var k := Key(ConfigMap, m.name);
    m.files != [] ==>
      && k in b.objs && b.objs[k].Entries? && |b.objs[k].data| == |m.files|
      && forall i | 0 <= i < |m.files| ::
           && m.files[i].source in disk && Decimal(i) in b.objs[k].data
           && b.objs[k].data[Decimal(i)] == disk[m.files[i].source]
  }

  ghost predicate ServiceIs(b: Api, m: Member) {
    var k := Key(Service, m.name);
    !m.isSidecar && m.HasPorts() ==> k in b.objs && b.objs[k] == Ports(m.serviceTcp, m.serviceUdp)
  }

  /** From a to b the resources of the member have been deployed. */
  ghost predicate ResourcesDeployed(a: Api, b: Api, m: Member, disk: map<string, string>) {
    ServiceIs(b, m) && ClaimDeployed(a, b, m) && FilesDeployed(b, m, disk)
  }

  /** The size asked for is the sum of the sizes. */
  lemma {:induction false} TotalSizeIs(v: seq<Volume>, w: seq<Volume>)
    ensures TotalSize([]) == 0 && forall x: Volume :: TotalSize([x]) == x.size
    ensures TotalSize(v + w) == TotalSize(v) + TotalSize(w)
  {
    if w == [] {
      assert v + w == v;
    } else {
      assert (v + w)[..|v + w| - 1] == v + w[..|w| - 1];
      TotalSizeIs(v, w[..|w| - 1]);
    }
  }

  // ---------------------------------------------------------------- single calls

  /** Every object stays, and as it was. */
  ghost predicate Extends(a: Api, b: Api) {
    forall k | k in a.objs :: k in b.objs && b.objs[k] == a.objs[k]
  }

  /** No object but the one of the given key has changed. */
  ghost predicate OnlyKey(a: Api, b: Api, k: Key) {
    forall l: Key | l != k :: (l in a.objs <==> l in b.objs) && (l in a.objs ==> b.objs[l] == a.objs[l])
  }

  lemma Created(a: Api, k: Key, o: Object)
    ensures var r := a.Create(k, o); Extends(a, r.api) && (r.ok ==> k in r.api.objs && r.api.objs[k] == o)
  {
  }

  lemma PlainPodContents(a: Api, g: Group)
    requires g.self.rules == []
    ensures var r := DeployPod(a, g); Extends(a, r.api) && (r.ok ==> PodDeployed(r.api, g))
  {
    var n := g.self.name;
    var sa := a.Create(Key(ServiceAccount, n), Bare);
    Created(a, Key(ServiceAccount, n), Bare);
    Created(sa.api, Key(ReplicaSet, n), Template(g.Pod()));
  }

  lemma RolesPodContents(a: Api, g: Group)
    requires g.self.rules != []
    ensures var r := DeployPod(a, g); Extends(a, r.api) && (r.ok ==> PodDeployed(r.api, g))
  {
    var n := g.self.name;
    var sa := a.Create(Key(ServiceAccount, n), Bare);
    Created(a, Key(ServiceAccount, n), Bare);
    var role := sa.api.Create(Key(Role, n), Rules(g.self.rules));
    Created(sa.api, Key(Role, n), Rules(g.self.rules));
    var binding := role.api.Create(Key(RoleBinding, n), Bare);
    Created(role.api, Key(RoleBinding, n), Bare);
    Created(binding.api, Key(ReplicaSet, n), Template(g.Pod()));
  }

  lemma PodContents(a: Api, g: Group)
    ensures var r := DeployPod(a, g); Extends(a, r.api) && (r.ok ==> PodDeployed(r.api, g))
  {
    if g.self.rules == [] { PlainPodContents(a, g); } else { RolesPodContents(a, g); }
  }

  // ---------------------------------------------------------------- the resources of one member

  lemma ServiceContents(a: Api, m: Member)
    ensures var r := DeployService(a, m);
            OnlyKey(a, r.api, Key(Service, m.name)) && (r.ok ==> ServiceIs(r.api, m))
  {
  }

  lemma VolumeContents(a: Api, m: Member)
    ensures var r := DeployVolume(a, m);
            OnlyKey(a, r.api, Key(VolumeClaim, m.name)) && (r.ok ==> ClaimDeployed(a, r.api, m))
  {
  }

  lemma Upserted(a: Api, k: Key, o: Object)
    ensures var r := a.CreateOrUpdate(k, o); OnlyKey(a, r.api, k) && (r.ok ==> k in r.api.objs && r.api.objs[k] == o)
  {
  }

  lemma FilesContents(a: Api, m: Member, disk: map<string, string>)
    ensures var r := DeployFiles(a, m, disk);
            OnlyKey(a, r.api, Key(ConfigMap, m.name)) && (r.ok ==> FilesDeployed(r.api, m, disk))
  {
    if m.files != [] && forall f | f in m.files :: f.source in disk {
      var k, o := Key(ConfigMap, m.name), Entries(FileData(m.files, disk));
      Upserted(a, k, o);
      assert DeployFiles(a, m, disk) == a.CreateOrUpdate(k, o);
      FileDataIs(m.files, disk);
    }
  }

  lemma ResourceContents(a: Api, m: Member, disk: map<string, string>)
    ensures var d := DeployResources(a, m, disk); d.ok ==> ResourcesDeployed(a, d.api, m, disk)
  {
    var service := if m.isSidecar then Reply(a, true) else DeployService(a, m);
    ServiceContents(a, m);
    var m1 := if m.isSidecar then m else m.(hasService := m.hasService || m.HasPorts());
    var volume := DeployVolume(service.api, m1);
    VolumeContents(service.api, m1);
    FilesContents(volume.api, m1, disk);
  }

  // ---------------------------------------------------------------- all members

  /** Nothing of that name has changed. */
  ghost predicate NameSame(a: Api, b: Api, n: string) {
    forall kind :: (Key(kind, n) in a.objs <==> Key(kind, n) in b.objs)
      && (Key(kind, n) in a.objs ==> b.objs[Key(kind, n)] == a.objs[Key(kind, n)])
  }

  lemma OthersStay(a: Api, b: Api, names: set<string>, n: string)
    requires Only(a, b, names) && n !in names
    ensures NameSame(a, b, n)
  {
  }

  lemma StillDeployed(a: Api, b: Api, c: Api, m: Member, disk: map<string, string>)
    requires ResourcesDeployed(a, b, m, disk) && NameSame(b, c, m.name)
    ensures ResourcesDeployed(a, c, m, disk)
  {
  }

  lemma DeployedSince(a: Api, b: Api, c: Api, m: Member, disk: map<string, string>)
    requires NameSame(a, b, m.name) && ResourcesDeployed(b, c, m, disk)
    ensures ResourcesDeployed(a, c, m, disk)
  {
  }

  /** After the first n sidecars. */
  ghost predicate DeployedSoFar(a: Api, ms: seq<Member>, disk: map<string, string>, r: DeployedAll, n: nat) {
    && RestSame(ms, r.sidecars, n)
    && (forall i | n <= i < |ms| :: NameSame(a, r.api, ms[i].name))
    && (r.ok ==> forall i | 0 <= i < n && i < |ms| :: ResourcesDeployed(a, r.api, ms[i], disk))
  }

  ghost predicate NamesDiffer(ms: seq<Member>) { forall i, j | 0 <= i < j < |ms| :: ms[i].name != ms[j].name }

  /** What deploying one sidecar does to the names of the others. */
  lemma OneDeployed(a: Api, m: Member, disk: map<string, string>, n: string)
    requires n != m.name
    ensures NameSame(a, DeployResources(a, m, disk).api, n)
  {
    DeployResourcesFootprint(a, m, disk);
    OthersStay(a, DeployResources(a, m, disk).api, {m.name}, n);
  }

  lemma DeployNextContents(a: Api, ms: seq<Member>, disk: map<string, string>, before: DeployedAll, n: nat,
      r: DeployedAll)
    requires n < |ms| == |before.sidecars| && NamesDiffer(ms) && DeployedSoFar(a, ms, disk, before, n)
    requires r == DeployNext(before, n, disk)
    ensures DeployedSoFar(a, ms, disk, r, n + 1)
  {
    var b, m := before.api.Other().api, ms[n];
    assert b.objs == before.api.objs;
    if before.ok && before.api.Other().ok {
      var d := DeployResources(b, m, disk);
      forall i | n + 1 <= i < |ms| ensures NameSame(a, d.api, ms[i].name) {
        OneDeployed(b, m, disk, ms[i].name);
      }
      if d.ok {
        ResourceContents(b, m, disk);
        DeployedSince(a, b, d.api, m, disk);
        forall i | 0 <= i < n ensures ResourcesDeployed(a, d.api, ms[i], disk) {
          OneDeployed(b, m, disk, ms[i].name);
          StillDeployed(a, before.api, d.api, ms[i], disk);
        }
      }
    }
  }

  lemma SidecarContents(a: Api, ms: seq<Member>, disk: map<string, string>)
    requires NamesDiffer(ms)
    ensures DeployedSoFar(a, ms, disk, DeploySidecars(a, ms, disk, |ms|), |ms|)
  {
    var keeps := (r: DeployedAll, n: nat) => DeployedSoFar(a, ms, disk, r, n);
    forall before: DeployedAll, n: nat | n < |ms| && |before.sidecars| == |ms| && keeps(before, n)
      ensures keeps(DeployNext(before, n, disk), n + 1)
    {
      DeployNextContents(a, ms, disk, before, n, DeployNext(before, n, disk));
    }
    SidecarInduction(a, ms, disk, |ms|, keeps);
  }

  // ---------------------------------------------------------------- the group

  /** The resources of every member. */
  ghost predicate AllDeployed(a: Api, b: Api, g: Group, disk: map<string, string>) {
    && ResourcesDeployed(a, b, g.self, disk)
    && forall k | 0 <= k < |g.sidecars| :: ResourcesDeployed(a, b, g.sidecars[k], disk)
  }

  lemma SelfStays(a: Api, g: Group, disk: map<string, string>)
    requires DistinctMembers(g)
    ensures NameSame(a, DeploySidecars(a, g.sidecars, disk, |g.sidecars|).api, g.self.name)
  {
    var names, keys := NamesOf(g.sidecars), ResourceKeysOf(g.sidecars);
    forall i | 0 <= i < |g.sidecars|
      ensures g.sidecars[i].name in names && ResourceKeys(g.sidecars[i]) <= keys
    {
      assert g.sidecars[i] in g.sidecars;
    }
    DeploySidecarsFootprint(a, g.sidecars, disk, |g.sidecars|, names, keys);
    OthersStay(a, DeploySidecars(a, g.sidecars, disk, |g.sidecars|).api, names, g.self.name);
  }

  lemma CommittedContents(a: Api, g: Group, disk: map<string, string>)
    requires DistinctMembers(g) && DeployCommitted(a, g, disk).err.None?
    ensures AllDeployed(a, DeployCommitted(a, g, disk).api, g, disk)
  {
    var own := DeployResources(a, g.self, disk);
    var all := DeploySidecars(own.api, g.sidecars, disk, |g.sidecars|);
    ResourceContents(a, g.self, disk);
    SelfStays(own.api, g, disk);
    StillDeployed(a, own.api, all.api, g.self, disk);
    SidecarContents(own.api, g.sidecars, disk);
    forall k | 0 <= k < |g.sidecars| ensures ResourcesDeployed(a, all.api, g.sidecars[k], disk) {
      OneDeployed(a, g.self, disk, g.sidecars[k].name);
      DeployedSince(a, own.api, all.api, g.sidecars[k], disk);
    }
  }

  lemma ExtendedDeployed(a: Api, b: Api, c: Api, m: Member, disk: map<string, string>)
    requires ResourcesDeployed(a, b, m, disk) && Extends(b, c)
    ensures ResourcesDeployed(a, c, m, disk)
  {
  }

  /** Knowing its services makes no difference to a pod. */
  lemma SamePod(b: Api, g: Group, h: Group, ok: bool)
    requires PodDeployed(b, h) && ServiceKnown(g.self, h.self, ok)
    requires ServicesKnown(g.sidecars, h.sidecars, ok, |g.sidecars|)
    ensures PodDeployed(b, g)
  {
    var pod := b.objs[Key(ReplicaSet, g.self.name)].config;
    forall k | 0 <= k < |g.sidecars| ensures Configures(pod.sidecars[k], g.sidecars[k]) {
      assert Configures(pod.sidecars[k], h.sidecars[k]) && ServiceAside(g.sidecars[k], h.sidecars[k]);
    }
  }

  /** A successful start leaves the pod in the cluster, with the configuration of the instance and of
      each of its sidecars, under an account and a role with its rules. */
  lemma StartDeploysPod(a: Api, g: Group, disk: map<string, string>)
    requires Start(a, g, disk).err.None?
    ensures PodDeployed(Start(a, g, disk).api, g)
  {
    StartFootprint(a, g, disk);
    var r := ResourcesForStart(a, g, disk);
    var pod := DeployPod(r.api, r.group);
    assert r.err.None? && pod.ok && Start(a, g, disk).api == pod.api;
    PodContents(r.api, r.group);
    SamePod(pod.api, g, r.group, g.self.state == StateCommitted);
  }

  /** What a successful start leaves in the cluster, whatever was there before and whichever calls
      failed on the way without stopping it: the pod; and, of a committed instance, for each member the
      service with its ports, the claim of the size it asks for, and the ConfigMap with the contents of
      its files. */
  lemma StartDeploys(a: Api, g: Group, disk: map<string, string>)
    requires DistinctMembers(g) && Start(a, g, disk).err.None?
    ensures PodDeployed(Start(a, g, disk).api, g)
    ensures g.self.state == StateCommitted ==> AllDeployed(a, Start(a, g, disk).api, g, disk)
  {
    StartDeploysPod(a, g, disk);
    if g.self.state == StateCommitted {
      var e := DeployCommitted(a, g, disk);
      var pod := DeployPod(e.api, e.group);
      CommittedContents(a, g, disk);
      PodContents(e.api, e.group);
      ExtendedDeployed(a, e.api, pod.api, g.self, disk);
      forall k | 0 <= k < |g.sidecars| ensures ResourcesDeployed(a, pod.api, g.sidecars[k], disk) {
        ExtendedDeployed(a, e.api, pod.api, g.sidecars[k], disk);
      }
    }
  }

  /** Of the members, a start changes the states and the pointers to services only. */
  lemma StartChanges(a: Api, g: Group, disk: map<string, string>)
    ensures var h := Start(a, g, disk).group;
            && h.self == g.self.(state := h.self.state, hasService := h.self.hasService)
            && |h.sidecars| == |g.sidecars|
            && forall k | 0 <= k < |g.sidecars| ::
                 h.sidecars[k] == g.sidecars[k].(state := h.sidecars[k].state, hasService := h.sidecars[k].hasService)
  {
    StartFootprint(a, g, disk);
    var e := Start(a, g, disk);
    var deployed := e.err.None? && g.self.state == StateCommitted;
    var h := if e.err.None? then g.WithState(StateStarted) else g;
    forall k | 0 <= k < |g.sidecars|
      ensures e.group.sidecars[k] ==
              g.sidecars[k].(state := e.group.sidecars[k].state, hasService := e.group.sidecars[k].hasService)
    {
      assert ServiceKnown(h.sidecars[k], e.group.sidecars[k], deployed);
    }
  }

  // ---------------------------------------------------------------- the pod and what it refers to

  /** The volume refers to something that is in the cluster. */
  predicate Backed(a: Api, v: PodVolume) {
    match v.source
    case Claim(n) => Key(VolumeClaim, n) in a.objs
    case ConfigMapRef(n) => Key(ConfigMap, n) in a.objs
    case EmptyDir => true
  }

  lemma MemberBacked(a: Api, b: Api, m: Member, disk: map<string, string>, c: ContainerConfig, v: PodVolume)
    requires ResourcesDeployed(a, b, m, disk) && Configures(c, m)
    requires v in PodVolumes(c.name, |c.volumes|, |c.files|)
    ensures Backed(b, v)
  {
  }

  lemma PodBacked(a: Api, b: Api, g: Group, disk: map<string, string>, pod: PodConfig, v: PodVolume)
    requires AllDeployed(a, b, g, disk) && IsPodOf(pod, g) && v in AllVolumes(Configs(pod))
    ensures Backed(b, v)
  {
    var i := DeclaredBy(Configs(pod), v);
    if i == 0 {
      MemberBacked(a, b, g.self, disk, pod.main, v);
    } else {
      assert ResourcesDeployed(a, b, g.sidecars[i - 1], disk);
      MemberBacked(a, b, g.sidecars[i - 1], disk, pod.sidecars[i - 1], v);
    }
  }

  /** After a successful start of a committed instance every claim and ConfigMap that the specification
      of its pod refers to is in the cluster. */
  lemma VolumesBacked(a: Api, g: Group, disk: map<string, string>, init: bool, spec: Spec)
    requires DistinctMembers(g) && g.self.state == StateCommitted && Start(a, g, disk).err.None?
    requires var k := Key(ReplicaSet, g.self.name);
             var b := Start(a, g, disk).api;
             k in b.objs && b.objs[k].Template? && IsSpec(b.objs[k].config, init, spec)
    ensures forall v | v in spec.volumes :: Backed(Start(a, g, disk).api, v)
  {
    StartDeploys(a, g, disk);
    var b := Start(a, g, disk).api;
    forall v | v in spec.volumes ensures Backed(b, v) {
      PodBacked(a, b, g, disk, b.objs[Key(ReplicaSet, g.self.name)].config, v);
    }
  }
}
