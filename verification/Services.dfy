/** Which members of a group get a service when it starts, and what becomes of that in a clone. */
module Services {

  import opened Wrappers
  import opened PodSpec
  import opened Cluster
  import opened Lifecycle
  import opened Footprint
  import opened Runs
  import opened Progress

  function ServiceKey(m: Member): Key { Key(Service, m.name) }

  /** What a member has to have to be deployed with a service. */
  predicate Served(m: Member) { !m.isSidecar && m.HasPorts() }

  lemma ServiceDeployed(a: Api, m: Member)
    requires a.FaultFree() && ServiceKey(m) !in a.objs
    ensures ServiceKey(m) in DeployService(a, m).api.objs <==> m.HasPorts()
  {
    if m.HasPorts() { assert a.ServicePointer().api.Next().Works?; }
  }

  /** Storing neither brings nor removes a service. */
  lemma VolumeServesNobody(a: Api, m: Member, n: string)
    ensures Key(Service, n) in DeployVolume(a, m).api.objs <==> Key(Service, n) in a.objs
  {
  }

  lemma FilesServeNobody(a: Api, m: Member, disk: map<string, string>, n: string)
    ensures Key(Service, n) in DeployFiles(a, m, disk).api.objs <==> Key(Service, n) in a.objs
  {
  }

  /** Without failing calls deployResources of one instance creates its service exactly when it is
      no sidecar and has ports. */
  lemma ServiceExactly(a: Api, m: Member, disk: map<string, string>)
    requires a.FaultFree() && ServiceKey(m) !in a.objs && forall f | f in m.files :: f.source in disk
    ensures ServiceKey(m) in DeployResources(a, m, disk).api.objs <==> Served(m)
  {
    var service := if m.isSidecar then Reply(a, true) else DeployService(a, m);
    ServiceDeployed(a, m);
    DeployServiceWorks(a, m);
    var m1 := if m.isSidecar then m else m.(hasService := m.hasService || m.HasPorts());
    VolumeServesNobody(service.api, m1, m.name);
    DeployVolumeWorks(service.api, m1);
    FilesServeNobody(DeployVolume(service.api, m1).api, m1, disk, m.name);
  }

  /** After the first n sidecars: those have a service as they should, the others have none. */
  ghost predicate ServedSoFar(ms: seq<Member>, r: DeployedAll, n: nat) {
    && r.ok && r.api.FaultFree() && RestSame(ms, r.sidecars, n)
    && forall i | 0 <= i < |ms| :: ServiceKey(ms[i]) in r.api.objs <==> i < n && Served(ms[i])
  }

  ghost predicate NamesApart(ms: seq<Member>) { forall i, j | 0 <= i < j < |ms| :: ms[i].name != ms[j].name }

  lemma ServeNext(ms: seq<Member>, before: DeployedAll, n: nat, disk: map<string, string>, r: DeployedAll)
    requires n < |ms| == |before.sidecars| && NamesApart(ms) && ServedSoFar(ms, before, n)
    requires r == DeployNext(before, n, disk) && forall f | f in ms[n].files :: f.source in disk
    ensures ServedSoFar(ms, r, n + 1)
  {
    var b, m := before.api.Other().api, ms[n];
    assert b.FaultFree() && b.objs == before.api.objs;
    ServiceExactly(b, m, disk);
    DeployResourcesWorks(b, m, disk);
    DeployResourcesFootprint(b, m, disk);
    forall i | 0 <= i < |ms| ensures ServiceKey(ms[i]) in r.api.objs <==> i < n + 1 && Served(ms[i]) {
      if i != n { assert ms[i].name != m.name; }
    }
  }

  lemma SidecarsServed(a: Api, ms: seq<Member>, disk: map<string, string>)
    requires a.FaultFree() && NamesApart(ms) && forall i | 0 <= i < |ms| :: ServiceKey(ms[i]) !in a.objs
    requires forall i, f | 0 <= i < |ms| && f in ms[i].files :: f.source in disk
    ensures ServedSoFar(ms, DeploySidecars(a, ms, disk, |ms|), |ms|)
  {
    var keeps := (r: DeployedAll, n: nat) => ServedSoFar(ms, r, n);
    forall before: DeployedAll, n: nat | n < |ms| && |before.sidecars| == |ms| && keeps(before, n)
      ensures keeps(DeployNext(before, n, disk), n + 1)
    {
      ServeNext(ms, before, n, disk, DeployNext(before, n, disk));
    }
    SidecarInduction(a, ms, disk, |ms|, keeps);
  }

  /** The members that have a service are those that should. */
  ghost predicate AllServed(a: Api, g: Group) {
    forall m | m in g.Members() :: ServiceKey(m) in a.objs <==> Served(m)
  }

  ghost predicate NoneServed(a: Api, g: Group) { forall m | m in g.Members() :: ServiceKey(m) !in a.objs }

  lemma OwnServed(a: Api, g: Group, disk: map<string, string>)
    requires a.FaultFree() && Readable(g, disk) && DistinctMembers(g) && NoneServed(a, g)
    ensures var own := DeployResources(a, g.self, disk);
            && own.ok && own.api.FaultFree() && (ServiceKey(g.self) in own.api.objs <==> Served(g.self))
            && forall i | 0 <= i < |g.sidecars| :: ServiceKey(g.sidecars[i]) !in own.api.objs
  {
    assert g.Members()[0] == g.self;
    ServiceExactly(a, g.self, disk);
    DeployResourcesWorks(a, g.self, disk);
    DeployResourcesFootprint(a, g.self, disk);
    forall i | 0 <= i < |g.sidecars| ensures ServiceKey(g.sidecars[i]) !in DeployResources(a, g.self, disk).api.objs {
      assert g.Members()[i + 1] == g.sidecars[i] && g.sidecars[i].name != g.self.name;
    }
  }

  /** The same for the whole group. */
  lemma GroupServed(a: Api, g: Group, disk: map<string, string>)
    requires a.FaultFree() && Readable(g, disk) && DistinctMembers(g) && NoneServed(a, g)
    ensures AllServed(DeployCommitted(a, g, disk).api, g)
  {
    var own := DeployResources(a, g.self, disk);
    OwnServed(a, g, disk);
    forall i, f | 0 <= i < |g.sidecars| && f in g.sidecars[i].files ensures f.source in disk {
      assert g.Members()[i + 1] == g.sidecars[i];
    }
    SidecarsServed(own.api, g.sidecars, disk);
    SidecarsTouchOthersNot(own.api, g, disk);
    forall m | m in g.Members() ensures ServiceKey(m) in DeployCommitted(a, g, disk).api.objs <==> Served(m) {
      if m != g.self { assert m in g.sidecars; }
    }
  }

  lemma SidecarsTouchOthersNot(a: Api, g: Group, disk: map<string, string>)
    requires DistinctMembers(g)
    ensures ServiceKey(g.self) in DeploySidecars(a, g.sidecars, disk, |g.sidecars|).api.objs <==>
            ServiceKey(g.self) in a.objs
  {
    var names, keys := NamesOf(g.sidecars), ResourceKeysOf(g.sidecars);
    forall i | 0 <= i < |g.sidecars|
      ensures g.sidecars[i].name in names && ResourceKeys(g.sidecars[i]) <= keys
    {
      assert g.sidecars[i] in g.sidecars;
    }
    DeploySidecarsFootprint(a, g.sidecars, disk, |g.sidecars|, names, keys);
  }

  lemma PodServesNobody(a: Api, g: Group, n: string)
    ensures Key(Service, n) in DeployPod(a, g).api.objs <==> Key(Service, n) in a.objs
  {
    DeployPodFootprint(a, g);
  }

  lemma StartIs(a: Api, g: Group, disk: map<string, string>)
    requires MayStart(g) && g.self.state == StateCommitted && DeployCommitted(a, g, disk).err.None?
    ensures var e := DeployCommitted(a, g, disk); Start(a, g, disk).api == DeployPod(e.api, e.group).api
  {
  }

  /** Starting a committed instance gives a service to exactly the members that are no sidecars
      and have ports. */
  lemma StartServes(a: Api, g: Group, disk: map<string, string>)
    requires Orderly(a, g, disk) && g.self.state == StateCommitted && NoneServed(a, g)
    ensures AllServed(Start(a, g, disk).api, g)
  {
    GroupServed(a, g, disk);
    StartLockstep(a, g, disk);
    DeployCommittedWorks(a, g, disk);
    StartIs(a, g, disk);
    var e := DeployCommitted(a, g, disk);
    forall m | m in g.Members() ensures ServiceKey(m) in Start(a, g, disk).api.objs <==> Served(m) {
      PodServesNobody(e.api, e.group, m.name);
    }
  }

  // ---------------------------------------------------------------- clones

  /** The group of a clone: the same members under other names. */
  ghost predicate ClonedGroup(g: Group, h: Group) {
    && h.self == g.self.Cloned(h.self.name) && |h.sidecars| == |g.sidecars|
    && forall k | 0 <= k < |g.sidecars| :: h.sidecars[k] == g.sidecars[k].Cloned(h.sidecars[k].name)
  }

  lemma MemberServed(a: Api, g: Group, disk: map<string, string>, m: Member)
    requires Orderly(a, g, disk) && g.self.state == StateCommitted && NoneServed(a, g) && m in g.Members()
    ensures ServiceKey(m) in Start(a, g, disk).api.objs <==> Served(m)
  {
    StartServes(a, g, disk);
  }

  /** A sidecar has no service of its own, and its clone has one exactly when it has ports: the
      clone is no longer marked as a sidecar. */
  lemma ClonesServe(a: Api, g: Group, b: Api, h: Group, disk: map<string, string>, k: nat)
    requires ClonedGroup(g, h) && g.self.state == StateCommitted && k < |g.sidecars|
    requires Orderly(a, g, disk) && NoneServed(a, g) && Orderly(b, h, disk) && NoneServed(b, h)
    ensures ServiceKey(g.sidecars[k]) in Start(a, g, disk).api.objs <==> Served(g.sidecars[k])
    ensures ServiceKey(h.sidecars[k]) in Start(b, h, disk).api.objs <==> g.sidecars[k].HasPorts()
  {
    assert g.Members()[k + 1] == g.sidecars[k] && h.Members()[k + 1] == h.sidecars[k];
    MemberServed(a, g, disk, g.sidecars[k]);
    MemberServed(b, h, disk, h.sidecars[k]);
  }

  /** A committed instance that got the traffic shaper, with its default image and port, and a clone. */
  const PLAIN := Member("a", StateCommitted, false, "i", [], [], map[], [], [], [], [], [], [], [], false)

  const SHAPER := Member("a-bit-twister", StateCommitted, true, "ghcr.io/celestiaorg/bittwister:4187779", [], [],
                         map["SERVE_ADDR" := "0.0.0.0:9009"], [], [], [9009], [], [9009], [], [], false)

  const SHAPED := WithSidecar(Group(PLAIN, []), SHAPER)

  const COPY := Group(SHAPED.self.Cloned("b"), [SHAPER.Cloned("b-bit-twister")])

  const EMPTY := Api(map[], [], {})

  lemma Ready(g: Group)
    requires g == SHAPED || g == COPY
    ensures Orderly(EMPTY, g, map[]) && NoneServed(EMPTY, g)
  {
    assert g.Members() == [g.self, g.sidecars[0]];
    assert g.self.name[0] in "ab" && |g.self.name| == 1 && |g.sidecars[0].name| > 1;
  }

  lemma Serves(g: Group, m: Member)
    requires (g == SHAPED || g == COPY) && (m == g.self || m == g.sidecars[0])
    ensures var started := Start(EMPTY, g, map[]);
            started.err.None? && (ServiceKey(m) in started.api.objs <==> Served(m))
  {
    Ready(g);
    StartWorks(EMPTY, g, map[]);
    StartServes(EMPTY, g, map[]);
    assert g.Members() == [g.self, g.sidecars[0]];
    assert m in g.Members();
  }

  /** The start of the original creates one service, that of its clone two. */
  lemma ClonedShaperServes()
    ensures ClonedGroup(SHAPED, COPY)
    ensures var started := Start(EMPTY, SHAPED, map[]);
            && started.err.None? && ServiceKey(SHAPED.self) in started.api.objs
            && ServiceKey(SHAPED.sidecars[0]) !in started.api.objs
    ensures var started := Start(EMPTY, COPY, map[]);
            && started.err.None? && ServiceKey(COPY.self) in started.api.objs
            && ServiceKey(COPY.sidecars[0]) in started.api.objs
  {
    Serves(SHAPED, SHAPED.self);
    Serves(SHAPED, SHAPED.sidecars[0]);
    Serves(COPY, COPY.self);
    Serves(COPY, COPY.sidecars[0]);
  }
}
