/** Instances as mutable objects: they share the registry of names, the cluster client and, as
    clones, the image builder. */
module Instances {

  import opened Wrappers
  import opened Arguments
  import opened Text
  import opened Names
  import opened PodSpec
  import opened Cluster
  import L = Lifecycle
  import opened Lifecycle
  import opened Runs
  import opened Ledgers
  import opened Budget
  import opened Contents

  /** Two predicates that always hold. `forall o: nat | Opened(S, o) :: exists c: nat :: Closed(S, c) && P`
      is P under the seal S: the verifier looks into it only after an `assert Opened(S, 0)`, and
      proves it afresh only after an `assert Closed(S, 0)`; elsewhere it goes by what P reads. */
  datatype Seal = Books | Stock | Family | Display | Naming | Taking | Deploying | Destroying

  predicate Opened(s: Seal, n: nat) { true }

  predicate Closed(s: Seal, n: nat) { true }

  /** The image a push goes to. */
  function Registry(hash: string): string { "ttl.sh/" + hash + ":24h" }

  /** Different hashes go to different images. */
  lemma RegistryApart(h: string, k: string)
    ensures Registry(h) == Registry(k) ==> h == k
  {
    if Registry(h) == Registry(k) {
      assert |h| == |k|;
      assert h == Registry(h)[7..7 + |h|] && k == Registry(k)[7..7 + |k|];
    }
  }

  /** A hexadecimal digest, never empty. */
  type Digest = s: string | s != "" witness "0"

  /** The builder of one image: a list of Dockerfile instructions. */
  class BuilderFactory {
    const imageNameFrom: string
    var imageNameTo: string
    var instructions: seq<string>

    constructor (image: string)
      ensures imageNameFrom == image && instructions == ["FROM " + image] && imageNameTo == ""
    {
      imageNameFrom, imageNameTo, instructions := image, "", ["FROM " + image];
    }

    /** AddCmdToBuilder, AddToBuilder, SetEnvVar, SetUser. */
    method Add(instruction: string)
      modifies this`instructions
      ensures instructions == old(instructions) + [instruction]
    {
      instructions := instructions + [instruction];
    }

    predicate Changed()
      reads this`instructions
    {
      |instructions| > 1
    }

    /** Builds and pushes, unless there is nothing to build; `works` is the outcome of the build. */
    method PushBuilderImage(image: string, works: bool) returns (ok: bool)
      modifies this`imageNameTo
      ensures ok <==> !Changed() || works
      ensures imageNameTo == if Changed() then image else old(imageNameTo)
    {
      if !Changed() { return true; }
      imageNameTo := image;
      ok := works;
    }
  }

  /** The name that is registered when this one is asked for, if it is free. */
  function FreeName(name: string, taken: set<string>): Option<string> {
    var n := SanitizeName(name);
    if n.Some? && n.value in taken then None else n
  }

  function NameError(name: string, taken: set<string>): Option<Error> {
    if SanitizeName(name).None? then Some(EmptyNamePanic)
    else if FreeName(name, taken).None? then Some(ErrInstanceNameAlreadyExists)
    else None
  }

  /** How taking a name ends. */
  ghost predicate NamingEnds(name: string, taken: set<string>, err: Option<Error>) {
    forall o: nat | Opened(Taking, o) :: exists c: nat :: Closed(Taking, c) && err == NameError(name, taken)
  }

  /** The name of a sidecar cannot be had: it is taken, or has no letters and digits. */
  ghost predicate SidecarNameTaken(parent: string, suffix: string, taken: set<string>) {
    forall o: nat | Opened(Taking, o) :: exists c: nat ::
        Closed(Taking, c)
        && NameError(parent + "-" + suffix, taken).Some?
  }

  /** What all instances share. */
  class SystemDependencies {
    var instancesMap: set<string>
    const client: Client
    /** Contents of the files copied into build directories; these are never changed. */
    var disk: map<string, string>
    /** GenerateImageHash: a digest of the instructions and of the build context. */
    const hashOf: (seq<string>, string) -> Digest

    /** The images in the registry. */
    ghost var pushed: set<string>
    /** Every instance that got a name, and the books about them. */
    ghost var all: set<Instance>
    ghost var ledger: Ledger<Instance, BuilderFactory>

    constructor (client: Client, hashOf: (seq<string>, string) -> Digest)
      ensures Valid() && Stored() && all == {} && instancesMap == {} && this.client == client && disk == map[]
    {
      this.client, this.hashOf := client, hashOf;
      instancesMap, disk := {}, map[];
      pushed, all, ledger := {}, {}, Ledgers.Ledger(map[], {}, map[], {}, map[], map[]);
      new;
      assert Closed(Books, 0) && Closed(Stock, 0);
    }

    // -------------------------------------------------------------- the invariant

    /** The books agree with the instances. */
    ghost predicate Recorded()
      reads this`all, this`instancesMap, this`ledger, all`name, all`state, all`factory, all`sidecars
    {
      ledger.entries.Keys == all && ledger.registry == instancesMap
          && forall i | i in all :: ledger.entries[i] == i.Entry()
    }

    /** Cache transparency: an entry maps a hash to the image that was pushed under it. */
    ghost predicate CacheOk(cache: map<string, string>)
      reads this`pushed
    {
      forall h | h in cache :: cache[h] == Registry(h) && Registry(h) in pushed
    }

    /** The file budget. */
    ghost predicate FilesOk(files: seq<File>)
      reads this`disk
    {
      (forall f | f in files :: f.source in disk) && FilesSize(files, disk) <= MAX_TOTAL_FILES_BYTES
    }

    ghost predicate StorageOk(i: Instance)
      reads this`disk, this`pushed, i`imageCache, i`files, i`volumes
    {
      i.sys == this && CacheOk(i.imageCache) && FilesOk(i.files) && |i.volumes| <= 1
    }

    /** What every instance has stored: cached images and files. */
    ghost predicate Stored()
      reads this`all, this`disk, this`pushed, all`imageCache, all`files, all`volumes
    {
      forall o: nat | Opened(Stock, o) :: exists c: nat :: Closed(Stock, c) && forall i | i in all :: StorageOk(i)
    }

    /** Names, factories and sidecars. */
    ghost predicate Valid()
      reads this`all, this`instancesMap, this`ledger, all`name, all`state, all`factory, all`sidecars
    {
      forall o: nat | Opened(Books, o) :: exists c: nat :: Closed(Books, c) && ledger.Ok() && Recorded()
    }

    lemma Open()
      requires Valid()
      ensures ledger.Ok() && Recorded()
    {
      assert Opened(Books, 0);
    }

    lemma Close()
      requires ledger.Ok() && Recorded()
      ensures Valid()
    {
      assert Closed(Books, 0);
    }

    lemma CloseStored()
      requires forall i | i in all :: StorageOk(i)
      ensures Stored()
    {
      assert Closed(Stock, 0);
    }

    lemma OpenStored()
      requires Stored()
      ensures forall i | i in all :: StorageOk(i)
    {
      assert Opened(Stock, 0);
    }

    /** What the invariants do not read does not matter to them. */
    twostate lemma ValidFramed()
      requires old(Valid()) && unchanged(`all) && unchanged(`instancesMap) && unchanged(`ledger)
      requires forall i | i in all ::
              unchanged(i`name) && unchanged(i`state) && unchanged(i`factory)
              && unchanged(i`sidecars)
      ensures Valid()
    {
    }

    twostate lemma StoredFramed()
      requires old(Stored()) && unchanged(`all) && unchanged(`disk) && unchanged(`pushed)
      requires forall i | i in all :: unchanged(i`imageCache) && unchanged(i`files) && unchanged(i`volumes)
      ensures Stored()
    {
    }

    lemma NamesDiffer(i: Instance, j: Instance)
      requires Valid() && i in all && j in all && i != j
      ensures i.name != j.name
    {
      Open();
      assert ledger.entries[i] == i.Entry() && ledger.entries[j] == j.Entry();
    }

    twostate lemma StoredJoined(new i: Instance)
      requires old(Stored()) && all == old(all) + {i} && unchanged(`disk) && unchanged(`pushed) && StorageOk(i)
      requires forall j | j in old(all) && j != i ::
              unchanged(j`imageCache) && unchanged(j`files)
              && unchanged(j`volumes)
      ensures Stored()
    {
      assert Opened(Stock, 0) && Closed(Stock, 0);
    }

    /** All that has happened is that new instances have joined. */
    twostate predicate OnlyJoined()
      reads this
    {
      old(all) <= all && fresh(all - old(all)) && Joined(old(ledger), ledger)
    }

    lemma FactoryUnknown(f: BuilderFactory)
      requires Recorded() && forall j | j in all :: j.factory != f
      ensures forall j | j in ledger.entries :: ledger.entries[j].factory != Some(f)
    {
      forall j | j in ledger.entries ensures ledger.entries[j].factory != Some(f) {
        assert ledger.entries[j] == j.Entry();
      }
    }

    lemma FilesKnown(i: Instance)
      requires Stored() && i in all
      ensures forall f | f in i.files :: f.source in disk
    {
      OpenStored();
    }

    lemma BlankMayJoin(i: Instance)
      requires Valid() && i !in all && i.Blank(this)
      ensures ledger.MayJoin(i, i.Entry(), 0) && StorageOk(i)
    {
      Open();
    }

    /** A factory that configuring may still change is in no other instance's hands. */
    lemma BuilderUnshared(i: Instance)
      requires Valid() && i in all && i.state == StatePreparing
      ensures i.factory != null && forall j | j in all && j != i :: j.factory != i.factory
    {
      Open();
      assert ledger.entries[i] == i.Entry();
      forall j | j in all && j != i ensures j.factory != i.factory {
        assert ledger.entries[j] == j.Entry();
      }
    }

    /** Each cached image is the one that was pushed for its hash, and no two hashes have the same
        image, in the cache of one instance or in those of two. */
    lemma CachesSound(i: Instance, j: Instance)
      requires Stored() && i in all && j in all
      ensures forall h | h in i.imageCache ::
                i.imageCache[h] == "ttl.sh/" + h + ":24h" && i.imageCache[h] in pushed
      ensures forall h, k | h in i.imageCache && k in j.imageCache ::
                i.imageCache[h] == j.imageCache[k] <==> h == k
    {
      OpenStored();
      forall h, k | h in i.imageCache && k in j.imageCache
        ensures i.imageCache[h] == j.imageCache[k] <==> h == k
      {
        RegistryApart(h, k);
      }
    }

    /** The files of every instance, clones included, stay within the budget: any two of them, and all
        that goes into the instance's ConfigMap. */
    lemma FilesWithinBudget(i: Instance)
      requires Stored() && i in all
      ensures forall f | f in i.files :: f.source in disk
      ensures forall j, k | 0 <= j < k < |i.files| ::
                |disk[i.files[j].source]| + |disk[i.files[k].source]| <= 1024 * 1024
      ensures DataSize(FileData(i.files, disk)) <= 1024 * 1024
    {
      OpenStored();
      FileDataSize(i.files, disk);
      forall j, k | 0 <= j < k < |i.files|
        ensures |disk[i.files[j].source]| + |disk[i.files[k].source]| <= 1024 * 1024
      {
        PairWithin(i.files, disk, j, k);
      }
    }

    /** The registry is exactly the set of names of all instances and other objects; no two
        instances share a name, and none shares one with another object. */
    lemma RegistryHolds()
      requires Valid()
      ensures instancesMap == (set i | i in all :: i.name) + ledger.others
      ensures forall i, j | i in all && j in all && i != j :: i.name != j.name
      ensures forall i | i in all :: i.name !in ledger.others
    {
      Open();
      RegistryInjective(ledger);
      forall i | i in all ensures ledger.entries[i].name == i.name { assert ledger.entries[i] == i.Entry(); }
      assert (set i | i in all :: i.name) == set i | i in ledger.entries :: ledger.entries[i].name;
    }

    // -------------------------------------------------------------- the registry

    predicate HasInstanceName(name: string)
      reads this`instancesMap
    {
      name in instancesMap
    }

    method AddInstanceName(name: string)
      modifies this`instancesMap
      ensures instancesMap == old(instancesMap) + {name}
    {
      instancesMap := instancesMap + {name};
    }

    method RemoveInstanceName(name: string)
      modifies this`instancesMap
      ensures instancesMap == old(instancesMap) - {name}
    {
      instancesMap := instancesMap - {name};
    }

    /** Another object takes a name in the same registry. */
    method ReserveName(name: string) returns (reserved: Option<string>)
      requires Valid()
      modifies this`instancesMap, this`ledger
      ensures Valid()
      ensures reserved == FreeName(name, old(instancesMap))
      ensures ledger == if reserved.Some? then old(ledger).Take(reserved.value) else old(ledger)
    {
      reserved := FreeName(name, instancesMap);
      if reserved.Some? { TakeOther(reserved.value); }
    }

    method TakeOther(n: string)
      requires Valid() && n !in instancesMap
      modifies this`instancesMap, this`ledger
      ensures Valid() && ledger == old(ledger).Take(n)
    {
      Open();
      TakeOk(ledger, n);
      AddInstanceName(n);
      ledger := ledger.Take(n);
      Close();
    }
  }

  /** The sidecars of the given instances. */
  ghost function Kids(ss: seq<Instance>): (kids: set<Instance>)
    reads ss`sidecars
    ensures forall s, t | s in ss && t in s.sidecars :: t in kids
  {
    set s, t | s in ss && t in s.sidecars :: t
  }

  /** The ports of the given instances, one instance after another. */
  ghost function TcpOf(ss: seq<Instance>): seq<int>
    reads ss`portsTCP
  {
    if ss == [] then [] else TcpOf(ss[..|ss| - 1]) + ss[|ss| - 1].portsTCP
  }

  ghost function UdpOf(ss: seq<Instance>): seq<int>
    reads ss`portsUDP
  {
    if ss == [] then [] else UdpOf(ss[..|ss| - 1]) + ss[|ss| - 1].portsUDP
  }

  /** One instance has its own ports, and lists of instances follow each other. */
  lemma {:induction false} PortsFollow(ss: seq<Instance>, ts: seq<Instance>)
    ensures TcpOf([]) == [] && UdpOf([]) == []
    ensures forall s: Instance :: TcpOf([s]) == s.portsTCP && UdpOf([s]) == s.portsUDP
    ensures TcpOf(ss + ts) == TcpOf(ss) + TcpOf(ts) && UdpOf(ss + ts) == UdpOf(ss) + UdpOf(ts)
  {
    forall s: Instance ensures TcpOf([s]) == s.portsTCP && UdpOf([s]) == s.portsUDP { assert [s][..0] == []; }
    if ts == [] {
      assert ss + ts == ss;
    } else {
      assert (ss + ts)[..|ss + ts| - 1] == ss + ts[..|ts| - 1];
      PortsFollow(ss, ts[..|ts| - 1]);
    }
  }

  /** PreStart and deployResources of one sidecar. */
  ghost function StartedUp(a: Api, m: Member, disk: map<string, string>): Deployed {
    var prestart := a.Other();
    if !prestart.ok then Deployed(prestart.api, m, false) else L.DeployResources(prestart.api, m, disk)
  }

  lemma StartedUpNext(before: DeployedAll, k: nat, disk: map<string, string>)
    requires k < |before.sidecars| && before.ok
    ensures var d := StartedUp(before.api, before.sidecars[k], disk);
            L.DeployNext(before, k, disk) == DeployedAll(d.api, before.sidecars[k := d.member], d.ok)
  {
    assert before.sidecars[k := before.sidecars[k]] == before.sidecars;
  }

  /** r is what deploying the first k sidecars comes to. */
  ghost predicate DeployedTo(a: Api, sidecars: seq<Member>, disk: map<string, string>, k: nat, r: DeployedAll) {
    forall o: nat | Opened(Deploying, o) :: exists c: nat ::
        Closed(Deploying, c) && k <= |sidecars|
        && r == L.DeploySidecars(a, sidecars, disk, k)
  }

  lemma DeployedNone(a: Api, sidecars: seq<Member>, disk: map<string, string>)
    ensures DeployedTo(a, sidecars, disk, 0, DeployedAll(a, sidecars, true))
  {
    assert Closed(Deploying, 0);
  }

  lemma DeployedNext(a: Api, sidecars: seq<Member>, disk: map<string, string>, k: nat, r: DeployedAll, r1: DeployedAll)
    requires k < |sidecars| && DeployedTo(a, sidecars, disk, k, r)
    requires |r.sidecars| == |sidecars| && r1 == L.DeployNext(r, k, disk)
    ensures DeployedTo(a, sidecars, disk, k + 1, r1)
  {
    assert Opened(Deploying, 0) && Closed(Deploying, 0);
  }

  /** The first error ends it. */
  lemma {:induction false} DeployedUpTo(a: Api, sidecars: seq<Member>, disk: map<string, string>, k: nat,
      r: DeployedAll)
    requires k <= |sidecars| && DeployedTo(a, sidecars, disk, k, r) && (k < |sidecars| ==> !r.ok)
    ensures r == L.DeploySidecars(a, sidecars, disk, |sidecars|)
    decreases |sidecars| - k
  {
    assert Opened(Deploying, 0) && Closed(Deploying, 0);
    if k < |sidecars| { DeployedUpTo(a, sidecars, disk, k + 1, r); }
  }

  /** r is what destroying the resources of the first k sidecars comes to. */
  ghost predicate DestroyedTo(a: Api, sidecars: seq<Member>, k: nat, r: Reply) {
    forall o: nat | Opened(Destroying, o) :: exists c: nat ::
        Closed(Destroying, c) && k <= |sidecars|
        && r == L.DestroySidecars(a, sidecars, k)
  }

  lemma DestroyedNone(a: Api, sidecars: seq<Member>)
    ensures DestroyedTo(a, sidecars, 0, Reply(a, true))
  {
    assert Closed(Destroying, 0);
  }

  lemma DestroyedNext(a: Api, sidecars: seq<Member>, k: nat, r: Reply, r1: Reply)
    requires k < |sidecars| && DestroyedTo(a, sidecars, k, r) && r.ok && r1 == L.DestroyResources(r.api, sidecars[k])
    ensures DestroyedTo(a, sidecars, k + 1, r1)
  {
    assert Opened(Destroying, 0) && Closed(Destroying, 0);
  }

  lemma {:induction false} DestroyedUpTo(a: Api, sidecars: seq<Member>, k: nat, r: Reply)
    requires k <= |sidecars| && DestroyedTo(a, sidecars, k, r) && (k < |sidecars| ==> !r.ok)
    ensures r == L.DestroySidecars(a, sidecars, |sidecars|)
    decreases |sidecars| - k
  {
    assert Opened(Destroying, 0) && Closed(Destroying, 0);
    if k < |sidecars| { DestroyedUpTo(a, sidecars, k + 1, r); }
  }

  /** Starting and destroying in steps: checks, what happens to the cluster, and the states. */
  ghost function StartError(g: Group): Option<Error> {
    if !Startable(g.self.state) then Some(ErrStartingNotAllowed)
    else if exists k | 0 <= k < |g.sidecars| :: !Startable(g.sidecars[k].state) then
        Some(ErrStartingNotAllowedForSidecar)
    else if g.self.isSidecar then Some(ErrStartingSidecarNotAllowed)
    else None
  }

  ghost function Launched(a: Api, g: Group, disk: map<string, string>): Effect {
    var e := if g.self.state == StateCommitted then L.DeployCommitted(a, g, disk) else Effect(a, g, None);
    if e.err.Some? then e
    else
      var pod := L.DeployPod(e.api, e.group);
      Effect(pod.api, e.group, if pod.ok then None else Some(ErrDeployingPodForInstance))
  }

  lemma StartInSteps(a: Api, g: Group, disk: map<string, string>)
    ensures L.Start(a, g, disk) ==
              if StartError(g).Some? then Effect(a, g, StartError(g))
              else
                var e := Launched(a, g, disk);
                if e.err.Some? then e else Effect(e.api, e.group.WithState(StateStarted), None)
  {
    assert (exists m | m in g.sidecars :: !Startable(m.state)) <==>
        exists k | 0 <= k < |g.sidecars| :: !Startable(g.sidecars[k].state);
  }

  ghost function TornDown(a: Api, g: Group): Effect {
    var pod := L.DestroyPod(a, g.self);
    if !pod.ok then Effect(pod.api, g, Some(ErrDestroyingPod))
    else
      var own := L.DestroyResources(pod.api, g.self);
      if !own.ok then Effect(own.api, g, Some(ErrDestroyingResourcesForInstance))
      else
        var all := L.DestroySidecars(own.api, g.sidecars, |g.sidecars|);
        Effect(all.api, g, if all.ok then None else Some(ErrDestroyingResourcesForSidecars))
  }

  lemma DestroyInSteps(a: Api, g: Group)
    requires g.self.state == StateStarted || g.self.state == StateStopped
    ensures L.Destroy(a, g) ==
              var e := TornDown(a, g);
              if e.err.Some? then e else Effect(e.api, g.WithState(StateDestroyed), None)
  {
  }

  datatype Settings = Copied(
    state: State, imageName: string, factory: BuilderFactory?, command: seq<string>, args: seq<string>,
    env: map<string, string>, imageCache: map<string, string>, volumes: seq<Volume>, files: seq<File>,
    portsTCP: seq<int>, portsUDP: seq<int>, policyRules: seq<string>, capabilities: seq<string>, privileged: bool,
    suffix: string)

  lemma {:induction false} SamePorts(ss: seq<Instance>, ts: seq<Instance>)
    requires |ss| == |ts| && forall k | 0 <= k < |ss| :: ss[k].Settings() == ts[k].Settings()
    ensures TcpOf(ss) == TcpOf(ts) && UdpOf(ss) == UdpOf(ts)
  {
    if ss != [] {
      SamePorts(ss[..|ss| - 1], ts[..|ts| - 1]);
      assert ss[|ss| - 1].Settings() == ts[|ts| - 1].Settings();
    }
  }

  class Instance {
    const sys: SystemDependencies
    var name: string
    var state: State
    // build
    var imageName: string
    var factory: BuilderFactory?
    var command: seq<string>
    var args: seq<string>
    var env: map<string, string>
    var imageCache: map<string, string>
    // storage
    var volumes: seq<Volume>
    var files: seq<File>
    // network
    var portsTCP: seq<int>
    var portsUDP: seq<int>
    var hasService: bool
    // security
    var policyRules: seq<string>
    var capabilities: seq<string>
    var privileged: bool
    // sidecars; the suffix is that of the manager this instance belongs to
    var isSidecar: bool
    var sidecars: seq<Instance>
    var suffix: string
    var parent: Instance?

    constructor (sys: SystemDependencies)
      ensures Blank(sys) && name == ""
    {
      this.sys := sys;
      name, state, imageName, factory := "", StateNone, "", null;
      command, args, env, imageCache := [], [], map[], map[];
      volumes, files, portsTCP, portsUDP, hasService := [], [], [], [], false;
      policyRules, capabilities, privileged := [], [], false;
      isSidecar, sidecars, suffix, parent := false, [], "", null;
    }

    /** The configuration of i, with the given sidecars; the factory is shared, not copied. */
    constructor Clone(i: Instance, clones: seq<Instance>)
      ensures sys == i.sys && name == "" && sidecars == clones && Settings() == i.Settings() && !isSidecar
              && !hasService
    {
      sys := i.sys;
      name, state, imageName, factory := "", i.state, i.imageName, i.factory;
      command, args, env, imageCache := i.command, i.args, i.env, i.imageCache;
      volumes, files, portsTCP, portsUDP, hasService := i.volumes, i.files, i.portsTCP, i.portsUDP, false;
      policyRules, capabilities, privileged := i.policyRules, i.capabilities, i.privileged;
      isSidecar, sidecars, suffix, parent := false, clones, i.suffix, null;
    }

    /** What a clone copies. */
    ghost function Settings(): Settings
      reads this`state, this`imageName, this`factory, this`command, this`args, this`env, this`imageCache, this`volumes
      reads this`files, this`portsTCP, this`portsUDP, this`policyRules, this`capabilities, this`suffix
      reads this`privileged
    {
      Copied(state, imageName, factory, command, args, env, imageCache, volumes, files,
                         portsTCP, portsUDP, policyRules, capabilities, privileged, suffix)
    }

    /** As New leaves it, whatever its name. */
    ghost predicate Blank(s: SystemDependencies)
      reads this
    {
      && sys == s && !hasService && !isSidecar && sidecars == []
      && Settings() == Copied(StateNone, "", null, [], [], map[], map[], [], [], [], [], [], [], false, "")
    }

    /** The instance as the lifecycle functions see it. */
    ghost function Own(): Member
      reads this, sidecars`portsTCP, sidecars`portsUDP
    {
      Member(name, state, isSidecar, imageName, command, args, env, volumes, files, portsTCP, portsUDP,
             portsTCP + TcpOf(sidecars), portsUDP + UdpOf(sidecars), policyRules, hasService)
    }

    ghost function Entry(): Entry<Instance, BuilderFactory>
      reads this`name, this`state, this`factory, this`sidecars
    {
      Ledgers.Entry(name, state == StatePreparing, if factory == null then None
          else var f: BuilderFactory := factory; Some(f), sidecars)
    }

    /** The factory, as long as configuring may change it. */
    ghost function Builder(): set<BuilderFactory?>
      reads this`state, this`factory
    {
      if state == StatePreparing then {factory} else {}
    }

    // -------------------------------------------------------------- names

    /** The books after this instance has got the name n: a change of name, or a first name. */
    ghost function Renamed(n: string, r: nat): Ledger<Instance, BuilderFactory>
      reads this`name, this`state, this`factory, this`sidecars, sys`ledger
    {
      if this in sys.ledger.entries then sys.ledger.Rename(this, n) else sys.ledger.Join(this, Entry().(name := n), r)
    }

    lemma RenamedOk(n: string, r: nat)
      requires sys.ledger.Ok() && n !in sys.ledger.registry && n != ""
      requires this !in sys.ledger.entries ==> sys.ledger.MayJoin(this, Entry(), r)
      ensures Renamed(n, r).Ok()
    {
      if this in sys.ledger.entries {
        RenameOk(sys.ledger, this, n);
      } else {
        JoinOk(sys.ledger, this, Entry().(name := n), r);
      }
    }

    /** The registry's part of SetName, after which the books still agree. */
    method TakeName(n: string, ghost r: nat)
      requires sys.Recorded() && n !in sys.instancesMap
      requires if this in sys.all then name != "" && name in sys.instancesMap else name == ""
      modifies this`name, sys`instancesMap, sys`all, sys`ledger
      ensures sys.Recorded() && sys.ledger == old(Renamed(n, r))
      ensures name == n && sys.all == old(sys.all) + {this}
    {
      sys.ledger := Renamed(n, r);
      sys.AddInstanceName(n);
      if name != "" { sys.RemoveInstanceName(name); }
      name := n;
      sys.all := sys.all + {this};
    }

    /** SetName, of an instance that has a name and of one that gets its first, in terms of the books. */
    method NameTo(newName: string, ghost r: nat) returns (err: Option<Error>)
      requires sys.Valid()
      requires this !in sys.all ==> name == "" && sys.ledger.MayJoin(this, Entry(), r)
      modifies this`name, sys`instancesMap, sys`all, sys`ledger
      ensures sys.Valid()
      ensures err == NameError(newName, old(sys.instancesMap))
      ensures err.Some? ==> unchanged(this) && unchanged(sys)
      ensures err.None? ==> SanitizeName(newName) == Some(name) && IsLabel(name) && sys.all == old(sys.all) + {this}
      ensures err.None? ==> sys.ledger == old(Renamed(SanitizeName(newName).value, r))
    {
      var n := SanitizeName(newName);
      if n == None { return Some(EmptyNamePanic); }
      if sys.HasInstanceName(n.value) { return Some(ErrInstanceNameAlreadyExists); }
      SanitizedIsLabel(newName);
      TakeFreeName(n.value, r);
      err := None;
    }

    lemma RenamedRegistry(n: string, r: nat)
      requires sys.Valid() && (this in sys.all ==> name != "") && (this !in sys.all ==> name == "")
      ensures Renamed(n, r).registry == sys.instancesMap - (if name != "" then {name} else {}) + {n}
    {
      sys.Open();
      assert this in sys.all ==> sys.ledger.entries[this] == Entry();
    }

    lemma IsNamedAlready()
      requires sys.Valid() && this in sys.all
      ensures name != ""
    {
      sys.Open();
      assert sys.ledger.entries[this] == Entry();
    }

    /** SetName: the sanitized name is taken if it is free, and the old one is given up. */
    method SetName(newName: string, ghost r: nat) returns (err: Option<Error>)
      requires sys.Valid()
      requires this !in sys.all ==> name == "" && sys.ledger.MayJoin(this, Entry(), r)
      modifies this`name, sys`instancesMap, sys`all, sys`ledger
      ensures sys.Valid()
      ensures err == if SanitizeName(newName).None? then Some(EmptyNamePanic)
                     else if SanitizeName(newName).value in old(sys.instancesMap) then
                       Some(ErrInstanceNameAlreadyExists)
                     else None
      ensures err.Some? ==> unchanged(this) && unchanged(sys)
      ensures err.None? ==> SanitizeName(newName) == Some(name) && IsLabel(name) && sys.all == old(sys.all) + {this}
      ensures err.None? ==>
                sys.instancesMap == old(sys.instancesMap) - (if old(name) != "" then {old(name)} else {}) + {name}
    {
      if this in sys.all { IsNamedAlready(); }
      if SanitizeName(newName).Some? { RenamedRegistry(SanitizeName(newName).value, r); }
      err := NameTo(newName, r);
      sys.Open();
    }

    /** The part of SetName that comes after the checks. */
    method TakeFreeName(n: string, ghost r: nat)
      requires sys.Valid() && n !in sys.instancesMap && n != ""
      requires this !in sys.all ==> name == "" && sys.ledger.MayJoin(this, Entry(), r)
      modifies this`name, sys`instancesMap, sys`all, sys`ledger
      ensures sys.Valid() && name == n && sys.all == old(sys.all) + {this} && sys.ledger == old(Renamed(n, r))
    {
      sys.Open();
      RenamedOk(n, r);
      assert this in sys.all ==> sys.ledger.entries[this] == Entry();
      TakeName(n, r);
      sys.Close();
    }

    /** SetName of an instance that has a name. */
    method ChangeName(newName: string) returns (err: Option<Error>)
      requires sys.Valid() && this in sys.all
      modifies this`name, sys`instancesMap, sys`all, sys`ledger
      ensures sys.Valid() && sys.all == old(sys.all) && NamingEnds(newName, old(sys.instancesMap), err)
      ensures if err.None? then IsNamed(newName) && name !in old(sys.instancesMap) else name == old(name)
      ensures RootsStay(old(sys.ledger), sys.ledger)
    {
      err := NameAnew(newName);
      assert Closed(Naming, 0) && Closed(Taking, 0);
    }

    /** The same, in terms of the books. */
    method NameAnew(newName: string) returns (err: Option<Error>)
      requires sys.Valid() && this in sys.all
      modifies this`name, sys`instancesMap, sys`all, sys`ledger
      ensures sys.Valid() && sys.all == old(sys.all) && err == NameError(newName, old(sys.instancesMap))
      ensures if err.None? then SanitizeName(newName) == Some(name) else name == old(name)
      ensures RootsStay(old(sys.ledger), sys.ledger)
    {
      InRank();
      err := NameTo(newName, 0);
    }

    /** The name is what comes out of sanitizing the wanted one. */
    ghost predicate IsNamed(wanted: string)
      reads this`name
    {
      forall o: nat | Opened(Naming, o) :: exists c: nat :: Closed(Naming, c) && SanitizeName(wanted) == Some(name)
    }

    /** A new instance. */
    static method New(sys: SystemDependencies, newName: string) returns (r: Instance?, err: Option<Error>)
      requires sys.Valid() && sys.Stored()
      modifies sys`instancesMap, sys`all, sys`ledger
      ensures sys.Valid() && sys.Stored()
      ensures err == if SanitizeName(newName).None? then Some(EmptyNamePanic)
                     else if SanitizeName(newName).value in old(sys.instancesMap) then
                       Some(ErrInstanceNameAlreadyExists)
                     else None
      ensures err.Some? ==> r == null && unchanged(sys)
      ensures err.None? ==> r != null && fresh(r) && r.Blank(sys) && SanitizeName(newName) == Some(r.name)
      ensures err.None? ==> sys.all == old(sys.all) + {r} && r.HasJoined(0)
      ensures sys.OnlyJoined()
    {
      var i := new Instance(sys);
      err := i.NameBlank(newName);
      assert Opened(Taking, 0) && Opened(Naming, 0);
      r := if err.None? then i else null;
    }

    method NameBlank(newName: string) returns (err: Option<Error>)
      requires sys.Valid() && sys.Stored() && this !in sys.all && name == "" && Blank(sys)
      modifies this`name, sys`instancesMap, sys`all, sys`ledger
      ensures sys.Valid() && sys.Stored() && NamingEnds(newName, old(sys.instancesMap), err)
      ensures Blank(sys) && Joined(old(sys.ledger), sys.ledger) && (err.Some? ==> unchanged(sys))
      ensures err.None? ==> IsNamed(newName) && sys.all == old(sys.all) + {this} && HasJoined(0)
    {
      sys.BlankMayJoin(this);
      err := FirstName(newName, 0);
    }

    lemma NewcomerJoins(n: string, r: nat)
      requires sys.Valid() && this !in sys.all && sys.ledger.MayJoin(this, Entry(), r)
      ensures var m := Renamed(n, r);
              JoinedWith(sys.ledger, m, sidecars) && this in m.entries && this !in m.owner && this in m.rank
                  && m.rank[this] == r
    {
      sys.Open();
      Newcomer(sys.ledger, this, Entry().(name := n), r);
    }

    /** SetName of a newcomer. */
    method FirstName(newName: string, ghost r: nat) returns (err: Option<Error>)
      requires sys.Valid() && sys.Stored() && this !in sys.all && name == ""
      requires sys.ledger.MayJoin(this, Entry(), r) && sys.StorageOk(this)
      modifies this`name, sys`instancesMap, sys`all, sys`ledger
      ensures sys.Valid() && sys.Stored() && NamingEnds(newName, old(sys.instancesMap), err)
      ensures err.Some? ==> unchanged(sys)
      ensures err.None? ==>
              IsNamed(newName) && sys.all == old(sys.all) + {this}
              && JoinedWith(old(sys.ledger), sys.ledger, sidecars)
      ensures err.None? ==> HasJoined(r)
    {
      err := NameNew(newName, r);
      assert Closed(Naming, 0) && Closed(Taking, 0);
      if err.None? { sys.StoredJoined(this); } else { sys.StoredFramed(); }
    }

    /** The same, in terms of the books. */
    method NameNew(newName: string, ghost r: nat) returns (err: Option<Error>)
      requires sys.Valid() && this !in sys.all && name == "" && sys.ledger.MayJoin(this, Entry(), r)
      modifies this`name, sys`instancesMap, sys`all, sys`ledger
      ensures sys.Valid() && err == NameError(newName, old(sys.instancesMap))
      ensures err.Some? ==> unchanged(sys)
      ensures err.None? ==>
              SanitizeName(newName) == Some(name) && sys.all == old(sys.all) + {this}
              && JoinedWith(old(sys.ledger), sys.ledger, sidecars) && HasJoined(r)
    {
      if SanitizeName(newName).Some? { NewcomerJoins(SanitizeName(newName).value, r); }
      err := NameTo(newName, r);
    }

    ghost predicate HasJoined(r: nat)
      reads this, sys`all, sys`ledger
    {
      && this in sys.all && this in sys.ledger.entries && this !in sys.ledger.owner
      && this in sys.ledger.rank && sys.ledger.rank[this] == r
    }

    // -------------------------------------------------------------- states

    predicate IsInState(states: set<State>)
      reads this`state
    {
      state in states
    }

    /** SetState, to any state but Preparing, which only a new image leads to. */
    method SetState(s: State)
      requires sys.Valid() && this in sys.all && s != StatePreparing
      modifies this`state, sys`ledger
      ensures sys.Valid() && state == s && sys.ledger == old(sys.ledger).Settle(this)
    {
      sys.Open();
      SettleOk(sys.ledger, this);
      Settle(s);
      sys.Close();
    }

    method Settle(s: State)
      requires sys.Recorded() && this in sys.all && s != StatePreparing
      modifies this`state, sys`ledger
      ensures sys.Recorded() && state == s && sys.ledger == old(sys.ledger).Settle(this)
    {
      sys.ledger := sys.ledger.Settle(this);
      state := s;
    }

    // -------------------------------------------------------------- build

    predicate CanSetImage()
      reads this`state
    {
      IsInState({StateNone, StatePreparing, StateStopped})
    }

    /** SetImage; the flags are the outcomes of creating the build directory and the build context. */
    method SetImage(image: string, tempDir: bool, contextDir: bool) returns (err: Option<Error>)
      requires sys.Valid() && this in sys.all
      modifies this`state, this`factory, sys`ledger
      ensures sys.Valid()
      ensures err == if old(state) !in {StateNone, StatePreparing, StateStopped} then
                       Some(if isSidecar then ErrSettingImageNotAllowedForSidecarsStarted
                            else ErrSettingImageNotAllowed)
                     else if !tempDir then Some(ErrGettingBuildDir)
                     else if image == "" || !contextDir then Some(ErrCreatingBuilder)
                     else None
      ensures err.Some? ==> unchanged(this) && unchanged(sys)
      ensures err.None? ==>
              state == StatePreparing && HasFactory(image)
              && sys.ledger == old(sys.ledger).Prepare(this, factory)
      ensures RootsStay(old(sys.ledger), sys.ledger)
    {
      InRank();
      if !CanSetImage() {
        return Some(if isSidecar then ErrSettingImageNotAllowedForSidecarsStarted else ErrSettingImageNotAllowed);
      }
      if !tempDir { return Some(ErrGettingBuildDir); }
      if image == "" || !contextDir { return Some(ErrCreatingBuilder); }
      Install(image);
      err := None;
    }

    /** An untouched factory of its own for the given image. */
    twostate predicate HasFactory(image: string)
      reads this, factory
    {
      factory != null && fresh(factory) && factory.imageNameFrom == image && factory.instructions == ["FROM " + image]
    }

    method Install(image: string)
      requires sys.Valid() && this in sys.all
      modifies this`state, this`factory, sys`ledger
      ensures sys.Valid() && state == StatePreparing && HasFactory(image)
              && sys.ledger == old(sys.ledger).Prepare(this, factory)
    {
      var f := new BuilderFactory(image);
      sys.Open();
      sys.FactoryUnknown(f);
      PrepareOk(sys.ledger, this, f);
      Prepare(f);
      sys.Close();
    }

    method Prepare(f: BuilderFactory)
      requires sys.Recorded() && this in sys.all
      modifies this`state, this`factory, sys`ledger
      ensures sys.Recorded() && state == StatePreparing && factory == f
              && sys.ledger == old(sys.ledger).Prepare(this, f)
    {
      sys.ledger := sys.ledger.Prepare(this, f);
      factory := f;
      state := StatePreparing;
    }

    /** SetGitRepo. The flags are the outcomes of the calls it makes; `image` is the name derived from
        the build context, if that works. The state changes before the build, so a failing build
        leaves the instance preparing. */
    method SetGitRepo(context: bool, image: Option<string>, tempDir: bool, contextDir: bool, builds: bool)
      returns (err: Option<Error>)
      requires sys.Valid() && this in sys.all
      modifies this`state, this`factory, this`imageName, sys`ledger
      ensures sys.Valid()
      ensures err == if old(state) != StateNone then Some(ErrSettingGitRepo)
                     else if !context then Some(ErrGettingBuildContext)
                     else if image == None then Some(ErrGettingImageName)
                     else if !tempDir then Some(ErrGettingBuildDir)
                     else if image == Some("") || !contextDir then Some(ErrCreatingBuilder)
                     else if !builds then Some(ErrBuildingFromGitRepo)
                     else None
      ensures err.Some? && err != Some(ErrBuildingFromGitRepo) ==> unchanged(this) && unchanged(sys)
      ensures err.None? || err == Some(ErrBuildingFromGitRepo) ==>
              image.Some? && state == StatePreparing && HasFactory(image.value)
              && imageName == image.value
    {
      if state != StateNone { return Some(ErrSettingGitRepo); }
      if !context { return Some(ErrGettingBuildContext); }
      if image.None? { return Some(ErrGettingImageName); }
      if !tempDir { return Some(ErrGettingBuildDir); }
      if image.value == "" || !contextDir { return Some(ErrCreatingBuilder); }
      imageName := image.value;
      Install(image.value);
      err := if builds then None else Some(ErrBuildingFromGitRepo);
    }

    /** The image that committing would give, once it is built: of an untouched factory its base. */
    ghost function ImageToCommit(context: string): string
      requires factory != null
      reads this`factory, factory`instructions
    {
      if factory.Changed() then Registry(sys.hashOf(factory.instructions, context)) else factory.imageNameFrom
    }

    /** Looks the hash up in the cache, and builds, pushes and caches the image if it is not there. */
    method CachedOrPushed(hash: Digest, builds: bool) returns (image: Option<string>)
      requires sys.Stored() && this in sys.all && factory != null && factory.Changed()
      modifies this`imageCache, factory`imageNameTo, sys`pushed
      ensures sys.Stored() && old(sys.pushed) <= sys.pushed
      ensures image == if hash in old(imageCache) || builds then Some(Registry(hash)) else None
      ensures image.Some? ==> image.value in sys.pushed
      ensures image.None? ==> unchanged(this) && sys.pushed == old(sys.pushed)
    {
      sys.OpenStored();
      if hash in imageCache { return Some(imageCache[hash]); }
      var pushed := factory.PushBuilderImage(Registry(hash), builds);
      if !pushed { return None; }
      sys.pushed := sys.pushed + {Registry(hash)};
      imageCache := imageCache[hash := Registry(hash)];
      sys.CloseStored();
      image := Some(Registry(hash));
    }

    /** Why committing fails, apart from the state: never, if the factory is untouched. */
    ghost function ImageError(context: string, hashes: bool, builds: bool): Option<Error>
      requires factory != null
      reads this`factory, this`imageCache, factory`instructions
    {
      if !factory.Changed() then None
      else if !hashes then Some(ErrGeneratingImageHash)
      else if sys.hashOf(factory.instructions, context) !in imageCache && !builds then Some(ErrPushingImage)
      else None
    }

    method FindImage(context: string, hashes: bool, builds: bool) returns (image: string, err: Option<Error>)
      requires sys.Stored() && this in sys.all && factory != null
      modifies this`imageCache, factory`imageNameTo, sys`pushed
      ensures sys.Stored() && err == old(ImageError(context, hashes, builds))
      ensures err.Some? ==> unchanged(this) && unchanged(sys)
      ensures err.None? ==> image == ImageToCommit(context) && (factory.Changed() ==> image in sys.pushed)
    {
      if !factory.Changed() { return factory.imageNameFrom, None; }
      if !hashes { return "", Some(ErrGeneratingImageHash); }
      var found := CachedOrPushed(sys.hashOf(factory.instructions, context), builds);
      if found == None { return "", Some(ErrPushingImage); }
      return found.value, None;
    }

    /** Commit; `context` is what the build directory holds, the flags are the outcomes of
        reading it and of the build. */
    method Commit(context: string, hashes: bool, builds: bool) returns (err: Option<Error>)
      requires sys.Valid() && sys.Stored() && this in sys.all
      modifies this`state, this`imageName, this`imageCache, Builder()`imageNameTo, sys`pushed, sys`ledger
      ensures sys.Valid() && sys.Stored() && forall j | j in sys.all && j != this :: j.BuilderKept()
      ensures old(state) != StatePreparing ==> err == Some(ErrCommittingNotAllowed)
      ensures old(state) == StatePreparing ==>
                factory != null && err ==
                  if !factory.Changed() then None
                  else if !hashes then Some(ErrGeneratingImageHash)
                  else if sys.hashOf(factory.instructions, context) !in old(imageCache) && !builds then
                    Some(ErrPushingImage)
                  else None
      ensures err.Some? ==> unchanged(this) && unchanged(sys)
      ensures err.None? ==> state == StateCommitted && sys.ledger == old(sys.ledger).Settle(this)
      ensures err.None? ==>
                imageName == if factory.Changed() then "ttl.sh/" + sys.hashOf(factory.instructions, context) + ":24h"
                             else factory.imageNameFrom
      ensures err.None? && factory.Changed() ==> imageName in sys.pushed
      ensures RootsStay(old(sys.ledger), sys.ledger)
    {
      InRank();
      BuilderOwn();
      if state != StatePreparing { return Some(ErrCommittingNotAllowed); }
      var image: string;
      image, err := FindImage(context, hashes, builds);
      if err.None? { Publish(image); }
    }

    /** Two instances that have been committed with changed factories have the same image exactly when
        the two contents have the same hash. */
    lemma CommitsApart(other: Instance, context: string, otherContext: string)
      requires other.sys == sys && factory != null && other.factory != null
      requires factory.Changed() && imageName == ImageToCommit(context)
      requires other.factory.Changed() && other.imageName == other.ImageToCommit(otherContext)
      ensures imageName == other.imageName <==>
              sys.hashOf(factory.instructions, context) == sys.hashOf(other.factory.instructions, otherContext)
    {
      RegistryApart(sys.hashOf(factory.instructions, context),
          sys.hashOf(other.factory.instructions, otherContext));
    }

    method Publish(image: string)
      requires sys.Valid() && this in sys.all
      modifies this`state, this`imageName, sys`ledger
      ensures sys.Valid() && state == StateCommitted && imageName == image && sys.ledger == old(sys.ledger).Settle(this)
    {
      imageName := image;
      SetState(StateCommitted);
    }

    /** The states in which an instance is configured. */
    predicate CanConfigure()
      reads this`state
    {
      IsInState({StatePreparing, StateCommitted, StateStopped})
    }

    /** What a setter may be given: a builder while the instance is preparing. */
    predicate Equipped()
      reads this`state, this`factory
    {
      state == StatePreparing ==> factory != null
    }

    /** The builder this instance points to is the one it was, and as it was. */
    twostate predicate BuilderKept()
      reads this`factory, factory
    {
      factory == old(factory) && (factory != null ==> unchanged(factory))
    }

    /** Nobody else's builder is the one that configuring this instance may change. */
    lemma BuilderOwn()
      requires sys.Valid() && this in sys.all
      ensures Equipped() && forall j | j in sys.all && j != this :: j.factory == null || j.factory !in Builder()
    {
      if state == StatePreparing { sys.BuilderUnshared(this); }
    }

    method ExecuteCommand(commands: string) returns (err: Option<Error>)
      requires sys.Valid() && this in sys.all
      modifies Builder()`instructions
      ensures sys.Valid() && forall j | j in sys.all && j != this :: j.BuilderKept()
      ensures err == if state == StatePreparing then None else Some(ErrAddingCommandNotAllowed)
      ensures err.None? ==> factory != null && factory.instructions == old(factory.instructions) + ["RUN " + commands]
    {
      BuilderOwn();
      if state != StatePreparing { return Some(ErrAddingCommandNotAllowed); }
      factory.Add("RUN " + commands);
      err := None;
    }

    method SetUser(user: string) returns (err: Option<Error>)
      requires sys.Valid() && this in sys.all
      modifies Builder()`instructions
      ensures sys.Valid() && forall j | j in sys.all && j != this :: j.BuilderKept()
      ensures err == if state == StatePreparing then None else Some(ErrSettingUserNotAllowed)
      ensures err.None? ==> factory != null && factory.instructions == old(factory.instructions) + ["USER " + user]
    {
      BuilderOwn();
      if state != StatePreparing { return Some(ErrSettingUserNotAllowed); }
      factory.Add("USER " + user);
      err := None;
    }

    method SetStartCommand(newCommand: seq<string>) returns (err: Option<Error>)
      modifies this`command
      ensures err == if CanConfigure() then None else Some(ErrSettingCommand)
      ensures command == if err.None? then newCommand else old(command)
      ensures MemberGrown(old(Own()), Own())
    {
      if !CanConfigure() { return Some(ErrSettingCommand); }
      command := newCommand;
      err := None;
    }

    method SetArgs(newArgs: seq<string>) returns (err: Option<Error>)
      modifies this`args
      ensures err == if CanConfigure() then None else Some(ErrSettingArgsNotAllowed)
      ensures args == if err.None? then newArgs else old(args)
      ensures MemberGrown(old(Own()), Own())
    {
      if !CanConfigure() { return Some(ErrSettingArgsNotAllowed); }
      args := newArgs;
      err := None;
    }

    /** While preparing, a variable goes into the image; later, into the pod. */
    method SetEnvironmentVariable(key: string, value: string) returns (err: Option<Error>)
      requires sys.Valid() && this in sys.all
      modifies this`env, Builder()`instructions
      ensures sys.Valid() && forall j | j in sys.all && j != this :: j.BuilderKept()
      ensures err == if state in {StatePreparing, StateCommitted, StateStopped} then None
                     else Some(ErrSettingEnvNotAllowed)
      ensures state == StatePreparing ==>
              env == old(env) && factory != null
              && factory.instructions == old(factory.instructions) + ["ENV " + key + "=" + value]
      ensures state != StatePreparing ==> env == if err.None? then old(env)[key := value] else old(env)
      ensures MemberGrown(old(Own()), Own())
    {
      BuilderOwn();
      if !CanConfigure() { return Some(ErrSettingEnvNotAllowed); }
      if state == StatePreparing {
        factory.Add("ENV " + key + "=" + value);
        return None;
      }
      env := env[key := value];
      err := None;
    }

    // -------------------------------------------------------------- storage

    /** addFileToInstance: the budget counts the files there are and the new one. */
    method AddFileToInstance(f: File) returns (err: Option<Error>)
      requires sys.Stored() && this in sys.all && f.source in sys.disk
      modifies this`files
      ensures sys.Stored()
      ensures (forall g | g in old(files) :: g.source in sys.disk)
           && err == if FilesSize(old(files), sys.disk) + |sys.disk[f.source]| > MAX_TOTAL_FILES_BYTES then
               Some(ErrTotalFilesSizeTooLarge) else None
      ensures files == if err.None? then old(files) + [f] else old(files)
    {
      sys.OpenStored();
      var size := 0;
      for k := 0 to |files|
        invariant size == FilesSize(files[..k], sys.disk)
      {
        size := size + |sys.disk[files[k].source]|;
        assert files[..k + 1][..k] == files[..k];
      }
      assert files[..|files|] == files;
      size := size + |sys.disk[f.source]|;
      if size > MAX_TOTAL_FILES_BYTES { return Some(ErrTotalFilesSizeTooLarge); }
      assert (files + [f])[..|files|] == files;
      assert sys.FilesOk(files + [f]);
      files := files + [f];
      sys.CloseStored();
      err := None;
    }

    /** The copy of a source file in a build directory of its own. */
    method CopyToBuildDir(path: string, content: string)
      requires sys.Stored() && path !in sys.disk
      modifies sys`disk
      ensures sys.Stored() && sys.disk == old(sys.disk)[path := content]
    {
      sys.OpenStored();
      ghost var before := sys.disk;
      sys.disk := sys.disk[path := content];
      forall i | i in sys.all ensures sys.StorageOk(i) {
        FilesSizeGrownDisk(i.files, before, sys.disk);
      }
      sys.CloseStored();
    }

    /** AddFile; `content` is that of the source, if it exists, with the given permission, `copied`
        whether copying works, and `path` the new file in a new build directory. */
    method AddFile(src: string, content: Option<string>, dest: Path, chown: string, permission: string, copied: bool,
        path: string)
      returns (err: Option<Error>)
      requires sys.Valid() && sys.Stored() && this in sys.all && path !in sys.disk
      modifies this`files, sys`disk, Builder()`instructions
      ensures sys.Valid() && forall j | j in sys.all && j != this :: j.BuilderKept()
      ensures sys.Stored() && MemberGrown(old(Own()), Own()) && forall g | g in old(files) :: g.source in old(sys.disk)
      ensures err == if state !in {StatePreparing, StateCommitted, StateStopped} then Some(ErrAddingFileNotAllowed)
                     else if FileArgsError(src, content, dest, chown).Some? then
                         FileArgsError(src, content, dest, chown)
                     else if !copied then Some(ErrCopyingFile)
                     else if state == StatePreparing then None
                     else if |content.value| > MAX_TOTAL_FILES_BYTES then Some(ErrFileTooLargeCommitted)
                     else if FilesSize(old(files), old(sys.disk)) + |content.value| > MAX_TOTAL_FILES_BYTES then
                         Some(ErrTotalFilesSizeTooLarge)
                     else None
      ensures sys.disk == if state in {StatePreparing, StateCommitted, StateStopped}
                             && FileArgsError(src, content, dest, chown).None? && copied
                          then old(sys.disk)[path := content.value] else old(sys.disk)
      ensures files == if err.None? && state != StatePreparing then old(files) +
              [File(path, dest, chown, permission)] else old(files)
      ensures state == StatePreparing && err.None? ==>
                factory != null && factory.instructions == old(factory.instructions) +
                    ["ADD --chown=" + chown + " " + Render(dest) + " " + Render(dest)]
    {
      ContentGiven(src, content, dest, chown);
      err := AddUnless(FileArgsError(src, content, dest, chown), content, File(path, dest, chown, permission), copied);
    }

    /** AddFile after looking at its arguments: they are `bad`, or all right. */
    method AddUnless(bad: Option<Error>, content: Option<string>, f: File, copied: bool) returns (err: Option<Error>)
      requires sys.Valid() && sys.Stored() && this in sys.all && f.source !in sys.disk && (bad.None? ==> content.Some?)
      modifies this`files, sys`disk, Builder()`instructions
      ensures sys.Valid() && forall j | j in sys.all && j != this :: j.BuilderKept()
      ensures sys.Stored() && MemberGrown(old(Own()), Own()) && forall g | g in old(files) :: g.source in old(sys.disk)
      ensures err == if !CanConfigure() then Some(ErrAddingFileNotAllowed)
                     else if bad.Some? then bad
                     else if !copied then Some(ErrCopyingFile)
                     else if state == StatePreparing then None
                     else if |content.value| > MAX_TOTAL_FILES_BYTES then Some(ErrFileTooLargeCommitted)
                     else if FilesSize(old(files), old(sys.disk)) + |content.value| > MAX_TOTAL_FILES_BYTES then
                         Some(ErrTotalFilesSizeTooLarge)
                     else None
      ensures sys.disk == if CanConfigure() && bad.None? && copied then old(sys.disk)[f.source := content.value]
                          else old(sys.disk)
      ensures files == if err.None? && state != StatePreparing then old(files) + [f] else old(files)
      ensures state == StatePreparing && err.None? ==>
                factory != null && factory.instructions == old(factory.instructions) +
                    ["ADD --chown=" + f.chown + " " + Render(f.dest) + " " + Render(f.dest)]
    {
      sys.FilesKnown(this);
      BuilderOwn();
      if !CanConfigure() { return Some(ErrAddingFileNotAllowed); }
      if bad.Some? { return bad; }
      if !copied { return Some(ErrCopyingFile); }
      err := AddChecked(content.value, f);
    }

    /** AddFile after the checks: the copy, and where it goes. */
    method AddChecked(content: string, f: File) returns (err: Option<Error>)
      requires sys.Stored() && this in sys.all && Equipped() && CanConfigure() && f.source !in sys.disk
      requires forall g | g in files :: g.source in sys.disk
      modifies this`files, sys`disk, Builder()`instructions
      ensures sys.Stored() && sys.disk == old(sys.disk)[f.source := content]
      ensures err == if state == StatePreparing then None
                     else if |content| > MAX_TOTAL_FILES_BYTES then Some(ErrFileTooLargeCommitted)
                     else if FilesSize(old(files), old(sys.disk)) + |content| > MAX_TOTAL_FILES_BYTES then
                         Some(ErrTotalFilesSizeTooLarge)
                     else None
      ensures files == if err.None? && state != StatePreparing then old(files) + [f] else old(files)
      ensures state == StatePreparing ==>
                factory.instructions == old(factory.instructions) +
                    ["ADD --chown=" + f.chown + " " + Render(f.dest) + " " + Render(f.dest)]
    {
      FilesSizeGrownDisk(files, sys.disk, sys.disk[f.source := content]);
      CopyToBuildDir(f.source, content);
      if state == StatePreparing {
        factory.Add("ADD --chown=" + f.chown + " " + Render(f.dest) + " " + Render(f.dest));
        return None;
      }
      err := AddCopiedFile(f);
    }

    /** AddFile to a committed or stopped instance, once the source is copied. */
    method AddCopiedFile(f: File) returns (err: Option<Error>)
      requires sys.Stored() && this in sys.all && f.source in sys.disk
      modifies this`files
      ensures sys.Stored() && forall g | g in old(files) :: g.source in sys.disk
      ensures err == if |sys.disk[f.source]| > MAX_TOTAL_FILES_BYTES then Some(ErrFileTooLargeCommitted)
                     else if FilesSize(old(files), sys.disk) + |sys.disk[f.source]| > MAX_TOTAL_FILES_BYTES then
                         Some(ErrTotalFilesSizeTooLarge)
                     else None
      ensures files == if err.None? then old(files) + [f] else old(files)
    {
      sys.FilesKnown(this);
      if |sys.disk[f.source]| > MAX_TOTAL_FILES_BYTES { return Some(ErrFileTooLargeCommitted); }
      err := AddFileToInstance(f);
    }

    method AddVolumeWithOwner(path: Path, size: nat, owner: int) returns (err: Option<Error>)
      requires sys.Stored() && this in sys.all
      modifies this`volumes
      ensures sys.Stored()
      ensures err == if state !in {StatePreparing, StateCommitted, StateStopped} then Some(ErrAddingVolumeNotAllowed)
                     else if old(volumes) != [] then Some(ErrMaximumVolumesExceeded)
                     else None
      ensures volumes == if err.None? then [Volume(path, size, owner)] else old(volumes)
      ensures MemberGrown(old(Own()), Own())
    {
      if !CanConfigure() { return Some(ErrAddingVolumeNotAllowed); }
      if |volumes| > 0 { return Some(ErrMaximumVolumesExceeded); }
      sys.OpenStored();
      volumes := volumes + [Volume(path, size, owner)];
      sys.CloseStored();
      err := None;
    }

    // -------------------------------------------------------------- network

    static method IsPortRegistered(ports: seq<int>, port: int) returns (found: bool)
      ensures found <==> port in ports
    {
      for k := 0 to |ports|
        invariant port !in ports[..k]
      {
        if ports[k] == port { return true; }
      }
      found := false;
    }

    static predicate ValidPort(port: int) { 1 <= port <= 65535 }

    method AddPortTCP(port: int) returns (err: Option<Error>)
      modifies this`portsTCP
      ensures err == if state !in {StatePreparing, StateCommitted, StateStopped} then Some(ErrAddingPortNotAllowed)
                     else if !ValidPort(port) then Some(ErrPortNumberOutOfRange)
                     else if port in old(portsTCP) then Some(ErrPortAlreadyRegistered)
                     else None
      ensures portsTCP == if err.None? then old(portsTCP) + [port] else old(portsTCP)
      ensures this !in sidecars ==> MemberGrown(old(Own()), Own())
    {
      if !CanConfigure() { return Some(ErrAddingPortNotAllowed); }
      if !ValidPort(port) { return Some(ErrPortNumberOutOfRange); }
      var found := IsPortRegistered(portsTCP, port);
      if found { return Some(ErrPortAlreadyRegistered); }
      portsTCP := portsTCP + [port];
      err := None;
    }

    method AddPortUDP(port: int) returns (err: Option<Error>)
      modifies this`portsUDP
      ensures err == if state !in {StatePreparing, StateCommitted, StateStopped} then Some(ErrAddingPortNotAllowed)
                     else if !ValidPort(port) then Some(ErrPortNumberOutOfRange)
                     else if port in old(portsUDP) then Some(ErrUDPPortAlreadyRegistered)
                     else None
      ensures portsUDP == if err.None? then old(portsUDP) + [port] else old(portsUDP)
      ensures this !in sidecars ==> MemberGrown(old(Own()), Own())
    {
      if !CanConfigure() { return Some(ErrAddingPortNotAllowed); }
      if !ValidPort(port) { return Some(ErrPortNumberOutOfRange); }
      var found := IsPortRegistered(portsUDP, port);
      if found { return Some(ErrUDPPortAlreadyRegistered); }
      portsUDP := portsUDP + [port];
      err := None;
    }

    // -------------------------------------------------------------- security

    method AddPolicyRule(rule: string) returns (err: Option<Error>)
      modifies this`policyRules
      ensures err == if state in {StatePreparing, StateCommitted, StateStopped} then None
                     else Some(ErrAddingPolicyRuleNotAllowed)
      ensures policyRules == old(policyRules) + if err.None? then [rule] else []
      ensures MemberGrown(old(Own()), Own())
    {
      if !CanConfigure() { return Some(ErrAddingPolicyRuleNotAllowed); }
      policyRules := policyRules + [rule];
      err := None;
    }

    method AddKubernetesCapability(capability: string) returns (err: Option<Error>)
      modifies this`capabilities
      ensures err == if state in {StatePreparing, StateCommitted, StateStopped} then None
                     else Some(ErrAddingCapabilityNotAllowed)
      ensures capabilities == old(capabilities) + if err.None? then [capability] else []
    {
      if !CanConfigure() { return Some(ErrAddingCapabilityNotAllowed); }
      capabilities := capabilities + [capability];
      err := None;
    }

    method SetPrivileged(wanted: bool) returns (err: Option<Error>)
      modifies this`privileged
      ensures err == if state in {StatePreparing, StateCommitted, StateStopped} then None
                     else Some(ErrSettingPrivilegedNotAllowed)
      ensures privileged == if err.None? then wanted else old(privileged)
    {
      if !CanConfigure() { return Some(ErrSettingPrivilegedNotAllowed); }
      privileged := wanted;
      err := None;
    }

    // -------------------------------------------------------------- sidecars

    /** Initialize of the traffic shaper's manager: a committed instance named after its owner. */
    static method Initialize(sys: SystemDependencies, namePrefix: string, suffix: string, image: string, port: int,
                             tempDir: bool, contextDir: bool)
      returns (s: Instance?, err: Option<Error>)
      requires sys.Valid() && sys.Stored()
      modifies sys`instancesMap, sys`all, sys`ledger, sys`pushed
      ensures sys.Valid() && sys.Stored() && sys.OnlyJoined()
      ensures SidecarNameTaken(namePrefix, suffix, old(sys.instancesMap)) ==> err.Some? && unchanged(sys)
      ensures err.Some? ==> s == null
      ensures err.None? ==>
              s != null && fresh(s) && s.sys == sys && s.Waiting(suffix, image, port)
              && s.NamedAfter(namePrefix)
    {
      s, err := NewSidecar(sys, namePrefix, suffix);
      if s == null { return; }
      err := s.SetUp(suffix, image, port, tempDir, contextDir);
      if err.Some? { s := null; }
    }

    static method NewSidecar(sys: SystemDependencies, namePrefix: string, suffix: string)
        returns (s: Instance?, err: Option<Error>)
      requires sys.Valid() && sys.Stored()
      modifies sys`instancesMap, sys`all, sys`ledger
      ensures sys.Valid() && sys.Stored() && sys.OnlyJoined()
      ensures SidecarNameTaken(namePrefix, suffix, old(sys.instancesMap)) ==> err.Some?
      ensures err.Some? ==> s == null && unchanged(sys)
      ensures err.None? ==>
              s != null && fresh(s) && s.Blank(sys) && s.IsNamed(namePrefix + "-" + suffix)
              && s.HasJoined(0)
    {
      assert Opened(Taking, 0) && Closed(Naming, 0);
      s, err := New(sys, namePrefix + "-" + suffix);
    }

    /** What a manager with the given suffix, image and port sets up. */
    predicate IsSidecarOf(managerSuffix: string, image: string, port: int)
      reads this
    {
      && suffix == managerSuffix && state == StateCommitted && isSidecar && imageName == image && portsTCP == [port]
      && sidecars == [] && !hasService && privileged && capabilities == ["NET_ADMIN"]
      && env == map["SERVE_ADDR" := "0.0.0.0:" + Signed(port)]
    }

    /** A sidecar that is set up and not yet anybody's. */
    ghost predicate Waiting(managerSuffix: string, image: string, port: int)
      reads this, sys`all, sys`ledger
    {
      this in sys.all && this !in sys.ledger.owner && IsSidecarOf(managerSuffix, image, port)
    }

    /** Initialize of an instance that has just got its name. */
    method SetUp(newSuffix: string, image: string, port: int, tempDir: bool, contextDir: bool)
        returns (err: Option<Error>)
      requires sys.Valid() && sys.Stored() && this in sys.all && Blank(sys) && this !in sys.ledger.owner
      modifies this`suffix, this`isSidecar, this`state, this`factory, this`portsTCP, this`imageName, this`imageCache,
          this`env
      modifies this`capabilities, this`privileged, sys`ledger, sys`pushed
      ensures sys.Valid() && sys.Stored() && SameFamily(old(sys.ledger), sys.ledger)
      ensures err.None? ==> Waiting(newSuffix, image, port)
    {
      err := PrepareSidecar(image, port, tempDir, contextDir);
      if err.None? {
        CommitSidecar(port);
        label Committed:
        err := SetPrivileged(true);
        err := AddKubernetesCapability("NET_ADMIN");
        suffix := newSuffix;
        sys.ValidFramed@Committed();
        sys.StoredFramed@Committed();
      }
    }

    /** Initialize up to the commit. */
    method PrepareSidecar(image: string, port: int, tempDir: bool, contextDir: bool) returns (err: Option<Error>)
      requires sys.Valid() && sys.Stored() && this in sys.all && Blank(sys)
      modifies this`isSidecar, this`state, this`factory, this`portsTCP, sys`ledger
      ensures sys.Valid() && sys.Stored() && SameFamily(old(sys.ledger), sys.ledger)
      ensures err.None? ==> state == StatePreparing && isSidecar && portsTCP == [port] && HasFactory(image)
    {
      isSidecar := true;
      sys.ValidFramed();
      err := SetImage(image, tempDir, contextDir);
      sys.StoredFramed();
      if err.Some? { return; }
      label Prepared:
      err := AddPortTCP(port);
      sys.ValidFramed@Prepared();
      sys.StoredFramed@Prepared();
    }

    /** Initialize from the commit on: an untouched builder is committed without a build, and
        what follows is allowed then. */
    method CommitSidecar(port: int)
      requires sys.Valid() && sys.Stored() && this in sys.all && state == StatePreparing && factory != null
              && !factory.Changed()
      modifies this`state, this`imageName, this`imageCache, this`env, factory`imageNameTo, factory`instructions,
          sys`pushed, sys`ledger
      ensures sys.Valid() && sys.Stored() && SameFamily(old(sys.ledger), sys.ledger)
      ensures state == StateCommitted && imageName == factory.imageNameFrom
      ensures env == old(env)["SERVE_ADDR" := "0.0.0.0:" + Signed(port)]
    {
      var err := Commit("", true, true);
      label Committed:
      err := SetEnvironmentVariable("SERVE_ADDR", "0.0.0.0:" + Signed(port));
      sys.ValidFramed@Committed();
      sys.StoredFramed@Committed();
    }

    method Link(s: Instance)
      requires sys.Recorded() && this in sys.all && s != this
      modifies this`sidecars, s`parent, sys`ledger
      ensures sys.Recorded() && sidecars == old(sidecars) + [s] && s.parent == this
              && sys.ledger == old(sys.ledger).Attach(this, s)
    {
      sys.ledger := sys.ledger.Attach(this, s);
      sidecars := sidecars + [s];
      s.parent := this;
    }

    method Append(s: Instance)
      requires sys.Valid() && this in sys.all && s in sys.all && s != this && s !in sys.ledger.owner && s.sidecars == []
      modifies this`sidecars, s`parent, sys`ledger
      ensures sys.Valid() && sidecars == old(sidecars) + [s] && s.parent == this
      ensures sys.ledger == old(sys.ledger).Attach(this, s)
    {
      sys.Open();
      assert sys.ledger.entries[s] == s.Entry();
      AttachOk(sys.ledger, this, s);
      Link(s);
      sys.Close();
    }

    /** The last part of Add. */
    method Accept(s: Instance, ghost managerSuffix: string, ghost image: string, ghost port: int)
      requires sys.Valid() && sys.Stored() && this in sys.all && s != this && s.sys == sys
      requires s.Waiting(managerSuffix, image, port)
      modifies this`sidecars, s`parent, sys`ledger
      ensures sys.Valid() && sys.Stored() && sidecars == old(sidecars) + [s] && s.parent == this
      ensures s.IsSidecarOf(managerSuffix, image, port) && sys.ledger == old(sys.ledger).Attach(this, s)
    {
      Append(s);
    }

    method AddManaged(managerSuffix: string, image: string, port: int, tempDir: bool, contextDir: bool)
      returns (s: Instance?, err: Option<Error>)
      requires sys.Valid() && sys.Stored() && this in sys.all
      modifies this`sidecars, sys`instancesMap, sys`all, sys`ledger, sys`pushed
      ensures sys.Valid() && sys.Stored()
      ensures state !in {StatePreparing, StateCommitted, StateStopped} ==>
                err == Some(ErrAddingSidecarNotAllowed) && unchanged(sys)
      ensures state in {StatePreparing, StateCommitted, StateStopped}
              && SidecarNameTaken(name, managerSuffix, old(sys.instancesMap)) ==>
                err == Some(ErrInitializingSidecar) && unchanged(sys)
      ensures isSidecar ==> err.Some?
      ensures err.Some? ==> s == null && sidecars == old(sidecars)
      ensures err.None? ==> s != null && fresh(s) && s.IsSidecarOf(managerSuffix, image, port) && s.parent == this
      ensures err.None? ==> sidecars == old(sidecars) + [s] && s.NamedAfter(name)
      ensures RootsStay(old(sys.ledger), sys.ledger)
    {
      if !CanConfigure() { return null, Some(ErrAddingSidecarNotAllowed); }
      s, err := Initialize(sys, name, managerSuffix, image, port, tempDir, contextDir);
      if s == null { return null, Some(ErrInitializingSidecar); }
      if isSidecar { return null, Some(ErrSidecarCannotHaveSidecar); }
      InRank();
      AttachedRoots(old(sys.ledger), sys.ledger, this, s);
      Accept(s, managerSuffix, image, port);
    }

    /** Add, with the traffic shaper's manager. A sidecar that is set up but not accepted stays
        behind with its name. */
    method AddSidecar(managerSuffix: string, image: string, port: int, tempDir: bool, contextDir: bool)
      returns (s: Instance?, err: Option<Error>)
      requires sys.Valid() && sys.Stored() && this in sys.all
      modifies this`sidecars, sys`instancesMap, sys`all, sys`ledger, sys`pushed
      ensures sys.Valid() && sys.Stored()
      ensures state !in {StatePreparing, StateCommitted, StateStopped} ==>
                err == Some(ErrAddingSidecarNotAllowed) && unchanged(sys)
      ensures state in {StatePreparing, StateCommitted, StateStopped}
              && NameError(name + "-" + managerSuffix, old(sys.instancesMap)).Some? ==>
                err == Some(ErrInitializingSidecar) && unchanged(sys)
      ensures isSidecar ==> err.Some?
      ensures err.Some? ==> s == null && sidecars == old(sidecars)
      ensures err.None? ==> s != null && fresh(s) && s.IsSidecarOf(managerSuffix, image, port) && s.parent == this
      ensures err.None? ==> sidecars == old(sidecars) + [s] && SanitizeName(name + "-" + managerSuffix) == Some(s.name)
    {
      s, err := AddManaged(managerSuffix, image, port, tempDir, contextDir);
      assert Closed(Taking, 0) && Opened(Naming, 0);
    }

    /** An instance whose name has 62 or 63 characters cannot get a sidecar: the sidecar's name
        is cut down to the instance's own. */
    lemma LongNamesTakeNoSidecar(managerSuffix: string)
      requires sys.Valid() && this in sys.all && IsLabel(name) && IsLabel(managerSuffix)
      ensures |name| >= 62 ==>
              NameError(name + "-" + managerSuffix, sys.instancesMap) ==
              Some(ErrInstanceNameAlreadyExists)
    {
      sys.Open();
      SidecarName(name, managerSuffix);
      assert sys.ledger.entries[this] == Entry();
    }

    // -------------------------------------------------------------- clones

    ghost function Rank(): nat
      reads sys`ledger
    {
      if this in sys.ledger.rank then sys.ledger.rank[this] else 0
    }

    lemma SidecarBelow(s: Instance)
      requires sys.Valid() && sys.Stored() && this in sys.all && s in sidecars
      ensures s in sys.all && s.sys == sys && s.Rank() < Rank() && this in sys.ledger.rank && s in sys.ledger.rank
    {
      sys.Open();
      sys.OpenStored();
      assert sys.ledger.entries[this] == Entry();
    }

    /** The same configuration and cached images and the very same builder factory as i, but no
        sidecar and without a service. */
    ghost predicate CopyOf(i: Instance)
      reads this`isSidecar, this`hasService, this`sidecars
      reads this`state, this`imageName, this`factory, this`command, this`args, this`env, this`imageCache, this`volumes
      reads this`files, this`portsTCP, this`portsUDP, this`policyRules, this`capabilities, this`suffix
      reads this`privileged
      reads i
    {
      sys == i.sys && Settings() == i.Settings() && !isSidecar && !hasService && |sidecars| == |i.sidecars|
    }

    /** State and configuration are those of i, and so are the very factory and the cached images. */
    ghost predicate SetUpLike(i: Instance)
      reads this, i
    {
      && state == i.state && imageName == i.imageName && factory == i.factory && imageCache == i.imageCache
      && command == i.command && args == i.args && env == i.env
      && volumes == i.volumes && files == i.files && portsTCP == i.portsTCP && portsUDP == i.portsUDP
      && policyRules == i.policyRules && capabilities == i.capabilities && privileged == i.privileged
      && suffix == i.suffix && !isSidecar && !hasService && |sidecars| == |i.sidecars|
    }

    /** Its sidecars have the ports of the sidecars of i. */
    ghost predicate PortsBelow(i: Instance)
      reads this`sidecars, i`sidecars, sidecars`portsTCP, sidecars`portsUDP, i.sidecars`portsTCP, i.sidecars`portsUDP
    {
      TcpOf(sidecars) == TcpOf(i.sidecars) && UdpOf(sidecars) == UdpOf(i.sidecars)
    }

    /** A sidecar's name. */
    ghost predicate NamedAfter(namePrefix: string)
      reads this`name, this`suffix
    {
      IsNamed(namePrefix + "-" + suffix)
    }

    /** New instances that nobody owns yet, and that this one or a clone of it may own. */
    ghost predicate Adoptable(clones: seq<Instance>)
      reads sys`all, sys`ledger
    {
      && Distinct(clones)
      && forall c | c in clones :: c in sys.all && c in sys.ledger.entries && c !in sys.ledger.owner
          && c in sys.ledger.rank && sys.ledger.rank[c] < Rank()
    }

    /** The clones are those of the first sidecars, with names of their own. */
    ghost predicate Copies(clones: seq<Instance>, namePrefix: string)
      reads this`sidecars, clones, sidecars
      reads Kids(clones), Kids(sidecars)
    {
      && |clones| <= |sidecars|
      && (forall k | 0 <= k < |clones| :: clones[k].CopyOf(sidecars[k]) && clones[k].PortsBelow(sidecars[k]))
      && forall c | c in clones :: c.NamedAfter(namePrefix)
    }

    /** Instances that were not there before. */
    twostate predicate Strangers(new ss: seq<Instance>) {
      fresh(ss) && forall s | s in ss :: s !in old(sys.ledger).entries
    }

    twostate lemma StillAdoptable(clones: seq<Instance>, new c: Instance)
      requires old(Adoptable(clones)) && sys.OnlyJoined() && Rank() == old(Rank()) && c !in old(sys.ledger).entries
      requires c.sys == sys && c in sys.ledger.rank && sys.ledger.rank[c] < Rank() && c.HasJoined(sys.ledger.rank[c])
      ensures Adoptable(clones + [c])
    {
    }

    lemma InRank()
      requires sys.Valid() && this in sys.all
      ensures this in sys.ledger.rank && this in sys.ledger.entries
    {
      sys.Open();
    }

    lemma CopiedPorts(r: Instance, newName: string)
      requires IsCopy(r, newName)
      ensures r.PortsBelow(this)
    {
      forall k | 0 <= k < |sidecars| ensures r.sidecars[k].Settings() == sidecars[k].Settings() {
        assert r.sidecars[k].CopyOf(sidecars[k]);
      }
      SamePorts(r.sidecars, sidecars);
    }

    lemma SameSuffix(c: Instance, s: Instance, namePrefix: string)
      requires c.CopyOf(s) && c.IsNamed(namePrefix + "-" + s.suffix)
      ensures c.NamedAfter(namePrefix)
    {
      assert c.Settings().suffix == s.Settings().suffix;
    }

    lemma OneMoreCopied(clones: seq<Instance>, c: Instance, namePrefix: string)
      requires Copies(clones, namePrefix) && |clones| < |sidecars| && c.NamedAfter(namePrefix)
      requires c.CopyOf(sidecars[|clones|]) && c.PortsBelow(sidecars[|clones|])
      ensures Copies(clones + [c], namePrefix)
    {
    }

    /** The sidecars are cloned first; those cloned before one that fails keep their names. */
    method CloneSidecars(namePrefix: string) returns (clones: seq<Instance>, err: Option<Error>)
      requires sys.Valid() && sys.Stored() && this in sys.all
      modifies sys`instancesMap, sys`all, sys`ledger
      ensures sys.Valid() && sys.Stored() && sys.OnlyJoined()
      ensures err.None? ==>
              |clones| == |sidecars| && Strangers(clones) && Adoptable(clones)
              && Copies(clones, namePrefix)
      decreases Rank(), 2
    {
      clones := [];
      for k := 0 to |sidecars|
        invariant sys.Valid() && sys.Stored() && sys.OnlyJoined() && Rank() == old(Rank())
        invariant |clones| == k && Strangers(clones) && Adoptable(clones) && Copies(clones, namePrefix)
      {
        ghost var before := sys.ledger;
        clones, err := CloneNext(namePrefix, clones);
        JoinedThen(old(sys.ledger), before, sys.ledger, []);
        if err.Some? { return; }
      }
      err := None;
    }

    method CloneNext(namePrefix: string, clones: seq<Instance>) returns (more: seq<Instance>, err: Option<Error>)
      requires sys.Valid() && sys.Stored() && this in sys.all
      requires |clones| < |sidecars| && Adoptable(clones) && Copies(clones, namePrefix)
      modifies sys`instancesMap, sys`all, sys`ledger
      ensures sys.Valid() && sys.Stored() && sys.OnlyJoined() && Rank() == old(Rank())
      ensures err.Some? ==> more == clones
      ensures err.None? ==> |more| == |clones| + 1 && more[..|clones|] == clones && Strangers(more[|clones|..])
      ensures err.None? ==> Adoptable(more) && Copies(more, namePrefix)
      decreases Rank(), 1
    {
      var c: Instance?;
      c, err := CloneOne(sidecars[|clones|], namePrefix);
      if err.Some? { return clones, err; }
      assert c in [c];
      StillAdoptable(clones, c);
      OneMoreCopied(clones, c, namePrefix);
      more := clones + [c];
    }

    method CloneOne(s: Instance, namePrefix: string) returns (c: Instance?, err: Option<Error>)
      requires sys.Valid() && sys.Stored() && this in sys.all && s in sidecars
      modifies sys`instancesMap, sys`all, sys`ledger
      ensures sys.Valid() && sys.Stored() && sys.OnlyJoined() && Rank() == old(Rank()) && (err.None? <==> c != null)
      ensures c != null ==> Strangers([c]) && c.sys == sys && c.HasJoined(s.Rank()) && s.Rank() < Rank()
      ensures c != null ==> c.CopyOf(s) && c.PortsBelow(s) && c.NamedAfter(namePrefix)
      decreases Rank(), 0
    {
      SidecarBelow(s);
      c, err := s.CloneAs(namePrefix + "-" + s.suffix);
      if c != null {
        SameSuffix(c, s, namePrefix);
        s.CopiedPorts(c, namePrefix + "-" + s.suffix);
      }
    }

    method CloneAs(newName: string) returns (r: Instance?, err: Option<Error>)
      requires sys.Valid() && sys.Stored() && this in sys.all
      modifies sys`instancesMap, sys`all, sys`ledger
      ensures sys.Valid() && sys.Stored() && sys.OnlyJoined()
      ensures !Startable(state) ==> err == Some(ErrCannotCloneInstance) && unchanged(sys)
      ensures err.None? <==> r != null
      ensures r != null ==> Strangers([r]) && r.HasJoined(Rank()) && IsCopy(r, newName) && r.IsNamed(newName)
      decreases Rank(), 3
    {
      r := null;
      InRank();
      if !IsInState({StateCommitted, StateStopped}) { return null, Some(ErrCannotCloneInstance); }
      var clones: seq<Instance>;
      clones, err := CloneSidecars(newName);
      if err.Some? { return; }
      ghost var before := sys.ledger;
      r, err := Adopt(newName, clones);
      JoinedThen(old(sys.ledger), before, sys.ledger, clones);
    }

    /** CloneWithName: the clone has the same settings, cached images and sidecars, and the very
        same builder factory; it is no sidecar and has no service. */
    method CloneWithName(newName: string) returns (r: Instance?, err: Option<Error>)
      requires sys.Valid() && sys.Stored() && this in sys.all
      modifies sys`instancesMap, sys`all, sys`ledger
      ensures sys.Valid() && sys.Stored() && sys.OnlyJoined()
      ensures !Startable(state) ==> err == Some(ErrCannotCloneInstance) && unchanged(sys)
      ensures err.None? <==> r != null
      ensures r != null ==> fresh(r) && r in sys.all && r.CopyOf(this) && SanitizeName(newName) == Some(r.name)
      ensures r != null ==> r.SetUpLike(this) && forall k | 0 <= k < |sidecars| :: r.sidecars[k].SetUpLike(sidecars[k])
      ensures r != null ==> forall k | 0 <= k < |sidecars| ::
                r.sidecars[k].CopyOf(sidecars[k])
                    && SanitizeName(newName + "-" + r.sidecars[k].suffix) == Some(r.sidecars[k].name)
    {
      r, err := CloneAs(newName);
      if r != null {
        assert r in [r];
        CopyInPlain(r, newName);
      }
    }

    lemma CopyInPlain(r: Instance, newName: string)
      requires IsCopy(r, newName) && r.IsNamed(newName)
      ensures r.CopyOf(this) && SanitizeName(newName) == Some(r.name)
      ensures r.SetUpLike(this) && forall k | 0 <= k < |sidecars| :: r.sidecars[k].SetUpLike(sidecars[k])
      ensures forall k | 0 <= k < |sidecars| ::
                r.sidecars[k].CopyOf(sidecars[k])
                    && SanitizeName(newName + "-" + r.sidecars[k].suffix) == Some(r.sidecars[k].name)
    {
      assert Opened(Naming, 0);
      forall k | 0 <= k < |sidecars|
        ensures SanitizeName(newName + "-" + r.sidecars[k].suffix) == Some(r.sidecars[k].name)
      {
        assert r.sidecars[k].NamedAfter(newName);
      }
    }

    ghost predicate IsCopy(r: Instance, newName: string)
      reads this, sidecars, r, r.sidecars
      reads Kids(r.sidecars), Kids(sidecars)
    {
      r.sys == sys && r.CopyOf(this) && Copies(r.sidecars, newName)
    }

    /** The clone itself, which becomes the owner of its sidecars' clones. */
    method Adopt(newName: string, clones: seq<Instance>) returns (r: Instance?, err: Option<Error>)
      requires sys.Valid() && sys.Stored() && this in sys.all && state != StatePreparing
      requires |clones| == |sidecars| && Adoptable(clones) && Copies(clones, newName)
      modifies sys`instancesMap, sys`all, sys`ledger
      ensures sys.Valid() && sys.Stored() && JoinedWith(old(sys.ledger), sys.ledger, clones)
      ensures old(sys.all) <= sys.all && fresh(sys.all - old(sys.all))
      ensures err.None? <==> r != null
      ensures r != null ==> Strangers([r]) && r.HasJoined(Rank()) && IsCopy(r, newName) && r.IsNamed(newName)
    {
      var c := Duplicate(newName, clones);
      err := NameClone(c, newName);
      r := if err.None? then c else null;
    }

    /** The clone before it gets its name. */
    method Duplicate(ghost newName: string, clones: seq<Instance>) returns (c: Instance)
      requires sys.Valid() && sys.Stored() && this in sys.all && state != StatePreparing
      requires |clones| == |sidecars| && Adoptable(clones) && Copies(clones, newName)
      ensures fresh(c) && c.name == "" && c.sidecars == clones && IsCopy(c, newName)
      ensures sys.Valid() && sys.Stored() && c !in sys.all
      ensures sys.ledger.MayJoin(c, c.Entry(), Rank()) && sys.StorageOk(c)
    {
      c := new Instance.Clone(this, clones);
      CloneMayJoin(c);
    }

    method NameClone(c: Instance, newName: string) returns (err: Option<Error>)
      requires sys.Valid() && sys.Stored() && this in sys.all && c !in sys.all && c.name == "" && c.sys == sys
      requires sys.ledger.MayJoin(c, c.Entry(), Rank()) && sys.StorageOk(c)
      requires IsCopy(c, newName)
      modifies c`name, sys`instancesMap, sys`all, sys`ledger
      ensures sys.Valid() && sys.Stored() && JoinedWith(old(sys.ledger), sys.ledger, c.sidecars)
      ensures err.None? ==> sys.all == old(sys.all) + {c} && c.HasJoined(Rank()) && c.IsNamed(newName)
      ensures err.Some? ==> unchanged(sys)
      ensures IsCopy(c, newName)
    {
      err := NameWithCopies(c, newName);
    }

    method NameWithCopies(c: Instance, newName: string) returns (err: Option<Error>)
      requires sys.Valid() && sys.Stored() && this in sys.all && c !in sys.all && c.name == "" && c.sys == sys
      requires sys.ledger.MayJoin(c, c.Entry(), Rank()) && sys.StorageOk(c)
      requires Copies(c.sidecars, newName)
      modifies c`name, sys`instancesMap, sys`all, sys`ledger
      ensures sys.Valid() && sys.Stored() && JoinedWith(old(sys.ledger), sys.ledger, c.sidecars)
      ensures err.None? ==> sys.all == old(sys.all) + {c} && c.HasJoined(Rank()) && c.IsNamed(newName)
      ensures err.Some? ==> unchanged(sys)
      ensures Copies(c.sidecars, newName)
    {
      MembersNotIn(c);
      err := NameNewcomer(c, newName);
    }

    method NameNewcomer(c: Instance, newName: string) returns (err: Option<Error>)
      requires sys.Valid() && sys.Stored() && this in sys.all && c !in sys.all && c.name == "" && c.sys == sys
      requires sys.ledger.MayJoin(c, c.Entry(), Rank()) && sys.StorageOk(c)
      modifies c`name, sys`instancesMap, sys`all, sys`ledger
      ensures sys.Valid() && sys.Stored() && JoinedWith(old(sys.ledger), sys.ledger, c.sidecars)
      ensures err.None? ==> sys.all == old(sys.all) + {c} && c.HasJoined(Rank()) && c.IsNamed(newName)
      ensures err.Some? ==> unchanged(sys)
    {
      InRank();
      err := c.FirstName(newName, Rank());
    }

    lemma MembersNotIn(c: Instance)
      requires sys.Valid() && c !in sys.all && this in sys.all && sys.ledger.MayJoin(c, c.Entry(), Rank())
      ensures c != this && c !in sidecars && c !in c.sidecars
    {
      sys.Open();
      assert sys.ledger.entries[this] == Entry();
    }

    lemma CloneMayJoin(c: Instance)
      requires sys.Valid() && sys.Stored() && this in sys.all && c !in sys.all && state != StatePreparing
      requires c.sys == sys && c.Settings() == Settings() && Adoptable(c.sidecars)
      ensures sys.ledger.MayJoin(c, c.Entry(), Rank()) && sys.StorageOk(c)
    {
      sys.Open();
      sys.OpenStored();
    }

    // -------------------------------------------------------------- the lifecycle, over the cluster

    /** The instance with its sidecars is the given group. */
    ghost predicate Shows(g: Group)
      reads *
    {
      g.self == Own() && |g.sidecars| == |sidecars|
          && forall k | 0 <= k < |sidecars| :: g.sidecars[k] == sidecars[k].Own()
    }

    /** The same, under seal. */
    ghost predicate Displays(g: Group)
      reads *
    {
      && |g.sidecars| == |sidecars|
      && forall o: nat | Opened(Display, o) :: exists c: nat ::
          Closed(Display, c) && g.self == Own()
          && forall k | 0 <= k < |sidecars| :: g.sidecars[k] == sidecars[k].Own()
    }

    lemma Look(g: Group)
      requires Displays(g)
      ensures g.self == Own() && forall k | 0 <= k < |sidecars| :: g.sidecars[k] == sidecars[k].Own()
    {
      assert Opened(Display, 0) && Closed(Display, 0);
    }

    ghost predicate Apart()
      reads this`sidecars
    {
      && (forall s | s in sidecars :: s.sys == sys)
      && forall o: nat | Opened(Family, o) :: exists c: nat ::
          Closed(Family, c) && this !in sidecars
          && Distinct(sidecars)
    }

    lemma Together()
      requires Apart()
      ensures this !in sidecars && Distinct(sidecars)
    {
      assert Opened(Family, 0);
    }

    lemma SidecarsApart()
      requires sys.Valid() && sys.Stored() && this in sys.all
      ensures Apart() && forall s | s in sidecars :: s in sys.all
    {
      assert Closed(Family, 0);
      sys.Open();
      sys.OpenStored();
      assert sys.ledger.entries[this] == Entry();
    }

    /** The ports of the instance and then of its sidecars. */
    method MergedPorts() returns (tcp: seq<int>, udp: seq<int>)
      ensures tcp == Own().serviceTcp && udp == Own().serviceUdp
    {
      tcp, udp := portsTCP, portsUDP;
      for k := 0 to |sidecars|
        invariant tcp == portsTCP + TcpOf(sidecars[..k]) && udp == portsUDP + UdpOf(sidecars[..k])
      {
        tcp := tcp + sidecars[k].portsTCP;
        udp := udp + sidecars[k].portsUDP;
        assert sidecars[..k + 1][..k] == sidecars[..k];
      }
      assert sidecars[..|sidecars|] == sidecars;
    }

    /** deployService and deployOrPatchService: an upsert either way. */
    method DeployService() returns (ok: bool)
      modifies this`hasService, sys.client
      ensures Reply(sys.client.api, ok) == L.DeployService(old(sys.client.api), old(Own()))
      ensures hasService == (old(hasService) || (ok && old(Own()).HasPorts()))
    {
      var tcp, udp := MergedPorts();
      if |tcp| == 0 && |udp| == 0 { return true; }
      var pointer := sys.client.ServicePointer();
      if pointer {
        ok := sys.client.Put(Key(Service, name), Ports(tcp, udp));
      } else {
        ok := sys.client.Create(Key(Service, name), Ports(tcp, udp));
      }
      if ok { hasService := true; }
    }

    method DeployVolume() returns (ok: bool)
      modifies sys.client
      ensures Reply(sys.client.api, ok) == L.DeployVolume(old(sys.client.api), Own())
    {
      if |volumes| == 0 { return true; }
      var present := sys.client.Exists(Key(VolumeClaim, name));
      if present { return true; }
      var total := 0;
      for k := 0 to |volumes|
        invariant total == TotalSize(volumes[..k])
                && sys.client.api == old(sys.client.api).Exists(Key(VolumeClaim, name)).api
      {
        total := total + volumes[k].size;
        assert volumes[..k + 1][..k] == volumes[..k];
      }
      assert volumes[..|volumes|] == volumes;
      ok := sys.client.Create(Key(VolumeClaim, name), Size(total));
    }

    /** One ConfigMap entry per file; a file that cannot be read fails the deployment. */
    method DeployFiles() returns (ok: bool)
      modifies sys.client
      ensures Reply(sys.client.api, ok) == L.DeployFiles(old(sys.client.api), Own(), sys.disk)
    {
      if |files| == 0 { return true; }
      var data: map<string, string>;
      ok, data := ReadFiles();
      if !ok { return; }
      ok := sys.client.CreateOrUpdate(Key(ConfigMap, name), Entries(data));
    }

    method ReadFiles() returns (ok: bool, data: map<string, string>)
      ensures ok <==> forall f | f in files :: f.source in sys.disk
      ensures ok ==> data == FileData(files, sys.disk)
    {
      data := map[];
      for k := 0 to |files|
        invariant forall f | f in files[..k] :: f.source in sys.disk
        invariant data == FileData(files[..k], sys.disk)
      {
        if files[k].source !in sys.disk { return false, data; }
        data := data[Decimal(k) := sys.disk[files[k].source]];
        assert files[..k + 1][..k] == files[..k];
      }
      assert files[..|files|] == files;
      ok := true;
    }

    method DeployResources() returns (ok: bool)
      modifies this`hasService, sys.client
      ensures Deployed(sys.client.api, Own(), ok) == L.DeployResources(old(sys.client.api), old(Own()), sys.disk)
    {
      if !isSidecar {
        ok := DeployService();
        if !ok { return; }
      }
      ok := DeployStorage();
    }

    method DeployStorage() returns (ok: bool)
      modifies sys.client
      ensures var volume := L.DeployVolume(old(sys.client.api), Own());
              Reply(sys.client.api, ok) == if volume.ok then L.DeployFiles(volume.api, Own(), sys.disk) else volume
    {
      ok := DeployVolume();
      if !ok { return; }
      ok := DeployFiles();
    }

    method EnableIfDisabled() returns (ok: bool)
      modifies sys.client
      ensures Reply(sys.client.api, ok) == L.EnableIfDisabled(old(sys.client.api), Own())
    {
      if state != StateStarted { return false; }
      var disabled := sys.client.PolicyExists(Key(NetworkPolicy, name));
      if !disabled { return true; }
      ok := sys.client.Delete(Key(NetworkPolicy, name));
    }

    method DestroyResources() returns (ok: bool)
      modifies sys.client
      ensures Reply(sys.client.api, ok) == L.DestroyResources(old(sys.client.api), Own())
    {
      if |volumes| != 0 {
        ok := sys.client.DeleteIfPresent(Key(VolumeClaim, name));
        if !ok { return; }
      }
      if |files| != 0 {
        ok := sys.client.DeleteExisting(Key(ConfigMap, name));
        if !ok { return; }
      }
      if hasService {
        ok := sys.client.DeleteIfPresent(Key(Service, name));
        if !ok { return; }
      }
      if isSidecar { return true; }
      ok := EnableIfDisabled();
    }

    /** The container is configured as this instance is. */
    predicate RunsIn(c: ContainerConfig)
      reads this
    {
      && c.name == name && c.image == imageName && c.command == command && c.args == args && c.env == env
      && c.volumes == volumes && c.files == files && c.tcp == portsTCP && c.udp == portsUDP
    }

    /** The pod has a container for this instance and one for each of its sidecars, in order. */
    predicate RunsAs(pod: PodConfig)
      reads this, sidecars
    {
      && pod.name == name && pod.serviceAccount == name && RunsIn(pod.main) && |pod.sidecars| == |sidecars|
      && forall k | 0 <= k < |sidecars| :: sidecars[k].RunsIn(pod.sidecars[k])
    }

    /** prepareReplicaSetConfig. */
    method PodConfiguration(ghost g: Group) returns (pod: PodConfig)
      requires Displays(g)
      ensures pod == g.Pod() && RunsAs(pod)
    {
      Look(g);
      var configs: seq<ContainerConfig> := [];
      for k := 0 to |sidecars|
        invariant |configs| == k && forall j | 0 <= j < k :: configs[j] == g.sidecars[j].Config()
      {
        var s := sidecars[k];
        configs := configs + [ContainerConfig(s.name, s.imageName, s.command, s.args, s.env, s.volumes, s.files,
            s.portsTCP, s.portsUDP)];
      }
      pod := PodConfig(name, name, ContainerConfig(name, imageName, command, args, env, volumes, files, portsTCP,
          portsUDP), configs);
      assert pod.sidecars == g.Pod().sidecars;
    }

    method DeployPod(ghost g: Group) returns (ok: bool)
      requires Displays(g)
      modifies sys.client
      ensures Reply(sys.client.api, ok) == L.DeployPod(old(sys.client.api), g)
    {
      Look(g);
      var pod := PodConfiguration(g);
      ok := sys.client.Create(Key(ServiceAccount, name), Bare);
      if !ok { return; }
      if |policyRules| > 0 {
        ok := sys.client.Create(Key(Role, name), Rules(policyRules));
        if !ok { return; }
        ok := sys.client.Create(Key(RoleBinding, name), Bare);
        if !ok { return; }
      }
      ok := sys.client.Create(Key(ReplicaSet, name), Template(pod));
    }

    method DestroyPod() returns (ok: bool)
      modifies sys.client
      ensures Reply(sys.client.api, ok) == L.DestroyPod(old(sys.client.api), Own())
    {
      ok := sys.client.DeleteIfPresent(Key(ReplicaSet, name));
      if !ok { return; }
      ok := sys.client.Delete(Key(ServiceAccount, name));
      if !ok || |policyRules| == 0 { return; }
      ok := sys.client.Delete(Key(Role, name));
      if !ok { return; }
      ok := sys.client.Delete(Key(RoleBinding, name));
    }

    /** verifySidecarsStates. */
    method VerifySidecarsStates() returns (ok: bool)
      ensures ok <==> forall s | s in sidecars :: Startable(s.state)
    {
      for k := 0 to |sidecars|
        invariant forall j | 0 <= j < k :: Startable(sidecars[j].state)
      {
        if !sidecars[k].IsInState({StateCommitted, StateStopped}) { return false; }
      }
      ok := true;
    }

    /** setStateForSidecars. */
    method SetStateForSidecars(s: State)
      requires sys.Valid() && sys.Stored() && this in sys.all && s != StatePreparing
      modifies sidecars`state, sys`ledger
      ensures sys.Valid() && SameFamily(old(sys.ledger), sys.ledger)
      ensures forall i: Instance | i in sidecars :: i.state == s
    {
      SidecarsApart();
      assert Opened(Family, 0);
      for k := 0 to |sidecars|
        invariant sys.Valid() && SameFamily(old(sys.ledger), sys.ledger)
        invariant forall j | 0 <= j < k :: sidecars[j].state == s
      {
        sidecars[k].SetState(s);
      }
    }

    lemma ShowsStates(s: State, g: Group)
      requires Own() == g.self.(state := s) && |g.sidecars| == |sidecars|
      requires forall k | 0 <= k < |sidecars| :: sidecars[k].Own() == g.sidecars[k].(state := s)
      ensures Displays(g.WithState(s))
    {
      assert Closed(Display, 0);
    }

    /** The states of the instance and of all its sidecars. */
    method MoveAll(s: State)
      requires sys.Valid() && sys.Stored() && this in sys.all && s != StatePreparing
      modifies this`state, sidecars`state, sys`ledger
      ensures sys.Valid() && sys.Stored() && SameFamily(old(sys.ledger), sys.ledger)
      ensures state == s && forall i: Instance | i in sidecars :: i.state == s
    {
      SidecarsApart();
      assert Opened(Family, 0);
      SetState(s);
      SetStateForSidecars(s);
    }

    /** The end of a successful operation. */
    method SetStates(s: State, ghost g: Group)
      requires sys.Valid() && sys.Stored() && this in sys.all && Displays(g) && s != StatePreparing
      modifies this`state, sidecars`state, sys`ledger
      ensures sys.Valid() && sys.Stored() && Displays(g.WithState(s)) && SameFamily(old(sys.ledger), sys.ledger)
    {
      Look(g);
      MoveAll(s);
      assert Own() == g.self.(state := s);
      forall k | 0 <= k < |sidecars| ensures sidecars[k].Own() == g.sidecars[k].(state := s) {
        assert sidecars[k] in sidecars;
      }
      ShowsStates(s, g);
    }

    lemma ShowsSidecar(k: nat, g: Group, m: Member)
      requires k < |sidecars| && |g.sidecars| == |sidecars| && g.self == Own() && sidecars[k].Own() == m
      requires forall j | 0 <= j < |sidecars| && j != k :: g.sidecars[j] == sidecars[j].Own()
      ensures Displays(g.(sidecars := g.sidecars[k := m]))
    {
      assert Closed(Display, 0);
    }

    /** PreStart and deployResources of this sidecar. */
    method DeployAsSidecar() returns (ok: bool)
      modifies this`hasService, sys.client
      ensures Deployed(sys.client.api, Own(), ok) == StartedUp(old(sys.client.api), old(Own()), sys.disk)
    {
      ok := sys.client.Other();
      if ok { ok := DeployResources(); }
    }

    /** PreStart and deployResources of one sidecar. */
    method DeploySidecar(s: Instance, ghost k: nat, ghost g: Group) returns (ok: bool, ghost after: DeployedAll)
      requires k < |sidecars| && s == sidecars[k] && Apart() && Displays(g)
      modifies s`hasService, sys.client
      ensures after == L.DeployNext(DeployedAll(old(sys.client.api), g.sidecars, true), k, sys.disk)
      ensures sys.client.api == after.api && ok == after.ok && Displays(g.(sidecars := after.sidecars))
    {
      Look(g);
      assert Opened(Family, 0);
      StartedUpNext(DeployedAll(sys.client.api, g.sidecars, true), k, sys.disk);
      ok := s.DeployAsSidecar();
      after := DeployedAll(sys.client.api, g.sidecars[k := s.Own()], ok);
      ShowsSidecar(k, g, s.Own());
    }

    /** The same, as a step of the loop. */
    method DeployOneMore(s: Instance, ghost k: nat, ghost self: Member, ghost ms: seq<Member>, ghost a: Api,
        ghost ss: seq<Member>)
      returns (ok: bool, ghost after: seq<Member>)
      requires k < |sidecars| && s == sidecars[k] && Apart() && Displays(Group(self, ms)) && |ss| == |sidecars|
      requires DeployedTo(a, ss, sys.disk, k, DeployedAll(sys.client.api, ms, true))
      modifies s`hasService, sys.client
      ensures DeployedTo(a, ss, sys.disk, k + 1, DeployedAll(sys.client.api, after, ok)) && Displays(Group(self, after))
    {
      ghost var before, all := sys.client.api, DeployedAll(sys.client.api, ms, true);
      ok, all := DeploySidecar(s, k, Group(self, ms));
      after := all.sidecars;
      DeployedNext(a, ss, sys.disk, k, DeployedAll(before, ms, true), all);
    }

    /** The sidecars one after the other, up to the first error. */
    method DeployUpToError(ghost g: Group) returns (k: nat, ok: bool, ghost ms: seq<Member>)
      requires Apart() && Displays(g)
      modifies sidecars`hasService, sys.client
      ensures k <= |g.sidecars| && (k < |g.sidecars| ==> !ok) && Displays(Group(g.self, ms))
      ensures DeployedTo(old(sys.client.api), g.sidecars, sys.disk, k, DeployedAll(sys.client.api, ms, ok))
    {
      DeployedNone(sys.client.api, g.sidecars, sys.disk);
      k, ok, ms := 0, true, g.sidecars;
      assert Group(g.self, ms) == g;
      while k < |sidecars| && ok
        invariant k <= |sidecars| && Displays(Group(g.self, ms))
        invariant DeployedTo(old(sys.client.api), g.sidecars, sys.disk, k, DeployedAll(sys.client.api, ms, ok))
      {
        ok, ms := DeployOneMore(sidecars[k], k, g.self, ms, old(sys.client.api), g.sidecars);
        k := k + 1;
      }
    }

    method DeploySidecars(ghost g: Group) returns (ok: bool, ghost after: DeployedAll)
      requires Apart() && Displays(g)
      modifies sidecars`hasService, sys.client
      ensures after == L.DeploySidecars(old(sys.client.api), g.sidecars, sys.disk, |sidecars|)
      ensures sys.client.api == after.api && ok == after.ok && Displays(g.(sidecars := after.sidecars))
    {
      var k;
      ghost var ms;
      k, ok, ms := DeployUpToError(g);
      after := DeployedAll(sys.client.api, ms, ok);
      DeployedUpTo(old(sys.client.api), g.sidecars, sys.disk, k, after);
    }

    method DestroyOneMore(s: Instance, ghost k: nat, ghost g: Group, ghost a: Api) returns (ok: bool)
      requires k < |sidecars| && s == sidecars[k] && Apart() && Displays(g)
              && DestroyedTo(a, g.sidecars, k, Reply(sys.client.api, true))
      modifies sys.client
      ensures Displays(g) && DestroyedTo(a, g.sidecars, k + 1, Reply(sys.client.api, ok))
    {
      Look(g);
      ghost var before := Reply(sys.client.api, true);
      ok := s.DestroyResources();
      DestroyedNext(a, g.sidecars, k, before, Reply(sys.client.api, ok));
    }

    method DestroySidecars(ghost g: Group) returns (ok: bool)
      requires Apart() && Displays(g)
      modifies sys.client
      ensures Reply(sys.client.api, ok) == L.DestroySidecars(old(sys.client.api), g.sidecars, |sidecars|)
    {
      DestroyedNone(sys.client.api, g.sidecars);
      ok := true;
      var k := 0;
      while k < |sidecars| && ok
        invariant k <= |sidecars| && Displays(g)
                && DestroyedTo(old(sys.client.api), g.sidecars, k, Reply(sys.client.api, ok))
      {
        ok := DestroyOneMore(sidecars[k], k, g, old(sys.client.api));
        k := k + 1;
      }
      DestroyedUpTo(old(sys.client.api), g.sidecars, k, Reply(sys.client.api, ok));
    }

    /** deployResources of the instance itself. */
    method DeployOwn(ghost g: Group) returns (ok: bool, ghost d: Deployed)
      requires Apart() && Displays(g)
      modifies this`hasService, sys.client
      ensures d == L.DeployResources(old(sys.client.api), g.self, sys.disk)
      ensures sys.client.api == d.api && ok == d.ok && Displays(g.(self := d.member))
    {
      Look(g);
      assert Opened(Family, 0);
      d := L.DeployResources(sys.client.api, Own(), sys.disk);
      ok := DeployResources();
      assert Closed(Display, 0);
    }

    /** deployResourcesForCommittedState. */
    method DeployCommitted(ghost g: Group) returns (err: Option<Error>, ghost e: Effect)
      requires Apart() && Displays(g)
      modifies this`hasService, sidecars`hasService, sys.client
      ensures e == L.DeployCommitted(old(sys.client.api), g, sys.disk)
      ensures sys.client.api == e.api && err == e.err && Displays(e.group)
    {
      var ok;
      ghost var own, all;
      ok, own := DeployOwn(g);
      if !ok {
        err := Some(ErrDeployingResourcesForInstance);
        e := Effect(own.api, g.(self := own.member), err);
        return;
      }
      ok, all := DeploySidecars(g.(self := own.member));
      err := if ok then None else Some(ErrDeployingResourcesForInstance);
      e := Effect(all.api, g.(self := own.member).(sidecars := all.sidecars), err);
    }

    /** The checks before starting. */
    method CheckStart(ghost g: Group) returns (err: Option<Error>)
      requires Displays(g)
      ensures err == StartError(g)
    {
      Look(g);
      if !IsInState({StateCommitted, StateStopped}) { return Some(ErrStartingNotAllowed); }
      var ready := VerifySidecarsStates();
      assert ready <==> forall k | 0 <= k < |g.sidecars| :: Startable(g.sidecars[k].state);
      if !ready { return Some(ErrStartingNotAllowedForSidecar); }
      if isSidecar { return Some(ErrStartingSidecarNotAllowed); }
      err := None;
    }

    method LaunchPod(ghost g: Group) returns (ok: bool)
      requires Displays(g)
      modifies sys.client
      ensures Displays(g) && Reply(sys.client.api, ok) == L.DeployPod(old(sys.client.api), g)
    {
      Look(g);
      ok := DeployPod(g);
      assert Closed(Display, 0);
    }

    /** What starting does to the cluster. */
    method Launch(ghost g: Group) returns (err: Option<Error>, ghost e: Effect)
      requires Apart() && Displays(g)
      modifies this`hasService, sidecars`hasService, sys.client
      ensures e == Launched(old(sys.client.api), g, sys.disk)
      ensures sys.client.api == e.api && err == e.err && Displays(e.group)
    {
      Look(g);
      err, e := None, Effect(sys.client.api, g, None);
      if state == StateCommitted { err, e := DeployCommitted(g); }
      if err.None? {
        var ok := LaunchPod(e.group);
        err := if ok then None else Some(ErrDeployingPodForInstance);
        e := Effect(sys.client.api, e.group, err);
      }
    }

    /** StartAsync. */
    method StartGroup(ghost g: Group) returns (err: Option<Error>, ghost after: Group)
      requires sys.Valid() && sys.Stored() && this in sys.all && Displays(g)
      modifies this`state, this`hasService, sidecars`state, sidecars`hasService, sys.client, sys`ledger
      ensures sys.Valid() && sys.Stored() && Displays(after) && SameFamily(old(sys.ledger), sys.ledger)
      ensures Effect(sys.client.api, after, err) == L.Start(old(sys.client.api), g, sys.disk)
    {
      StartInSteps(sys.client.api, g, sys.disk);
      after := g;
      err := CheckStart(g);
      if err.Some? { return; }
      SidecarsApart();
      ghost var e;
      err, e := Launch(g);
      after := e.group;
      if err.None? {
        SetStates(StateStarted, e.group);
        after := e.group.WithState(StateStarted);
      }
    }

    /** destroyPod of an instance whose group is known. */
    method TearDownPod(ghost g: Group) returns (ok: bool)
      requires Displays(g)
      modifies sys.client
      ensures Displays(g) && Reply(sys.client.api, ok) == L.DestroyPod(old(sys.client.api), g.self)
    {
      Look(g);
      ok := DestroyPod();
      assert Closed(Display, 0);
    }

    method StopGroup(ghost g: Group) returns (err: Option<Error>, ghost after: Group)
      requires sys.Valid() && sys.Stored() && this in sys.all && Displays(g)
      modifies this`state, sidecars`state, sys.client, sys`ledger
      ensures sys.Valid() && sys.Stored() && Displays(after) && SameFamily(old(sys.ledger), sys.ledger)
      ensures Effect(sys.client.api, after, err) == L.Stop(old(sys.client.api), g)
    {
      Look(g);
      after := g;
      if state != StateStarted { return Some(ErrStoppingNotAllowed), after; }
      var ok := TearDownPod(g);
      if !ok { return Some(ErrDestroyingPod), after; }
      SetStates(StateStopped, g);
      return None, g.WithState(StateStopped);
    }

    method TearDownOwn(ghost g: Group) returns (ok: bool)
      requires Displays(g)
      modifies sys.client
      ensures Displays(g) && Reply(sys.client.api, ok) == L.DestroyResources(old(sys.client.api), g.self)
    {
      Look(g);
      ok := DestroyResources();
      assert Closed(Display, 0);
    }

    method TearDownSidecars(ghost g: Group) returns (ok: bool)
      requires Apart() && Displays(g)
      modifies sys.client
      ensures Displays(g) && Reply(sys.client.api, ok) == L.DestroySidecars(old(sys.client.api), g.sidecars,
              |g.sidecars|)
    {
      Look(g);
      ok := DestroySidecars(g);
      assert Closed(Display, 0);
    }

    /** What destroying does to the cluster. */
    method TearDown(ghost g: Group) returns (err: Option<Error>)
      requires Apart() && Displays(g)
      modifies sys.client
      ensures Displays(g) && Effect(sys.client.api, g, err) == TornDown(old(sys.client.api), g)
    {
      var ok := TearDownPod(g);
      if !ok { return Some(ErrDestroyingPod); }
      ok := TearDownOwn(g);
      if !ok { return Some(ErrDestroyingResourcesForInstance); }
      ok := TearDownSidecars(g);
      if !ok { return Some(ErrDestroyingResourcesForSidecars); }
      err := None;
    }

    method DestroyGroup(ghost g: Group) returns (err: Option<Error>, ghost after: Group)
      requires sys.Valid() && sys.Stored() && this in sys.all && Displays(g)
      modifies this`state, sidecars`state, sys.client, sys`ledger
      ensures sys.Valid() && sys.Stored() && Displays(after) && SameFamily(old(sys.ledger), sys.ledger)
      ensures Effect(sys.client.api, after, err) == L.Destroy(old(sys.client.api), g)
    {
      Look(g);
      after := g;
      if state == StateDestroyed { return None, after; }
      if !IsInState({StateStarted, StateStopped}) { return Some(ErrDestroyingNotAllowed), after; }
      SidecarsApart();
      DestroyInSteps(sys.client.api, g);
      err := TearDown(g);
      if err.None? {
        SetStates(StateDestroyed, g);
        after := g.WithState(StateDestroyed);
      }
    }

    method DisableGroup(ghost g: Group) returns (err: Option<Error>)
      requires Displays(g)
      modifies sys.client
      ensures var e := L.Disable(old(sys.client.api), g);
              sys.client.api == e.api && err == e.err && e.group == g && Displays(g)
    {
      Look(g);
      if state != StateStarted { return Some(ErrDisablingNetworkNotAllowed); }
      var ok := sys.client.Create(Key(NetworkPolicy, name), Bare);
      err := if ok then None else Some(ErrDisablingNetwork);
    }

    method EnableGroup(ghost g: Group) returns (err: Option<Error>)
      requires Displays(g)
      modifies sys.client
      ensures var e := L.Enable(old(sys.client.api), g);
              sys.client.api == e.api && err == e.err && e.group == g && Displays(g)
    {
      Look(g);
      if state != StateStarted { return Some(ErrEnablingNetworkNotAllowed); }
      var ok := sys.client.Delete(Key(NetworkPolicy, name));
      err := if ok then None else Some(ErrEnablingNetwork);
    }

    // -------------------------------------------------------------- the operations, on the group they act on

    lemma Seal(g: Group)
      requires Shows(g)
      ensures Displays(g)
    {
      assert Closed(Display, 0);
    }

    lemma Unseal(g: Group)
      requires Displays(g)
      ensures Shows(g)
    {
      Look(g);
    }

    /** The cluster has the pod of this instance with its sidecars, its account, and its role if it has
        rules. */
    ghost predicate Running()
      reads this, sidecars, sys.client
    {
      var objs := sys.client.api.objs;
      && Key(ReplicaSet, name) in objs && objs[Key(ReplicaSet, name)].Template?
      && RunsAs(objs[Key(ReplicaSet, name)].config) && Key(ServiceAccount, name) in objs
      && (policyRules != [] ==>
            Key(Role, name) in objs && objs[Key(Role, name)] == Rules(policyRules) && Key(RoleBinding, name) in objs)
    }

    /** Unless it is a sidecar or there are no ports, it has a service with its own ports followed by
        those of its sidecars. */
    ghost predicate Reachable()
      reads this, sidecars`portsTCP, sidecars`portsUDP, sys.client
    {
      var tcp, udp := portsTCP + TcpOf(sidecars), portsUDP + UdpOf(sidecars);
      !isSidecar && (tcp != [] || udp != []) ==>
        && Key(Service, name) in sys.client.api.objs
        && sys.client.api.objs[Key(Service, name)] == Ports(tcp, udp)
    }

    lemma RunsTheGroup(g: Group, after: Group)
      requires Shows(after) && PodDeployed(sys.client.api, g)
      requires |after.sidecars| == |g.sidecars| && after.self == g.self.(state := state, hasService := hasService)
      requires forall k | 0 <= k < |sidecars| ::
              after.sidecars[k] ==
              g.sidecars[k].(state := sidecars[k].state, hasService := sidecars[k].hasService)
      ensures Running()
    {
      var pod := sys.client.api.objs[Key(ReplicaSet, name)].config;
      forall k | 0 <= k < |sidecars| ensures sidecars[k].RunsIn(pod.sidecars[k]) {
        assert Configures(pod.sidecars[k], g.sidecars[k]) && after.sidecars[k] == sidecars[k].Own();
      }
    }

    /** Within a group the names are distinct because the registry gave them out. */
    lemma NamesApart(g: Group)
      requires sys.Valid() && sys.Stored() && this in sys.all && Shows(g)
      ensures DistinctMembers(g)
    {
      SidecarsApart();
      Together();
      forall k | 0 <= k < |sidecars| ensures g.sidecars[k].name != g.self.name { sys.NamesDiffer(sidecars[k], this); }
      forall k, l | 0 <= k < l < |sidecars| ensures g.sidecars[k].name != g.sidecars[l].name {
        sys.NamesDiffer(sidecars[k], sidecars[l]);
      }
    }

    method StartShown(ghost g: Group) returns (err: Option<Error>, ghost after: Group)
      requires sys.Valid() && sys.Stored() && this in sys.all && Shows(g)
      modifies this`state, this`hasService, sidecars`state, sidecars`hasService, sys.client, sys`ledger
      ensures sys.Valid() && sys.Stored() && Shows(after) && SameFamily(old(sys.ledger), sys.ledger)
      ensures Effect(sys.client.api, after, err) == L.Start(old(sys.client.api), g, sys.disk)
    {
      Seal(g);
      err, after := StartGroup(g);
      Unseal(after);
    }

    /** StartAsync: what the call does to the group, and what a successful one leaves in the cluster. */
    method StartAsync(ghost g: Group) returns (err: Option<Error>, ghost after: Group)
      requires sys.Valid() && sys.Stored() && this in sys.all && Shows(g)
      modifies this`state, this`hasService, sidecars`state, sidecars`hasService, sys.client, sys`ledger
      ensures sys.Valid() && sys.Stored() && Shows(after) && SameFamily(old(sys.ledger), sys.ledger)
      ensures Effect(sys.client.api, after, err) == L.Start(old(sys.client.api), g, sys.disk)
      ensures err.None? ==> Running()
      ensures err.None? && old(state) == StateCommitted ==>
                Reachable() && AllDeployed(old(sys.client.api), sys.client.api, g, sys.disk)
    {
      NamesApart(g);
      ghost var before := sys.client.api;
      err, after := StartShown(g);
      if err.None? { Started(before, g, after); }
    }

    lemma Started(before: Api, g: Group, after: Group)
      requires Shows(after) && DistinctMembers(g)
      requires Effect(sys.client.api, after, None) == L.Start(before, g, sys.disk)
      ensures Running()
      ensures g.self.state == StateCommitted ==>
                Reachable() && AllDeployed(before, sys.client.api, g, sys.disk)
    {
      StartDeploys(before, g, sys.disk);
      StartChanges(before, g, sys.disk);
      RunsTheGroup(g, after);
    }

    method Stop(ghost g: Group) returns (err: Option<Error>, ghost after: Group)
      requires sys.Valid() && sys.Stored() && this in sys.all && Shows(g)
      modifies this`state, sidecars`state, sys.client, sys`ledger
      ensures sys.Valid() && sys.Stored() && Shows(after) && SameFamily(old(sys.ledger), sys.ledger)
      ensures Effect(sys.client.api, after, err) == L.Stop(old(sys.client.api), g)
    {
      Seal(g);
      err, after := StopGroup(g);
      Unseal(after);
    }

    method Destroy(ghost g: Group) returns (err: Option<Error>, ghost after: Group)
      requires sys.Valid() && sys.Stored() && this in sys.all && Shows(g)
      modifies this`state, sidecars`state, sys.client, sys`ledger
      ensures sys.Valid() && sys.Stored() && Shows(after) && SameFamily(old(sys.ledger), sys.ledger)
      ensures Effect(sys.client.api, after, err) == L.Destroy(old(sys.client.api), g)
    {
      Seal(g);
      err, after := DestroyGroup(g);
      Unseal(after);
    }

    method DisableNetwork(ghost g: Group) returns (err: Option<Error>)
      requires Shows(g)
      modifies sys.client
      ensures Shows(g) && Effect(sys.client.api, g, err) == L.Disable(old(sys.client.api), g)
    {
      Seal(g);
      err := DisableGroup(g);
      Unseal(g);
    }

    method EnableNetwork(ghost g: Group) returns (err: Option<Error>)
      requires Shows(g)
      modifies sys.client
      ensures Shows(g) && Effect(sys.client.api, g, err) == L.Enable(old(sys.client.api), g)
    {
      Seal(g);
      err := EnableGroup(g);
      Unseal(g);
    }
  }
}
