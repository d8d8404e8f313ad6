/** From container configurations to a pod specification: pod volumes, volume mounts, and the
    init container with its script. */
module PodSpec {

  import opened Wrappers
  import opened Text
  import opened FileSystem

  const KNUU: Path := ["knuu"]
  const CONFIG_SUFFIX := "-config"
  const INIT_SUFFIX := "-init"
  const INIT_IMAGE := "nicolaka/netshoot"

  datatype Volume = Volume(path: Path, size: nat, owner: int)

  datatype File = File(source: string, dest: Path, chown: string, permission: string)

  datatype ContainerConfig = ContainerConfig(
    name: string, image: string, command: seq<string>, args: seq<string>, env: map<string, string>,
    volumes: seq<Volume>, files: seq<File>, tcp: seq<int>, udp: seq<int>)

  datatype PodConfig = PodConfig(
    name: string, serviceAccount: string, main: ContainerConfig, sidecars: seq<ContainerConfig>)

  datatype VolumeSource = Claim(name: string) | EmptyDir | ConfigMapRef(name: string)

  datatype PodVolume = PodVolume(name: string, source: VolumeSource)

  datatype Container = Container(config: ContainerConfig, mounts: seq<Mount>)

  datatype InitContainer = InitContainer(name: string, image: string, script: seq<Command>, mounts: seq<Mount>)

  datatype Spec = Spec(
    serviceAccount: string, initContainers: seq<InitContainer>, containers: seq<Container>, volumes: seq<PodVolume>)

  /** buildPodVolumes. */
  function PodVolumes(name: string, volumesAmount: nat, filesAmount: nat): seq<PodVolume> {
    (if volumesAmount != 0 then [PodVolume(name, Claim(name))] else []) +
    (if volumesAmount == 0 && filesAmount != 0 then [PodVolume(name, EmptyDir)] else []) +
    (if filesAmount != 0 then [PodVolume(name + CONFIG_SUFFIX, ConfigMapRef(name))] else [])
  }

  function ParentDirs(files: seq<File>): set<Path> {
    set f | f in files :: Parent(f.dest)
  }

  /** A listing of a set, in any order: what ranging over a Go map yields. */
  ghost predicate Enumerates(dirs: seq<Path>, all: set<Path>) {
    && (forall d :: d in dirs <==> d in all)
    && forall i, j :: 0 <= i < j < |dirs| ==> dirs[i] != dirs[j]
  }

  function DirMounts(name: string, prefix: Path, dirs: seq<Path>): seq<Mount> {
    seq(|dirs|, i requires 0 <= i < |dirs| => Mount(name, prefix + dirs[i], dirs[i]))
  }

  function VolumeMounts(name: string, volumes: seq<Volume>): seq<Mount> {
    seq(|volumes|, i requires 0 <= i < |volumes| => Mount(name, volumes[i].path, volumes[i].path))
  }

  function ConfigMounts(name: string, files: seq<File>): seq<Mount> {
    seq(|files|, i requires 0 <= i < |files| => Mount(name + CONFIG_SUFFIX, files[i].dest, [Decimal(i)]))
  }

  /** The mounts of a container, given the order in which the directories were listed. */
  function ContainerMounts(name: string, volumes: seq<Volume>, files: seq<File>, dirs: seq<Path>): seq<Mount> {
    if volumes == [] && files != [] then DirMounts(name, [], dirs) else VolumeMounts(name, volumes)
  }

  function InitMounts(name: string, volumes: seq<Volume>, files: seq<File>, dirs: seq<Path>): seq<Mount> {
    (if volumes == [] then DirMounts(name, KNUU, dirs) else [Mount(name, KNUU, [])]) + ConfigMounts(name, files)
  }

  method ListDirs(name: string, prefix: Path, files: seq<File>) returns (ms: seq<Mount>, ghost dirs: seq<Path>)
    ensures Enumerates(dirs, ParentDirs(files))
    ensures ms == DirMounts(name, prefix, dirs)
  {
    var uniquePaths := {};
    for i := 0 to |files|
      invariant uniquePaths == ParentDirs(files[..i])
    {
      uniquePaths := uniquePaths + {Parent(files[i].dest)};
      assert files[..i + 1] == files[..i] + [files[i]];
    }
    assert files[..|files|] == files;
    ms, dirs := [], [];
    while uniquePaths != {}
      invariant forall d :: d in ParentDirs(files) <==> d in dirs || d in uniquePaths
      invariant forall d | d in dirs :: d !in uniquePaths
      invariant forall i, j :: 0 <= i < j < |dirs| ==> dirs[i] != dirs[j]
      invariant ms == DirMounts(name, prefix, dirs)
    {
      var path :| path in uniquePaths;
      uniquePaths := uniquePaths - {path};
      ms := ms + [Mount(name, prefix + path, path)];
      dirs := dirs + [path];
    }
  }

  method BuildContainerVolumes(name: string, volumes: seq<Volume>, files: seq<File>)
    returns (ms: seq<Mount>, ghost dirs: seq<Path>)
    ensures Enumerates(dirs, ParentDirs(files))
    ensures ms == ContainerMounts(name, volumes, files, dirs)
  {
    ms := [];
    for i := 0 to |volumes|
      invariant ms == VolumeMounts(name, volumes[..i])
    {
      ms := ms + [Mount(name, volumes[i].path, volumes[i].path)];
    }
    assert volumes[..|volumes|] == volumes;
    var listed;
    listed, dirs := ListDirs(name, [], files);
    if |volumes| == 0 && |files| != 0 {
      assert ms == [];
      ms := ms + listed;
    }
  }

  method BuildInitContainerVolumes(name: string, volumes: seq<Volume>, files: seq<File>)
    returns (ms: seq<Mount>, ghost dirs: seq<Path>)
    ensures Enumerates(dirs, ParentDirs(files))
    ensures ms == if volumes == [] && files == [] then [] else InitMounts(name, volumes, files, dirs)
  {
    ms := [];
    var listed;
    listed, dirs := ListDirs(name, KNUU, files);
    if |volumes| == 0 && |files| == 0 { return; }
    if |volumes| != 0 {
      ms := [Mount(name, KNUU, [])];
    }
    if |volumes| == 0 && |files| != 0 {
      ms := listed;
    }
    var containerFiles := [];
    for n := 0 to |files|
      invariant containerFiles == ConfigMounts(name, files[..n])
    {
      containerFiles := containerFiles + [Mount(name + CONFIG_SUFFIX, files[n].dest, [Decimal(n)])];
    }
    assert files[..|files|] == files;
    ms := ms + containerFiles;
  }

  function OwnerPair(owner: int): string {
    Signed(owner) + ":" + Signed(owner)
  }

  /** The commands for one file; its directory is created unless an earlier file did so. */
  function FilePart(f: File, dirProcessed: bool): seq<Command> {
    (if dirProcessed then [] else [MkdirP(KNUU + Parent(f.dest))]) +
    [Cp(f.dest, KNUU + f.dest)] +
    (if f.chown != "" then [Chown(f.chown, KNUU + f.dest)] else []) +
    (if f.permission != "" then [Chmod(f.permission, KNUU + f.dest)] else [])
  }

  function FileCommands(files: seq<File>): seq<Command> {
    if files == [] then []
    else
      var earlier, f := files[..|files| - 1], files[|files| - 1];
      FileCommands(earlier) + FilePart(f, Parent(f.dest) in ParentDirs(earlier))
  }

  lemma FileCommandsStep(files: seq<File>, i: nat)
    requires i < |files|
    ensures ParentDirs(files[..i + 1]) == ParentDirs(files[..i]) + {Parent(files[i].dest)}
    ensures FileCommands(files[..i + 1]) ==
            FileCommands(files[..i]) + FilePart(files[i], Parent(files[i].dest) in ParentDirs(files[..i]))
  {
    var longer := files[..i + 1];
    assert longer[..i] == files[..i] && longer[i] == files[i];
    assert longer == files[..i] + [files[i]];
  }

  function VolumeCommand(v: Volume): Command {
    IfNonEmptyDir(v.path, [
      MkdirP(KNUU + v.path), CpContents(v.path, KNUU + v.path), ChownR(OwnerPair(v.owner), KNUU + v.path)])
  }

  function VolumeCommands(volumes: seq<Volume>): seq<Command> {
    seq(|volumes|, i requires 0 <= i < |volumes| => VolumeCommand(volumes[i]))
  }

  function InitScript(volumes: seq<Volume>, files: seq<File>): seq<Command> {
    [MkdirP(KNUU)] + FileCommands(files) + VolumeCommands(volumes)
  }

  method BuildFilePart(file: File, processed: bool) returns (cmds: seq<Command>)
    ensures cmds == FilePart(file, processed)
  {
    cmds := [];
    if !processed {
      cmds := cmds + [MkdirP(KNUU + Parent(file.dest))];
    }
    cmds := cmds + [Cp(file.dest, KNUU + file.dest)];
    if file.chown != "" {
      cmds := cmds + [Chown(file.chown, KNUU + file.dest)];
    }
    if file.permission != "" {
      cmds := cmds + [Chmod(file.permission, KNUU + file.dest)];
    }
  }

  method BuildFileCommands(files: seq<File>) returns (cmds: seq<Command>)
    ensures cmds == FileCommands(files)
  {
    var dirsProcessed := {};
    cmds := [];
    for i := 0 to |files|
      invariant dirsProcessed == ParentDirs(files[..i])
      invariant cmds == FileCommands(files[..i])
    {
      var folder := Parent(files[i].dest);
      var part := BuildFilePart(files[i], folder in dirsProcessed);
      dirsProcessed := dirsProcessed + {folder};
      FileCommandsStep(files, i);
      cmds := cmds + part;
    }
    assert files[..|files|] == files;
  }

  method BuildInitContainerCommand(volumes: seq<Volume>, files: seq<File>) returns (cmds: seq<Command>)
    ensures cmds == InitScript(volumes, files)
  {
    var forFiles := BuildFileCommands(files);
    var forVolumes := [];
    for j := 0 to |volumes|
      invariant forVolumes == VolumeCommands(volumes[..j])
    {
      forVolumes := forVolumes + [VolumeCommand(volumes[j])];
    }
    assert volumes[..|volumes|] == volumes;
    cmds := [MkdirP(KNUU)] + forFiles + forVolumes;
  }

  predicate NeedsInit(c: ContainerConfig, init: bool) {
    init && (c.volumes != [] || c.files != [])
  }

  ghost predicate IsContainer(c: ContainerConfig, k: Container) {
    k.config == c &&
    exists dirs :: Enumerates(dirs, ParentDirs(c.files))
        && k.mounts == ContainerMounts(c.name, c.volumes, c.files, dirs)
  }

  ghost predicate IsInitContainer(c: ContainerConfig, k: InitContainer) {
    && k.name == c.name + INIT_SUFFIX && k.image == INIT_IMAGE
    && k.script == InitScript(c.volumes, c.files)
    && exists dirs :: Enumerates(dirs, ParentDirs(c.files)) && k.mounts == InitMounts(c.name, c.volumes, c.files, dirs)
  }

  /** The container configurations of a pod, the main one first. */
  function Configs(pod: PodConfig): seq<ContainerConfig> { [pod.main] + pod.sidecars }

  /** Sidecars always get their init container. */
  predicate InitEnabled(init: bool, i: nat) { init || i > 0 }

  ghost predicate AreInits(cs: seq<ContainerConfig>, init: bool, ks: seq<InitContainer>) {
    if cs == [] then ks == []
    else
      var front, c := cs[..|cs| - 1], cs[|cs| - 1];
      if NeedsInit(c, InitEnabled(init, |cs| - 1)) then
        ks != [] && IsInitContainer(c, ks[|ks| - 1]) && AreInits(front, init, ks[..|ks| - 1])
      else AreInits(front, init, ks)
  }

  function AllVolumes(configs: seq<ContainerConfig>): seq<PodVolume> {
    if configs == [] then []
    else
      var c := configs[|configs| - 1];
      AllVolumes(configs[..|configs| - 1]) + PodVolumes(c.name, |c.volumes|, |c.files|)
  }

  ghost predicate AreContainers(cs: seq<ContainerConfig>, ks: seq<Container>) {
    |ks| == |cs| && forall i | 0 <= i < |cs| :: IsContainer(cs[i], ks[i])
  }

  /** What preparePodSpec builds, for any order of directory listings. */
  ghost predicate IsSpec(pod: PodConfig, init: bool, spec: Spec) {
    && spec.serviceAccount == pod.serviceAccount
    && AreContainers(Configs(pod), spec.containers)
    && AreInits(Configs(pod), init, spec.initContainers)
    && spec.volumes == AllVolumes(Configs(pod))
  }

  method PrepareContainer(c: ContainerConfig) returns (k: Container)
    ensures IsContainer(c, k)
  {
    var mounts, _ := BuildContainerVolumes(c.name, c.volumes, c.files);
    k := Container(c, mounts);
  }

  method PrepareInitContainers(c: ContainerConfig, init: bool) returns (ks: seq<InitContainer>)
    ensures if NeedsInit(c, init) then |ks| == 1 && IsInitContainer(c, ks[0]) else ks == []
  {
    if !init || (|c.volumes| == 0 && |c.files| == 0) { return []; }
    var script := BuildInitContainerCommand(c.volumes, c.files);
    var mounts, _ := BuildInitContainerVolumes(c.name, c.volumes, c.files);
    ks := [InitContainer(c.name + INIT_SUFFIX, INIT_IMAGE, script, mounts)];
  }

  lemma AreInitsStep(cs: seq<ContainerConfig>, init: bool, k: nat, before: seq<InitContainer>, more: seq<InitContainer>)
    requires k < |cs| && AreInits(cs[..k], init, before)
    requires if NeedsInit(cs[k], InitEnabled(init, k)) then |more| == 1 && IsInitContainer(cs[k], more[0])
            else more == []
    ensures AreInits(cs[..k + 1], init, before + more)
  {
    assert cs[..k + 1][..k] == cs[..k] && cs[..k + 1][k] == cs[k];
    if more == [] {
      assert before + more == before;
    } else {
      assert (before + more)[..|before + more| - 1] == before;
    }
  }

  lemma AreContainersStep(cs: seq<ContainerConfig>, k: nat, before: seq<Container>, one: Container)
    requires k < |cs| && AreContainers(cs[..k], before) && IsContainer(cs[k], one)
    ensures AreContainers(cs[..k + 1], before + [one])
  {
    var now, after := cs[..k + 1], before + [one];
    forall i | 0 <= i < |now| ensures IsContainer(now[i], after[i]) {
      if i < k { assert IsContainer(cs[..k][i], before[i]); }
    }
  }

  lemma AllVolumesStep(cs: seq<ContainerConfig>, k: nat)
    requires k < |cs|
    ensures AllVolumes(cs[..k + 1]) == AllVolumes(cs[..k]) + PodVolumes(cs[k].name, |cs[k].volumes|, |cs[k].files|)
  {
    assert cs[..k + 1][..k] == cs[..k] && cs[..k + 1][k] == cs[k];
  }

  method PreparePodSpec(pod: PodConfig, init: bool) returns (spec: Spec)
    ensures IsSpec(pod, init, spec)
  {
    ghost var cs := Configs(pod);
    var initContainers := PrepareInitContainers(pod.main, init);
    var main := PrepareContainer(pod.main);
    var containers := [] + [main];
    var volumes := PodVolumes(pod.main.name, |pod.main.volumes|, |pod.main.files|);
    assert [] + initContainers == initContainers;
    AreInitsStep(cs, init, 0, [], initContainers);
    AreContainersStep(cs, 0, [], main);
    AllVolumesStep(cs, 0);
    for i := 0 to |pod.sidecars|
      invariant AreContainers(cs[..i + 1], containers)
      invariant AreInits(cs[..i + 1], init, initContainers)
      invariant volumes == AllVolumes(cs[..i + 1])
    {
      var more := PrepareInitContainers(pod.sidecars[i], true);
      var container := PrepareContainer(pod.sidecars[i]);
      AreInitsStep(cs, init, i + 1, initContainers, more);
      AreContainersStep(cs, i + 1, containers, container);
      AllVolumesStep(cs, i + 1);
      initContainers := initContainers + more;
      containers := containers + [container];
      volumes := volumes + PodVolumes(pod.sidecars[i].name, |pod.sidecars[i].volumes|, |pod.sidecars[i].files|);
    }
    assert cs[..|cs|] == cs;
    spec := Spec(pod.serviceAccount, initContainers, containers, volumes);
  }

  /** Each init container was made for one of the configurations. */
  lemma {:induction false} OriginOf(cs: seq<ContainerConfig>, init: bool, ks: seq<InitContainer>, j: nat)
      returns (i: nat)
    requires AreInits(cs, init, ks) && j < |ks|
    ensures i < |cs| && NeedsInit(cs[i], InitEnabled(init, i)) && IsInitContainer(cs[i], ks[j])
  {
    var n := |cs| - 1;
    if NeedsInit(cs[n], InitEnabled(init, n)) {
      if j == |ks| - 1 {
        i := n;
      } else {
        i := OriginOf(cs[..n], init, ks[..|ks| - 1], j);
      }
    } else {
      i := OriginOf(cs[..n], init, ks, j);
    }
  }

  /** Each configuration that needs an init container has one. */
  lemma {:induction false} InitOf(cs: seq<ContainerConfig>, init: bool, ks: seq<InitContainer>, i: nat) returns (j: nat)
    requires AreInits(cs, init, ks) && i < |cs| && NeedsInit(cs[i], InitEnabled(init, i))
    ensures j < |ks| && IsInitContainer(cs[i], ks[j])
  {
    var n := |cs| - 1;
    if i == n {
      j := |ks| - 1;
    } else if NeedsInit(cs[n], InitEnabled(init, n)) {
      j := InitOf(cs[..n], init, ks[..|ks| - 1], i);
    } else {
      j := InitOf(cs[..n], init, ks, i);
    }
  }

  lemma {:induction false} DeclaredIn(configs: seq<ContainerConfig>, i: nat, v: PodVolume)
    requires i < |configs| && v in PodVolumes(configs[i].name, |configs[i].volumes|, |configs[i].files|)
    ensures v in AllVolumes(configs)
  {
    if i < |configs| - 1 { DeclaredIn(configs[..|configs| - 1], i, v); }
  }

  lemma {:induction false} DeclaredBy(configs: seq<ContainerConfig>, v: PodVolume) returns (i: nat)
    requires v in AllVolumes(configs)
    ensures i < |configs| && v in PodVolumes(configs[i].name, |configs[i].volumes|, |configs[i].files|)
  {
    var front, c := configs[..|configs| - 1], configs[|configs| - 1];
    if v in PodVolumes(c.name, |c.volumes|, |c.files|) {
      i := |configs| - 1;
    } else {
      i := DeclaredBy(front, v);
    }
  }

  ghost predicate Declared(spec: Spec, m: Mount) {
    exists v :: v in spec.volumes && v.name == m.volume
  }

  ghost predicate MountedSomewhere(spec: Spec, v: PodVolume) {
    || (exists i, m :: 0 <= i < |spec.containers| && m in spec.containers[i].mounts && m.volume == v.name)
    || (exists i, m :: 0 <= i < |spec.initContainers| && m in spec.initContainers[i].mounts && m.volume == v.name)
  }

  lemma OwnMountsDeclared(c: ContainerConfig, dirs: seq<Path>, m: Mount)
    requires Enumerates(dirs, ParentDirs(c.files))
    requires m in ContainerMounts(c.name, c.volumes, c.files, dirs) ||
             (NeedsInit(c, true) && m in InitMounts(c.name, c.volumes, c.files, dirs))
    ensures exists v :: v in PodVolumes(c.name, |c.volumes|, |c.files|) && v.name == m.volume
  {
    var vs := PodVolumes(c.name, |c.volumes|, |c.files|);
    assert m.volume == c.name || (m.volume == c.name + CONFIG_SUFFIX && c.files != []);
    if c.files != [] { assert vs[|vs| - 1].name == c.name + CONFIG_SUFFIX; }
    assert c.volumes != [] || c.files != [];
    assert vs[0].name == c.name;
  }

  /** Every mount of every container and init container names a volume of the same pod. */
  lemma MountsAreDeclared(pod: PodConfig, init: bool, spec: Spec)
    requires IsSpec(pod, init, spec)
    ensures forall i, m | 0 <= i < |spec.containers| && m in spec.containers[i].mounts :: Declared(spec, m)
    ensures forall i, m | 0 <= i < |spec.initContainers| && m in spec.initContainers[i].mounts :: Declared(spec, m)
  {
    var cs := Configs(pod);
    forall i, m | 0 <= i < |spec.containers| && m in spec.containers[i].mounts ensures Declared(spec, m) {
      assert IsContainer(cs[i], spec.containers[i]);
      var dirs :| Enumerates(dirs, ParentDirs(cs[i].files))
          && spec.containers[i].mounts == ContainerMounts(cs[i].name, cs[i].volumes, cs[i].files, dirs);
      OwnMountsDeclared(cs[i], dirs, m);
      var v :| v in PodVolumes(cs[i].name, |cs[i].volumes|, |cs[i].files|) && v.name == m.volume;
      DeclaredIn(cs, i, v);
    }
    forall j, m | 0 <= j < |spec.initContainers| && m in spec.initContainers[j].mounts ensures Declared(spec, m) {
      var k := spec.initContainers[j];
      var i := OriginOf(cs, init, spec.initContainers, j);
      var dirs :| Enumerates(dirs, ParentDirs(cs[i].files))
          && k.mounts == InitMounts(cs[i].name, cs[i].volumes, cs[i].files, dirs);
      OwnMountsDeclared(cs[i], dirs, m);
      var v :| v in PodVolumes(cs[i].name, |cs[i].volumes|, |cs[i].files|) && v.name == m.volume;
      DeclaredIn(cs, i, v);
    }
  }

  lemma StorageMounted(c: ContainerConfig, k: Container)
    requires IsContainer(c, k) && Declares(c)
    ensures k.mounts != [] && k.mounts[0].volume == c.name
  {
    var dirs :| Enumerates(dirs, ParentDirs(c.files)) && k.mounts == ContainerMounts(c.name, c.volumes, c.files, dirs);
    if c.volumes == [] {
      assert Parent(c.files[0].dest) in ParentDirs(c.files);
      assert dirs != [];
    }
  }

  lemma ConfigMounted(c: ContainerConfig, k: InitContainer)
    requires IsInitContainer(c, k) && c.files != []
    ensures k.mounts != [] && k.mounts[|k.mounts| - 1].volume == c.name + CONFIG_SUFFIX
  {
    var cm := ConfigMounts(c.name, c.files);
    assert cm[|cm| - 1].volume == c.name + CONFIG_SUFFIX;
  }

  /** With the init container enabled, no volume is declared in vain. */
  lemma VolumesAreMounted(pod: PodConfig, spec: Spec)
    requires IsSpec(pod, true, spec)
    ensures forall v | v in spec.volumes :: MountedSomewhere(spec, v)
  {
    var cs := Configs(pod);
    forall v | v in spec.volumes ensures MountedSomewhere(spec, v) {
      var i := DeclaredBy(cs, v);
      var c := cs[i];
      if v.name == c.name {
        StorageMounted(c, spec.containers[i]);
        assert spec.containers[i].mounts[0] in spec.containers[i].mounts;
      } else {
        assert NeedsInit(c, InitEnabled(true, i));
        var j := InitOf(cs, true, spec.initContainers, i);
        ConfigMounted(c, spec.initContainers[j]);
        var ms := spec.initContainers[j].mounts;
        assert ms[|ms| - 1] in ms;
      }
    }
  }

  predicate DistinctNames(vs: seq<PodVolume>) {
    forall i, j :: 0 <= i < j < |vs| ==> vs[i].name != vs[j].name
  }

  predicate Declares(c: ContainerConfig) { c.volumes != [] || c.files != [] }

  /** Two configurations whose declared volumes share a name. */
  predicate Clash(a: ContainerConfig, b: ContainerConfig) {
    && Declares(a) && Declares(b)
    && (a.name == b.name || (b.files != [] && a.name == b.name + CONFIG_SUFFIX) || (a.files != []
        && b.name == a.name + CONFIG_SUFFIX))
  }

  function VolumesOf(c: ContainerConfig): seq<PodVolume> { PodVolumes(c.name, |c.volumes|, |c.files|) }

  lemma ClashShares(a: ContainerConfig, b: ContainerConfig) returns (v: PodVolume, w: PodVolume)
    requires Clash(a, b)
    ensures v in VolumesOf(a) && w in VolumesOf(b) && v.name == w.name
  {
    PodVolumesAre(a);
    PodVolumesAre(b);
    v, w := VolumesOf(a)[0], VolumesOf(b)[0];
    if a.name == b.name {
    } else if b.files != [] && a.name == b.name + CONFIG_SUFFIX {
      w := VolumesOf(b)[1];
    } else {
      v := VolumesOf(a)[1];
    }
  }

  lemma SharedClashes(a: ContainerConfig, b: ContainerConfig, v: PodVolume, w: PodVolume)
    requires v in VolumesOf(a) && w in VolumesOf(b) && v.name == w.name
    ensures Clash(a, b)
  {
    assert v.name == a.name || (a.files != [] && v.name == a.name + CONFIG_SUFFIX);
    assert w.name == b.name || (b.files != [] && w.name == b.name + CONFIG_SUFFIX);
    if v.name == a.name + CONFIG_SUFFIX && w.name == b.name + CONFIG_SUFFIX {
      assert a.name == v.name[..|v.name| - |CONFIG_SUFFIX|] == b.name;
    }
  }

  ghost predicate Shared(vs: seq<PodVolume>, ws: seq<PodVolume>) {
    exists i, j :: 0 <= i < |vs| && 0 <= j < |ws| && vs[i].name == ws[j].name
  }

  lemma {:induction false} SharedClashSome(front: seq<ContainerConfig>, c: ContainerConfig)
    requires Shared(AllVolumes(front), VolumesOf(c))
    ensures exists i :: 0 <= i < |front| && Clash(front[i], c)
  {
    var vs, ws := AllVolumes(front), VolumesOf(c);
    var k, l :| 0 <= k < |vs| && 0 <= l < |ws| && vs[k].name == ws[l].name;
    var i := DeclaredBy(front, vs[k]);
    SharedClashes(front[i], c, vs[k], ws[l]);
  }

  lemma ClashSharedSome(front: seq<ContainerConfig>, c: ContainerConfig, i: nat)
    requires i < |front| && Clash(front[i], c)
    ensures Shared(AllVolumes(front), VolumesOf(c))
  {
    var v, w := ClashShares(front[i], c);
    DeclaredIn(front, i, v);
    var k :| 0 <= k < |AllVolumes(front)| && AllVolumes(front)[k] == v;
    var l :| 0 <= l < |VolumesOf(c)| && VolumesOf(c)[l] == w;
  }

  /** One more configuration shares a name with those before it exactly when it clashes with one of them. */
  lemma SharedIsClash(front: seq<ContainerConfig>, c: ContainerConfig)
    ensures Shared(AllVolumes(front), VolumesOf(c)) <==> exists i :: 0 <= i < |front| && Clash(front[i], c)
  {
    if Shared(AllVolumes(front), VolumesOf(c)) { SharedClashSome(front, c); }
    if i :| 0 <= i < |front| && Clash(front[i], c) { ClashSharedSome(front, c, i); }
  }

  lemma OwnNamesDistinct(c: ContainerConfig)
    ensures DistinctNames(VolumesOf(c))
  {
    assert |c.name| != |c.name + CONFIG_SUFFIX|;
  }

  lemma AppendDistinct(a: seq<PodVolume>, b: seq<PodVolume>)
    requires DistinctNames(b)
    ensures DistinctNames(a + b) <==> DistinctNames(a) && !Shared(a, b)
  {
    var s := a + b;
    if DistinctNames(s) {
      forall i, j | 0 <= i < j < |a| ensures a[i].name != a[j].name { assert s[i] == a[i] && s[j] == a[j]; }
      forall i, j | 0 <= i < |a| && 0 <= j < |b| ensures a[i].name != b[j].name {
        assert s[i] == a[i] && s[|a| + j] == b[j];
      }
    }
  }

  lemma NoClashStep(configs: seq<ContainerConfig>, n: nat)
    requires n + 1 == |configs|
    ensures (forall i, j | 0 <= i < j < |configs| :: !Clash(configs[i], configs[j])) <==>
            (forall i, j | 0 <= i < j < n :: !Clash(configs[..n][i], configs[..n][j])) &&
            !exists i :: 0 <= i < n && Clash(configs[..n][i], configs[n])
  {
    var front := configs[..n];
    assert forall i | 0 <= i < n :: configs[i] == front[i];
  }

  /** Volume names are pairwise distinct exactly when no two configurations clash. */
  lemma {:induction false} VolumeNamesDistinct(configs: seq<ContainerConfig>)
    ensures DistinctNames(AllVolumes(configs)) <==>
            forall i, j | 0 <= i < j < |configs| :: !Clash(configs[i], configs[j])
  {
    if configs != [] {
      var n := |configs| - 1;
      var front, c := configs[..n], configs[n];
      VolumeNamesDistinct(front);
      OwnNamesDistinct(c);
      AppendDistinct(AllVolumes(front), VolumesOf(c));
      SharedIsClash(front, c);
      NoClashStep(configs, n);
    }
  }

  // ---------------------------------------------------------------- where mounts lead

  /** The one volume the mount names is backed by the given source. */
  ghost predicate Behind(spec: Spec, m: Mount, source: VolumeSource) {
    Declared(spec, m) && forall v | v in spec.volumes && v.name == m.volume :: v.source == source
  }

  /** What a configuration declares: its storage first, a claim or a scratch directory, and its files. */
  lemma PodVolumesAre(c: ContainerConfig)
    requires Declares(c)
    ensures var vs := PodVolumes(c.name, |c.volumes|, |c.files|);
            && vs[0] == PodVolume(c.name, if c.volumes != [] then Claim(c.name) else EmptyDir)
            && (c.files != [] ==> |vs| == 2 && vs[1] == PodVolume(c.name + CONFIG_SUFFIX, ConfigMapRef(c.name)))
  {
  }

  lemma BehindDeclared(pod: PodConfig, spec: Spec, i: nat, m: Mount, v: PodVolume)
    requires i < |Configs(pod)| && spec.volumes == AllVolumes(Configs(pod)) && DistinctNames(spec.volumes)
    requires v in PodVolumes(Configs(pod)[i].name, |Configs(pod)[i].volumes|, |Configs(pod)[i].files|)
            && v.name == m.volume
    ensures Behind(spec, m, v.source)
  {
    DeclaredIn(Configs(pod), i, v);
  }

  /** Every mount of a container is of its storage: the claim of its own name if the configuration has
      volumes, a scratch directory otherwise. */
  lemma ContainerMountsLead(pod: PodConfig, init: bool, spec: Spec, i: nat, m: Mount)
    requires IsSpec(pod, init, spec) && DistinctNames(spec.volumes)
    requires i < |spec.containers| && m in spec.containers[i].mounts
    ensures var c := Configs(pod)[i]; Behind(spec, m, if c.volumes != [] then Claim(c.name) else EmptyDir)
  {
    var c := Configs(pod)[i];
    assert IsContainer(c, spec.containers[i]);
    var dirs :| Enumerates(dirs, ParentDirs(c.files))
        && spec.containers[i].mounts == ContainerMounts(c.name, c.volumes, c.files, dirs);
    PodVolumesAre(c);
    BehindDeclared(pod, spec, i, m, PodVolumes(c.name, |c.volumes|, |c.files|)[0]);
  }

  /** The mount shows the storage below /knuu. */
  ghost predicate ShowsStorage(spec: Spec, c: ContainerConfig, m: Mount) {
    KNUU <= m.mountPath && Behind(spec, m, if c.volumes != [] then Claim(c.name) else EmptyDir)
  }

  /** The mount shows, where file n goes, the entry with the file's index of the ConfigMap named after c. */
  ghost predicate ShowsFile(spec: Spec, c: ContainerConfig, n: nat, m: Mount)
    requires n < |c.files|
  {
    m.mountPath == c.files[n].dest && m.subPath == [Decimal(n)] && Behind(spec, m, ConfigMapRef(c.name))
  }

  ghost predicate FileShown(spec: Spec, c: ContainerConfig, k: InitContainer, n: nat)
    requires n < |c.files|
  {
    exists m :: m in k.mounts && ShowsFile(spec, c, n, m)
  }

  /** An init container mounts the storage below /knuu and all files of its configuration, and
      nothing else. */
  ghost predicate InitMountsLead(spec: Spec, c: ContainerConfig, k: InitContainer) {
    && (forall m | m in k.mounts ::
          ShowsStorage(spec, c, m) || exists n :: 0 <= n < |c.files| && ShowsFile(spec, c, n, m))
    && forall n | 0 <= n < |c.files| :: FileShown(spec, c, k, n)
  }

  lemma StorageMountsLead(pod: PodConfig, spec: Spec, i: nat, dirs: seq<Path>, m: Mount)
    requires i < |Configs(pod)| && spec.volumes == AllVolumes(Configs(pod)) && DistinctNames(spec.volumes)
    requires Declares(Configs(pod)[i])
    requires m in (if Configs(pod)[i].volumes == [] then DirMounts(Configs(pod)[i].name, KNUU, dirs)
                   else [Mount(Configs(pod)[i].name, KNUU, [])])
    ensures ShowsStorage(spec, Configs(pod)[i], m)
  {
    var c := Configs(pod)[i];
    PodVolumesAre(c);
    BehindDeclared(pod, spec, i, m, PodVolumes(c.name, |c.volumes|, |c.files|)[0]);
  }

  lemma FileMountsLead(pod: PodConfig, spec: Spec, i: nat, n: nat)
    requires i < |Configs(pod)| && spec.volumes == AllVolumes(Configs(pod)) && DistinctNames(spec.volumes)
    requires n < |Configs(pod)[i].files|
    ensures var c := Configs(pod)[i]; ShowsFile(spec, c, n, ConfigMounts(c.name, c.files)[n])
  {
    var c := Configs(pod)[i];
    PodVolumesAre(c);
    BehindDeclared(pod, spec, i, ConfigMounts(c.name, c.files)[n], PodVolumes(c.name, |c.volumes|, |c.files|)[1]);
  }

  lemma ThisInitMountsLead(pod: PodConfig, spec: Spec, i: nat, k: InitContainer)
    requires i < |Configs(pod)| && spec.volumes == AllVolumes(Configs(pod)) && DistinctNames(spec.volumes)
    requires Declares(Configs(pod)[i]) && IsInitContainer(Configs(pod)[i], k)
    ensures InitMountsLead(spec, Configs(pod)[i], k)
  {
    var c := Configs(pod)[i];
    var dirs :| Enumerates(dirs, ParentDirs(c.files)) && k.mounts == InitMounts(c.name, c.volumes, c.files, dirs);
    var cm := ConfigMounts(c.name, c.files);
    forall m | m in k.mounts
      ensures ShowsStorage(spec, c, m) || exists n :: 0 <= n < |c.files| && ShowsFile(spec, c, n, m)
    {
      if m in cm {
        var n :| 0 <= n < |c.files| && cm[n] == m;
        FileMountsLead(pod, spec, i, n);
      } else {
        StorageMountsLead(pod, spec, i, dirs, m);
      }
    }
    forall n | 0 <= n < |c.files| ensures FileShown(spec, c, k, n) {
      FileMountsLead(pod, spec, i, n);
      assert cm[n] in k.mounts;
    }
  }

  /** Where all mounts of a specification lead, as long as no two configurations clash: a container
      mounts the claim named after it if it has volumes and a scratch directory otherwise; its init
      container mounts the same below /knuu and each of its files from the ConfigMap named after it. */
  lemma MountsLeadTo(pod: PodConfig, init: bool, spec: Spec)
    requires IsSpec(pod, init, spec)
    requires forall i, j | 0 <= i < j < |Configs(pod)| :: !Clash(Configs(pod)[i], Configs(pod)[j])
    ensures forall i, m | 0 <= i < |spec.containers| && m in spec.containers[i].mounts ::
              var c := Configs(pod)[i]; Behind(spec, m, if c.volumes != [] then Claim(c.name) else EmptyDir)
    ensures forall k | k in spec.initContainers ::
              && k.image == "nicolaka/netshoot"
              && exists i ::
                   0 <= i < |Configs(pod)| && k.name == Configs(pod)[i].name + "-init"
                   && InitMountsLead(spec, Configs(pod)[i], k)
  {
    var cs := Configs(pod);
    VolumeNamesDistinct(cs);
    forall i, m | 0 <= i < |spec.containers| && m in spec.containers[i].mounts
      ensures Behind(spec, m, if cs[i].volumes != [] then Claim(cs[i].name) else EmptyDir)
    {
      ContainerMountsLead(pod, init, spec, i, m);
    }
    forall k | k in spec.initContainers
      ensures k.image == "nicolaka/netshoot"
      ensures exists i :: 0 <= i < |cs| && k.name == cs[i].name + "-init" && InitMountsLead(spec, cs[i], k)
    {
      var j :| 0 <= j < |spec.initContainers| && spec.initContainers[j] == k;
      var i := OriginOf(cs, init, spec.initContainers, j);
      ThisInitMountsLead(pod, spec, i, k);
    }
  }
}
