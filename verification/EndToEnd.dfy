/** From a start to the file system of a container: what the started pod's containers read is what
    the files of the instance were given as. */
module EndToEnd {

  import opened Wrappers
  import opened Text
  import FS = FileSystem
  import opened PodSpec
  import opened Cluster
  import opened Lifecycle
  import opened Runs
  import opened InitView
  import opened VolumePhase
  import opened Delivery
  import opened Contents

  /** The node has the content of the file's source, and mode and owner as asked for, except that the
      last volume above the file imposes its own owner. */
  ghost predicate AsGiven(n: FS.Node, f: File, volumes: seq<Volume>, disk: map<string, string>) {
    && n.Regular? && f.source in disk && n.content == disk[f.source]
    && (f.permission != "" ==> n.mode == f.permission)
    && (volumes == [] && f.chown != "" ==> n.owner == f.chown)
    && forall j | 0 <= j < |volumes| && LastAbove(volumes, f.dest, j) :: OwnedTwice(n.owner, volumes[j].owner)
  }

  /** The init container of member m, given the ConfigMap of that name. */
  ghost predicate InitPodOf(pod: Pod, b: Api, m: Member) {
    var k := Key(ConfigMap, m.name);
    && pod.name == m.name && pod.volumes == m.volumes && pod.files == m.files
    && k in b.objs && b.objs[k] == Entries(pod.data) && pod.Ok()
  }

  /** The content that a file has in the ConfigMap is that of its source. */
  lemma ContentIs(pod: Pod, b: Api, m: Member, disk: map<string, string>, i: nat)
    requires InitPodOf(pod, b, m) && FilesDeployed(b, m, disk) && i < |m.files|
    ensures m.files[i].source in disk && Decimal(i) in pod.data && pod.data[Decimal(i)] == disk[m.files[i].source]
  {
  }

  lemma DeliveredAsGiven(pod: Pod, disk: map<string, string>, i: nat)
    requires pod.Ok() && i < |pod.files| && pod.files[i].source in disk
    requires pod.data[Decimal(i)] == disk[pod.files[i].source]
    ensures AsGiven(Delivered(pod, i), pod.files[i], pod.volumes, disk)
  {
    DeliveredAsRequested(pod, i);
  }

  lemma Reads(pod: Pod, disk: map<string, string>, image: FS.Tree, dirs: seq<Path>, i: nat)
    requires pod.Ok() && Enumerates(dirs, ParentDirs(pod.files)) && i < |pod.files| && pod.files[i].source in disk
    requires pod.data[Decimal(i)] == disk[pod.files[i].source]
    requires forall v | v in pod.volumes :: VolumeRuns(InitialView(pod), v.path)
    requires pod.volumes == [] || exists v :: v in pod.volumes && v.path <= pod.files[i].dest
    ensures var r := FS.Run(InitScript(pod.volumes, pod.files), pod.Initial(), pod.Mounts());
            && r.Some? && MainLook(pod, r.value, image, dirs, pod.files[i].dest).Some?
            && AsGiven(MainLook(pod, r.value, image, dirs, pod.files[i].dest).value, pod.files[i], pod.volumes, disk)
  {
    FilesDelivered(pod, image, dirs, i);
    DeliveredAsGiven(pod, disk, i);
  }

  lemma MemberFiles(a: Api, b: Api, g: Group, disk: map<string, string>, m: Member)
    requires AllDeployed(a, b, g, disk) && m in g.Members()
    ensures FilesDeployed(b, m, disk)
  {
    if m != g.self {
      var k :| 0 <= k < |g.sidecars| && g.sidecars[k] == m;
      assert ResourcesDeployed(a, b, g.sidecars[k], disk);
    }
  }

  /** A committed instance has been started. Then for every member, every file of it and every order in
      which directories were listed: if no volume stops the init container, the main container reads at
      the file's destination the content of the file's source, unless it has volumes and none of them
      lies above. */
  lemma StartedFilesDelivered(a: Api, g: Group, disk: map<string, string>, m: Member, pod: Pod, image: FS.Tree,
      dirs: seq<Path>, i: nat)
    requires DistinctMembers(g) && g.self.state == StateCommitted && Lifecycle.Start(a, g, disk).err.None?
    requires m in g.Members() && InitPodOf(pod, Lifecycle.Start(a, g, disk).api, m)
    requires Enumerates(dirs, ParentDirs(m.files)) && i < |m.files|
    requires forall v | v in m.volumes :: VolumeRuns(InitialView(pod), v.path)
    requires m.volumes == [] || exists v :: v in m.volumes && v.path <= m.files[i].dest
    ensures var r := FS.Run(InitScript(m.volumes, m.files), pod.Initial(), pod.Mounts());
            && r.Some? && MainLook(pod, r.value, image, dirs, m.files[i].dest).Some?
            && AsGiven(MainLook(pod, r.value, image, dirs, m.files[i].dest).value, m.files[i], m.volumes, disk)
  {
    var b := Lifecycle.Start(a, g, disk).api;
    StartDeploys(a, g, disk);
    MemberFiles(a, b, g, disk, m);
    ContentIs(pod, b, m, disk, i);
    Reads(pod, disk, image, dirs, i);
  }
}
