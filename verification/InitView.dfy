/** What an init container sees when it starts: its image, the storage under /knuu, and each
    requested file at its destination. */
module InitView {

  import opened Wrappers
  import opened Text
  import opened FileSystem
  import opened PodSpec
  import opened Routing

  /** The mode of the ConfigMap volume's files (DefaultMode 0600). */
  const CONFIG_MODE := "600"

  function ConfigTree(data: map<string, string>): Tree {
    map k | k in data :: [k] := Regular(data[k], ROOT_OWNER, CONFIG_MODE)
  }

  /** Everything the run of an init container depends on: the container's volumes and files,
      the ConfigMap's entries, the init image, what the storage held before, and the order in
      which the mounted directories were listed. */
  datatype Pod = Pod(
    name: string, volumes: seq<Volume>, files: seq<File>, data: map<string, string>,
    image: Tree, storage: Tree, dirs: seq<Path>)
  {
    function Mounts(): seq<Mount> { InitMounts(name, volumes, files, dirs) }

    function Volumes(): map<string, Tree> {
      map[name := storage, name + CONFIG_SUFFIX := ConfigTree(data)]
    }

    ghost function Initial(): Disk { Start(Disk(image, Volumes()), Mounts()) }

    function Content(i: nat): string
      requires i < |files| && Decimal(i) in data
    {
      data[Decimal(i)]
    }

    ghost predicate HasData() {
      FilesOk(files) && forall i | 0 <= i < |files| :: Decimal(i) in data
    }

    ghost predicate Ok() {
      && HasData()
      && Enumerates(dirs, ParentDirs(files))
      && (forall v | v in volumes :: v.path != [] && !InKnuu(v.path))
      && (forall v, f | v in volumes && f in files :: !(f.dest <= v.path))
      && CanMount(image, Mounts())
      && Fits(storage, files)
      && IsTree(image)
      && Agree(image, storage)
    }
  }

  /** The storage's root is no file; it has no directory where a file goes, and no file where a directory goes. */
  ghost predicate Fits(storage: Tree, files: seq<File>) {
    && ([] in storage ==> storage[[]] == Dir)
    && forall f, q | f in files && q in storage ::
      (q == f.dest ==> storage[q].Regular?) && (q < f.dest ==> storage[q] == Dir)
  }

  ghost predicate IsTree(t: Tree) {
    forall p, q | q in t && p != [] && p < q :: p in t && t[p] == Dir
  }

  /** What is a directory in one tree is not a file in the other. */
  ghost predicate Agree(a: Tree, b: Tree) {
    forall q | q in a && q in b :: a[q].Dir? <==> b[q].Dir?
  }

  lemma InitialLook(pod: Pod, p: Path)
    requires FilesOk(pod.files) && Enumerates(pod.dirs, ParentDirs(pod.files))
    ensures Look(pod.Initial(), pod.Mounts(), p) ==
            match InitRoute(pod.name, pod.volumes, pod.files, p)
            case InImage(q) => if q in pod.image then Some(pod.image[q]) else if q in MountDirs(pod.Mounts()) then
                Some(Dir) else None
            case InVolume(v, q) =>
              if v !in pod.Volumes() then None
              else if q in pod.Volumes()[v] then Some(pod.Volumes()[v][q])
              else if q in SubDirs(pod.Mounts(), v) then Some(Dir) else None
  {
    InitRouteIs(pod.name, pod.volumes, pod.files, pod.dirs, p);
  }

  lemma SourceSeen(pod: Pod, i: nat)
    requires pod.Ok() && i < |pod.files|
    ensures Look(pod.Initial(), pod.Mounts(), pod.files[i].dest) ==
            Some(Regular(pod.Content(i), ROOT_OWNER, CONFIG_MODE))
  {
    InitialLook(pod, pod.files[i].dest);
    DestRoute(pod.name, pod.volumes, pod.files, i);
    assert pod.name != pod.name + CONFIG_SUFFIX by { assert |pod.name| != |pod.name + CONFIG_SUFFIX|; }
    assert pod.Volumes()[pod.name + CONFIG_SUFFIX] == ConfigTree(pod.data);
    assert [Decimal(i)] in ConfigTree(pod.data);
  }

  /** What the storage, and not the image, decides. */
  lemma StorageSeen(pod: Pod, p: Path)
    requires pod.Ok() && (pod.volumes != [] || Covered(pod.files, p))
    ensures Look(pod.Initial(), pod.Mounts(), KNUU + p) ==
            if p in pod.storage then Some(pod.storage[p])
            else if p in SubDirs(pod.Mounts(), pod.name) then Some(Dir) else None
  {
    assert (KNUU + p)[1..] == p;
    InitialLook(pod, KNUU + p);
    assert pod.name != pod.name + CONFIG_SUFFIX by { assert |pod.name| != |pod.name + CONFIG_SUFFIX|; }
    assert pod.Volumes()[pod.name] == pod.storage;
  }

  lemma SubDirsOfStorage(pod: Pod, q: Path)
    requires pod.Ok() && q in SubDirs(pod.Mounts(), pod.name)
    ensures if pod.volumes != [] then q == [] else exists j :: 0 <= j < |pod.files| && q <= Parent(pod.files[j].dest)
  {
    assert pod.name != pod.name + CONFIG_SUFFIX by { assert |pod.name| != |pod.name + CONFIG_SUFFIX|; }
    var m, k :| m in pod.Mounts() && m.volume == pod.name && 0 <= k <= |m.subPath| && q == m.subPath[..k];
    ConfigMount(pod.name, pod.files, m);
    StorageMount(pod.name, pod.volumes, pod.files, pod.dirs, m);
    assert m in StorageMounts(pod.name, pod.volumes, pod.dirs);
    if pod.volumes == [] {
      var f :| f in pod.files && m.subPath == Parent(f.dest);
      var j :| 0 <= j < |pod.files| && pod.files[j] == f;
    }
  }

  lemma NothingAbove(files: seq<File>, i: nat, p: Path, j: nat)
    requires FilesOk(files) && i < |files| && j < |files| && p < files[i].dest
    ensures !(files[j].dest <= p)
  {
    var a, b := files[i].dest, files[j].dest;
    assert b <= p ==> b <= a;
    assert a <= p ==> |a| <= |p|;
  }

  lemma DestNotSubDir(pod: Pod, i: nat)
    requires pod.Ok() && i < |pod.files|
    ensures pod.files[i].dest !in SubDirs(pod.Mounts(), pod.name)
  {
    var dest := pod.files[i].dest;
    assert pod.files[i] in pod.files && |dest| >= 2;
    forall j | 0 <= j < |pod.files| ensures !(dest <= Parent(pod.files[j].dest)) {
      assert pod.files[j] in pod.files;
      NothingAbove(pod.files, j, Parent(pod.files[j].dest), i);
    }
    if dest in SubDirs(pod.Mounts(), pod.name) {
      SubDirsOfStorage(pod, dest);
    }
  }

  lemma DestCovered(files: seq<File>, i: nat)
    requires i < |files|
    ensures Covered(files, files[i].dest)
  {
    assert files[i] in files;
    assert Parent(files[i].dest) in ParentDirs(files) && Parent(files[i].dest) <= files[i].dest;
  }

  lemma TargetSeen(pod: Pod, i: nat)
    requires pod.Ok() && i < |pod.files|
    ensures var dest := pod.files[i].dest;
            Look(pod.Initial(), pod.Mounts(), KNUU + dest) == if dest in pod.storage then Some(pod.storage[dest])
                else None
  {
    DestCovered(pod.files, i);
    StorageSeen(pod, pod.files[i].dest);
    DestNotSubDir(pod, i);
  }

  lemma TargetNotDir(pod: Pod, i: nat)
    requires pod.Ok() && i < |pod.files|
    ensures !IsDir(pod.Initial(), pod.Mounts(), KNUU + pod.files[i].dest)
  {
    TargetSeen(pod, i);
    assert pod.files[i] in pod.files;
  }

  lemma MountDirOfStorage(pod: Pod, i: nat, p: Path)
    requires pod.Ok() && i < |pod.files| && pod.volumes == [] && p < Parent(pod.files[i].dest)
    ensures KNUU + p in MountDirs(pod.Mounts())
  {
    var d := Parent(pod.files[i].dest);
    assert pod.files[i] in pod.files;
    var m := Mount(pod.name, KNUU + d, d);
    StorageMount(pod.name, pod.volumes, pod.files, pod.dirs, m);
    assert m in pod.Mounts();
    assert m.mountPath[..|KNUU + p|] == KNUU + p;
  }

  lemma MountDirOfDest(pod: Pod, i: nat, p: Path)
    requires i < |pod.files| && p < pod.files[i].dest
    ensures p in MountDirs(pod.Mounts())
  {
    var m := Mount(pod.name + CONFIG_SUFFIX, pod.files[i].dest, [Decimal(i)]);
    ConfigMount(pod.name, pod.files, m);
    assert m in pod.Mounts();
    assert m.mountPath[..|p|] == p;
  }

  /** Above the place of a file in the storage there is no file in the way. */
  lemma TargetPathClear(pod: Pod, i: nat, p: Path)
    requires pod.Ok() && i < |pod.files| && p < pod.files[i].dest
    ensures !IsRegular(pod.Initial(), pod.Mounts(), KNUU + p)
  {
    assert pod.files[i] in pod.files;
    if pod.volumes != [] || Covered(pod.files, p) {
      StorageSeen(pod, p);
    } else {
      var d := Parent(pod.files[i].dest);
      assert p <= d;
      assert d in ParentDirs(pod.files);
      assert p != d;
      MountDirOfStorage(pod, i, p);
      assert (KNUU + p)[1..] == p;
      InitialLook(pod, KNUU + p);
    }
  }

  /** The directories above a mounted file are visible as directories. */
  lemma DirsAboveDest(pod: Pod, i: nat, p: Path)
    requires pod.Ok() && i < |pod.files| && p != [] && p < pod.files[i].dest
    ensures IsDir(pod.Initial(), pod.Mounts(), p)
  {
    assert pod.files[i] in pod.files && p[0] == pod.files[i].dest[0];
    forall j | 0 <= j < |pod.files| ensures !(pod.files[j].dest <= p) {
      NothingAbove(pod.files, i, p, j);
    }
    MountDirOfDest(pod, i, p);
    InitialLook(pod, p);
  }

  lemma SubDirsOfConfig(pod: Pod, q: Path)
    requires Enumerates(pod.dirs, ParentDirs(pod.files)) && q in SubDirs(pod.Mounts(), pod.name + CONFIG_SUFFIX)
    ensures |q| <= 1
  {
    assert |pod.name| != |pod.name + CONFIG_SUFFIX|;
    var m, k :| m in pod.Mounts() && m.volume == pod.name + CONFIG_SUFFIX && 0 <= k <= |m.subPath|
        && q == m.subPath[..k];
    StorageMount(pod.name, pod.volumes, pod.files, pod.dirs, m);
    ConfigMount(pod.name, pod.files, m);
    assert m in ConfigMounts(pod.name, pod.files);
  }

  /** At a destination there is the file's source, below it nothing. */
  lemma BelowDest(pod: Pod, i: nat, q: Path)
    requires pod.Ok() && i < |pod.files| && pod.files[i].dest <= q && q != pod.files[i].dest
    ensures Look(pod.Initial(), pod.Mounts(), q) == None
  {
    assert pod.files[i] in pod.files && q[0] == pod.files[i].dest[0];
    var rest := q[|pod.files[i].dest|..];
    forall j | 0 <= j < |pod.files| && pod.files[j].dest <= q ensures j == i {
      PrefixesCompare(pod.files[i].dest, pod.files[j].dest, q);
    }
    InitialLook(pod, q);
    assert |pod.name| != |pod.name + CONFIG_SUFFIX|;
    assert pod.Volumes()[pod.name + CONFIG_SUFFIX] == ConfigTree(pod.data);
    assert |[Decimal(i)] + rest| > 1;
    if [Decimal(i)] + rest in SubDirs(pod.Mounts(), pod.name + CONFIG_SUFFIX) {
      SubDirsOfConfig(pod, [Decimal(i)] + rest);
    }
  }

  ghost predicate AtOrBelowDest(pod: Pod, q: Path) {
    exists i :: 0 <= i < |pod.files| && pod.files[i].dest <= q
  }

  /** The image with the directories made for the mount points. */
  ghost function ImageNode(image: Tree, ms: seq<Mount>, q: Path): Option<Node> {
    if q in image then Some(image[q]) else if q in MountDirs(ms) then Some(Dir) else None
  }

  lemma ImageDirAbove(image: Tree, ms: seq<Mount>, r: Path, q: Path)
    requires IsTree(image) && CanMount(image, ms) && ImageNode(image, ms, q) == Some(Dir) && r <= q && r != []
    ensures ImageNode(image, ms, r) == Some(Dir)
  {
    if q !in image {
      MountDirsClosed(ms, r, q);
    } else if r != q {
      assert r < q;
    }
  }

  /** Elsewhere outside /knuu there is the image. */
  lemma ImageSeen(pod: Pod, q: Path)
    requires pod.Ok() && !InKnuu(q) && !AtOrBelowDest(pod, q)
    ensures Look(pod.Initial(), pod.Mounts(), q) == ImageNode(pod.image, pod.Mounts(), q)
  {
    InitialLook(pod, q);
  }

  lemma DirIsImage(pod: Pod, q: Path)
    requires pod.Ok() && !InKnuu(q) && IsDir(pod.Initial(), pod.Mounts(), q)
    ensures !AtOrBelowDest(pod, q)
  {
    forall i | 0 <= i < |pod.files| ensures !(pod.files[i].dest <= q) {
      if pod.files[i].dest <= q {
        SourceSeen(pod, i);
        if q != pod.files[i].dest { BelowDest(pod, i, q); }
      }
    }
  }

  lemma MountDirsClosed(ms: seq<Mount>, r: Path, q: Path)
    requires q in MountDirs(ms) && r <= q
    ensures r in MountDirs(ms)
  {
    var m, k :| m in ms && 0 <= k < |m.mountPath| && q == m.mountPath[..k];
    assert r == m.mountPath[..|r|];
  }

  lemma NotBelowDest(pod: Pod, r: Path, q: Path)
    requires r <= q && !AtOrBelowDest(pod, q)
    ensures !AtOrBelowDest(pod, r)
  {
    forall i | 0 <= i < |pod.files| ensures !(pod.files[i].dest <= r) {
      var dest := pod.files[i].dest;
      assert dest <= r ==> dest <= q;
    }
  }

  /** A directory outside /knuu has directories above it. */
  lemma DirAboveDir(pod: Pod, r: Path, q: Path)
    requires pod.Ok() && !InKnuu(q) && IsDir(pod.Initial(), pod.Mounts(), q) && r <= q && r != []
    ensures IsDir(pod.Initial(), pod.Mounts(), r)
  {
    DirIsImage(pod, q);
    assert r[0] == q[0];
    NotBelowDest(pod, r, q);
    ImageSeen(pod, q);
    ImageSeen(pod, r);
    ImageDirAbove(pod.image, pod.Mounts(), r, q);
  }

  /** Directories the runtime makes for mount points are directories in the storage too. */
  lemma MountDirFits(pod: Pod, q: Path)
    requires pod.Ok() && q in MountDirs(pod.Mounts()) && q != [] && !InKnuu(q) && q in pod.storage
    ensures pod.storage[q] == Dir
  {
    var m, k :| m in pod.Mounts() && 0 <= k < |m.mountPath| && q == m.mountPath[..k];
    StorageMount(pod.name, pod.volumes, pod.files, pod.dirs, m);
    ConfigMount(pod.name, pod.files, m);
    assert q[0] == m.mountPath[0];
    var i :| 0 <= i < |pod.files| && m == Mount(pod.name + CONFIG_SUFFIX, pod.files[i].dest, [Decimal(i)]);
    assert pod.files[i] in pod.files && q < pod.files[i].dest;
  }

  /** The same kind of node, wherever there is one in both places. */
  predicate SameKind(a: Option<Node>, b: Option<Node>) {
    a.Some? && b.Some? ==> (a.value.Dir? <==> b.value.Dir?)
  }

  lemma ImageAgrees(pod: Pod, q: Path)
    requires pod.Ok() && q != [] && !InKnuu(q) && q in pod.storage
    ensures SameKind(ImageNode(pod.image, pod.Mounts(), q), Some(pod.storage[q]))
  {
    if q !in pod.image && q in MountDirs(pod.Mounts()) { MountDirFits(pod, q); }
  }

  /** With a volume, all of the storage is under /knuu, and its root is the only directory
      the kubelet may have to create. */
  lemma VolumeStorage(pod: Pod, q: Path)
    requires pod.Ok() && pod.volumes != [] && q != []
    ensures Look(pod.Initial(), pod.Mounts(), KNUU + q) == if q in pod.storage then Some(pod.storage[q]) else None
  {
    StorageSeen(pod, q);
    if q in SubDirs(pod.Mounts(), pod.name) { SubDirsOfStorage(pod, q); }
  }

  lemma StorageAgrees(pod: Pod, q: Path)
    requires pod.Ok() && pod.volumes != [] && q != [] && !InKnuu(q)
    ensures SameKind(Look(pod.Initial(), pod.Mounts(), q), Look(pod.Initial(), pod.Mounts(), KNUU + q))
  {
    if i :| 0 <= i < |pod.files| && pod.files[i].dest <= q {
      if q == pod.files[i].dest {
        SourceSeen(pod, i);
        TargetNotDir(pod, i);
      } else {
        BelowDest(pod, i, q);
      }
    } else {
      VolumeStorage(pod, q);
      ImageSeen(pod, q);
      if q in pod.storage { ImageAgrees(pod, q); }
    }
  }
}
