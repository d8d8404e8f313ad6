/** File delivery: running the generated init script over the generated mounts leaves every
    requested file where the main container reads it. */
module Delivery {

  import opened Wrappers
  import opened Text
  import opened FileSystem
  import opened PodSpec
  import opened Routing
  import Lifecycle
  import opened InitView
  import opened FilePhase
  import opened VolumePhase

  ghost function InitialView(pod: Pod): View { ViewOf(pod.Initial(), pod.Mounts()) }

  lemma StageHolds(pod: Pod)
    requires pod.Ok()
    ensures Stage(pod.Mounts(), pod.files, InitialView(pod))
  {
    InitUnaliased(pod.name, pod.volumes, pod.files, pod.dirs);
    forall i | 0 <= i < |pod.files| ensures !InKnuu(pod.files[i].dest) { assert pod.files[i] in pod.files; }
    var v0 := InitialView(pod);
    forall q | !InKnuu(q) && v0(q) == Some(Dir) ensures DirsAbove(v0, q) {
      forall r | r <= q && r != [] ensures v0(r) == Some(Dir) { DirAboveDir(pod, r, q); }
    }
  }

  /** A volume with a file below it shows an entry. */
  lemma VolumeOfFile(pod: Pod, i: nat, path: Path)
    requires pod.Ok() && i < |pod.files| && path != [] && path < pod.files[i].dest
    ensures ShowsEntry(InitialView(pod), path)
  {
    var v0 := InitialView(pod);
    DirsAboveDest(pod, i, path);
    var child := pod.files[i].dest[..|path| + 1];
    if child == pod.files[i].dest {
      SourceSeen(pod, i);
    } else {
      DirsAboveDest(pod, i, child);
    }
    assert v0(child).Some? && path < child;
  }

  lemma VolumeIsOk(pod: Pod, v: Volume)
    requires pod.Ok() && v in pod.volumes
    ensures VolumeOk(pod.files, InitialView(pod), v)
  {
    forall i | 0 <= i < |pod.files|
      ensures !(pod.files[i].dest <= v.path) && (v.path <= pod.files[i].dest ==> ShowsEntry(InitialView(pod), v.path))
    {
      assert pod.files[i] in pod.files;
      if v.path <= pod.files[i].dest {
        VolumeOfFile(pod, i, v.path);
      }
    }
  }

  lemma UntouchedOutside(files: seq<File>, q: Path)
    requires !InKnuu(q)
    ensures !Touched(files, |files|, q)
  {
    forall i | 0 <= i < |files| ensures q != KNUU + files[i].dest && !OnWay(q, files[i]) {
      assert InKnuu(KNUU + files[i].dest);
      if OnWay(q, files[i]) { OnWayShape(q, files[i]); }
    }
  }

  /** The first half of the script creates directories where directories are visible, and
      files where files are visible. */
  lemma KindAfterFiles(files: seq<File>, fin: seq<Node>, v0: View, v: View, q: Path)
    requires |fin| == |files| && Progress(files, fin, v0, |files|, v) && q != [] && !InKnuu(q)
    requires forall i | 0 <= i < |files| ::
            fin[i].Regular? && v0(files[i].dest).Some?
            && v0(files[i].dest).value.Regular?
    requires forall i | 0 <= i < |files| && q <= Parent(files[i].dest) :: v0(q) == Some(Dir)
    requires SameKind(v0(q), v0(KNUU + q))
    ensures SameKind(v(q), v(KNUU + q))
  {
    assert (KNUU + q)[1..] == q;
    UntouchedOutside(files, q);
    assert v(q) == v0(q);
    if Touched(files, |files|, KNUU + q) {
      var i :| 0 <= i < |files| && (KNUU + q == KNUU + files[i].dest || OnWay(KNUU + q, files[i]));
      assert (KNUU + files[i].dest)[1..] == files[i].dest;
      if OnWay(KNUU + q, files[i]) { OnWayShape(KNUU + q, files[i]); }
    }
  }

  lemma SourcesSeen(pod: Pod, v0: View)
    requires pod.Ok() && v0 == InitialView(pod)
    ensures forall i | 0 <= i < |pod.files| ::
            v0(pod.files[i].dest) ==
            Some(Regular(pod.Content(i), ROOT_OWNER, CONFIG_MODE))
  {
    forall i | 0 <= i < |pod.files| ensures v0(pod.files[i].dest) ==
        Some(Regular(pod.Content(i), ROOT_OWNER, CONFIG_MODE)) {
      SourceSeen(pod, i);
    }
  }

  lemma ParentsSeen(pod: Pod, v0: View, q: Path)
    requires pod.Ok() && v0 == InitialView(pod) && q != []
    ensures forall i | 0 <= i < |pod.files| && q <= Parent(pod.files[i].dest) :: v0(q) == Some(Dir)
  {
    forall i | 0 <= i < |pod.files| && q <= Parent(pod.files[i].dest) ensures v0(q) == Some(Dir) {
      assert pod.files[i] in pod.files && q < pod.files[i].dest;
      DirsAboveDest(pod, i, q);
    }
  }

  lemma SameKindAtFirst(pod: Pod, q: Path)
    requires pod.Ok() && pod.volumes != [] && q != [] && !InKnuu(q)
    ensures SameKind(InitialView(pod)(q), InitialView(pod)(KNUU + q))
  {
    StorageAgrees(pod, q);
  }

  /** What a path outside /knuu shows before the script runs. */
  lemma AtFirst(pod: Pod, v0: View, q: Path)
    requires pod.Ok() && pod.volumes != [] && q != [] && !InKnuu(q) && v0 == InitialView(pod)
    ensures FilesOk(pod.files) && SameKind(v0(q), v0(KNUU + q))
    ensures forall i | 0 <= i < |pod.files| :: v0(pod.files[i].dest).Some? && v0(pod.files[i].dest).value.Regular?
    ensures forall i | 0 <= i < |pod.files| && q <= Parent(pod.files[i].dest) :: v0(q) == Some(Dir)
  {
    SourcesSeen(pod, v0);
    ParentsSeen(pod, v0, q);
    SameKindAtFirst(pod, q);
  }

  lemma SettledAt(pod: Pod, v0: View, fin: seq<Node>, v: View, q: Path)
    requires pod.Ok() && pod.volumes != [] && q != [] && !InKnuu(q)
    requires v0 == InitialView(pod) && |fin| == |pod.files| && forall i | 0 <= i < |fin| :: fin[i].Regular?
    requires Progress(pod.files, fin, v0, |pod.files|, v)
    ensures SameKind(v(q), v(KNUU + q))
  {
    AtFirst(pod, v0, q);
    KindAfterFiles(pod.files, fin, v0, v, q);
  }

  lemma HoldsAfterFiles(pod: Pod, v: View)
    requires pod.Ok() && Progress(pod.files, AllFinished(pod), InitialView(pod), |pod.files|, v)
    ensures Holds(pod.files, AllFinished(pod), v)
  {
    forall i | 0 <= i < |pod.files| ensures v(pod.files[i].dest) ==
        Some(Regular(pod.Content(i), ROOT_OWNER, CONFIG_MODE)) {
      assert pod.files[i] in pod.files;
      UntouchedOutside(pod.files, pod.files[i].dest);
      SourceSeen(pod, i);
    }
  }

  lemma NoClashAfterFiles(pod: Pod, v: View)
    requires pod.Ok() && pod.volumes != [] && Progress(pod.files, AllFinished(pod), InitialView(pod), |pod.files|, v)
    ensures NoClash(v)
  {
    forall q | q != [] && !InKnuu(q) && v(q).Some? ensures Mergeable(v(q), v(KNUU + q)) {
      SettledAt(pod, InitialView(pod), AllFinished(pod), v, q);
    }
  }

  /** After the first half of the script the second half has what it needs. */
  lemma SettledAfterFiles(pod: Pod, d: Disk)
    requires pod.Ok() && pod.volumes != [] && Reached(pod, |pod.files|, d)
    ensures Settled(pod.files, AllFinished(pod), InitialView(pod), ViewOf(d, pod.Mounts()))
  {
    var v := ViewOf(d, pod.Mounts());
    forall q | !InKnuu(q) ensures v(q) == InitialView(pod)(q) { UntouchedOutside(pod.files, q); }
    NoClashAfterFiles(pod, v);
    HoldsAfterFiles(pod, v);
  }

  /** A file as the whole script leaves it. */
  ghost function Delivered(pod: Pod, i: nat): Node
    requires pod.HasData() && i < |pod.files|
  {
    var n := Finished(pod, i);
    Regular(n.content, FinalOwner(pod.volumes, pod.files[i].dest, n.owner), n.mode)
  }

  lemma NoVolumes(pod: Pod, d: Disk)
    requires pod.Ok() && pod.volumes == [] && Reached(pod, |pod.files|, d)
    ensures forall i | 0 <= i < |pod.files| ::
            Look(d, pod.Mounts(), KNUU + pod.files[i].dest) ==
            Some(Delivered(pod, i))
  {
    InPlace(pod, AllFinished(pod), ViewOf(d, pod.Mounts()));
    forall i | 0 <= i < |pod.files| ensures Look(d, pod.Mounts(), KNUU + pod.files[i].dest) == Some(Delivered(pod, i)) {
      assert ViewOf(d, pod.Mounts())(KNUU + pod.files[i].dest) == Some(Delivered(pod, i));
    }
  }

  lemma WithVolumes(pod: Pod, d: Disk) returns (r: Option<Disk>)
    requires pod.Ok() && pod.volumes != [] && Reached(pod, |pod.files|, d)
    ensures Run(VolumeCommands(pod.volumes), d, pod.Mounts()) == r
    ensures r.Some? <==> forall v | v in pod.volumes :: VolumeRuns(InitialView(pod), v.path)
    ensures r.Some? ==> forall i | 0 <= i < |pod.files| ::
              Look(r.value, pod.Mounts(), KNUU + pod.files[i].dest) == Some(Delivered(pod, i))
  {
    var v0, fin := InitialView(pod), AllFinished(pod);
    SettledAfterFiles(pod, d);
    StageHolds(pod);
    forall v | v in pod.volumes ensures VolumeOk(pod.files, v0, v) { VolumeIsOk(pod, v); }
    r := VolumesRun(pod.Mounts(), pod.files, v0, d, fin, pod.volumes);
    AllRunEach(v0, pod.volumes);
    if r.Some? {
      var v, nodes := ViewOf(r.value, pod.Mounts()), FinalNodes(pod.files, fin, pod.volumes);
      forall i | 0 <= i < |pod.files| ensures Look(r.value, pod.Mounts(), KNUU + pod.files[i].dest) ==
          Some(Delivered(pod, i)) {
        assert v(KNUU + pod.files[i].dest) == Some(nodes[i]);
      }
    }
  }

  lemma ScriptParts(volumes: seq<Volume>, files: seq<File>)
    ensures InitScript(volumes, files) == FilesScript(files, |files|) + VolumeCommands(volumes)
  {
    assert files[..|files|] == files;
  }

  /** The first half of the script always runs to its end. */
  lemma FilesThenVolumes(pod: Pod) returns (d: Disk)
    requires pod.Ok() && (pod.files != [] || pod.volumes != [])
    ensures Reached(pod, |pod.files|, d)
    ensures Run(InitScript(pod.volumes, pod.files), pod.Initial(), pod.Mounts()) == Run(VolumeCommands(pod.volumes),
            d, pod.Mounts())
  {
    d := FilesCopied(pod, |pod.files|);
    ScriptParts(pod.volumes, pod.files);
    RunConcat(FilesScript(pod.files, |pod.files|), VolumeCommands(pod.volumes), pod.Initial(), pod.Mounts());
  }

  /** The script runs to its end exactly when no volume's path shows entries that are all
      hidden, and then the storage holds every file. */
  lemma ScriptRuns(pod: Pod) returns (r: Option<Disk>)
    requires pod.Ok() && (pod.files != [] || pod.volumes != [])
    ensures Run(InitScript(pod.volumes, pod.files), pod.Initial(), pod.Mounts()) == r
    ensures r.Some? <==> forall v | v in pod.volumes :: VolumeRuns(InitialView(pod), v.path)
    ensures r.Some? ==> forall i | 0 <= i < |pod.files| ::
              Look(r.value, pod.Mounts(), KNUU + pod.files[i].dest) == Some(Delivered(pod, i))
  {
    var d := FilesThenVolumes(pod);
    if pod.volumes == [] {
      r := Some(d);
      NoVolumes(pod, d);
    } else {
      r := WithVolumes(pod, d);
    }
  }

  lemma InPlace(pod: Pod, nodes: seq<Node>, v: View)
    requires pod.HasData() && nodes == AllFinished(pod) && pod.volumes == []
    requires Progress(pod.files, nodes, InitialView(pod), |pod.files|, v)
    ensures forall i | 0 <= i < |pod.files| :: v(KNUU + pod.files[i].dest) == Some(Delivered(pod, i))
  {
  }

  /** What the main container shows: its own image, the storage as the init container left it,
      and the mounts in whatever order their directories were listed this time. */
  ghost function MainLook(pod: Pod, after: Disk, image: Tree, dirs: seq<Path>, p: Path): Option<Node> {
    var ms := ContainerMounts(pod.name, pod.volumes, pod.files, dirs);
    Look(Start(Disk(image, after.vols), ms), ms, p)
  }

  lemma StorageAfter(pod: Pod, after: Disk, i: nat, n: Node)
    requires pod.Ok() && i < |pod.files| && Look(after, pod.Mounts(), KNUU + pod.files[i].dest) == Some(n)
    ensures pod.name in after.vols && pod.files[i].dest in after.vols[pod.name]
            && after.vols[pod.name][pod.files[i].dest] == n
  {
    InitRouteIs(pod.name, pod.volumes, pod.files, pod.dirs, KNUU + pod.files[i].dest);
    DestRoute(pod.name, pod.volumes, pod.files, i);
  }

  lemma MainSees(pod: Pod, after: Disk, image: Tree, dirs: seq<Path>, p: Path, n: Node)
    requires Enumerates(dirs, ParentDirs(pod.files))
    requires pod.name in after.vols && p in after.vols[pod.name] && after.vols[pod.name][p] == n
    ensures MainLook(pod, after, image, dirs, p) ==
            if MainCovers(pod.volumes, pod.files, p) then Some(n)
            else ImageNode(image, ContainerMounts(pod.name, pod.volumes, pod.files, dirs), p)
  {
    MainRouteIs(pod.name, pod.volumes, pod.files, dirs, p);
  }

  /** Delivery, for every order of both directory listings, any image of either container and
      any earlier contents of the storage that do not get in the way: without volumes the main
      container reads every file at its destination; with volumes, exactly the files below a
      volume's path, while the others are what its image has there. */
  lemma FilesDelivered(pod: Pod, image: Tree, dirs: seq<Path>, i: nat)
    requires pod.Ok() && Enumerates(dirs, ParentDirs(pod.files)) && i < |pod.files|
    ensures Run(InitScript(pod.volumes, pod.files), pod.Initial(), pod.Mounts()).Some? <==>
            forall v | v in pod.volumes :: VolumeRuns(InitialView(pod), v.path)
    ensures Run(InitScript(pod.volumes, pod.files), pod.Initial(), pod.Mounts()).Some? ==>
              var after := Run(InitScript(pod.volumes, pod.files), pod.Initial(), pod.Mounts()).value;
              var dest := pod.files[i].dest;
              MainLook(pod, after, image, dirs, dest) ==
              if pod.volumes == [] || exists v :: v in pod.volumes && v.path <= dest then Some(Delivered(pod, i))
              else ImageNode(image, ContainerMounts(pod.name, pod.volumes, pod.files, dirs), dest)
  {
    var r := ScriptRuns(pod);
    if r.Some? {
      var dest, n := pod.files[i].dest, Delivered(pod, i);
      StorageAfter(pod, r.value, i, n);
      MainSees(pod, r.value, image, dirs, dest, n);
      assert pod.files[i] in pod.files;
      assert Parent(dest) in ParentDirs(pod.files) && Parent(dest) <= dest;
    }
  }

  /** Volume j is the last one that lies above the file. */
  predicate LastAbove(volumes: seq<Volume>, dest: Path, j: nat)
    requires j < |volumes|
  {
    volumes[j].path <= dest && forall k | j < k < |volumes| :: !(volumes[k].path <= dest)
  }

  /** The number in base 10, on both sides of a colon. */
  predicate OwnedTwice(t: string, owner: int) {
    Colons(t) == 1 && Spells(BeforeColon(t), owner) && Spells(AfterColon(t), owner)
  }

  lemma {:induction false} LastOwner(volumes: seq<Volume>, dest: Path, owner: string, j: nat)
    requires j < |volumes| && LastAbove(volumes, dest, j)
    ensures OwnedTwice(FinalOwner(volumes, dest, owner), volumes[j].owner)
  {
    if j < |volumes| - 1 {
      assert !(volumes[|volumes| - 1].path <= dest);
      LastOwner(volumes[..|volumes| - 1], dest, owner, j);
    } else {
      PairSpells(volumes[j].owner, volumes[j].owner);
    }
  }

  /** What was asked for: the file's content; its owner and mode when they were given, except
      that the last volume above the file imposes its own owner, written twice in base 10. */
  lemma DeliveredAsRequested(pod: Pod, i: nat)
    requires pod.Ok() && i < |pod.files|
    ensures var f, n := pod.files[i], Delivered(pod, i);
            && n.Regular? && n.content == pod.Content(i)
            && (f.permission != "" ==> n.mode == f.permission)
            && (f.chown != "" && (forall v | v in pod.volumes :: !(v.path <= f.dest)) ==> n.owner == f.chown)
            && (forall j | 0 <= j < |pod.volumes| && LastAbove(pod.volumes, f.dest, j) ::
                  OwnedTwice(n.owner, pod.volumes[j].owner))
            && (pod.storage == map[] && f.permission == "" ==> n.mode == CONFIG_MODE)
            && (pod.storage == map[] && f.chown == "" && (forall v | v in pod.volumes :: !(v.path <= f.dest)) ==>
                n.owner == ROOT_OWNER)
  {
    var f := pod.files[i];
    NoOwnerAbove(pod.volumes, f.dest, Finished(pod, i).owner);
    assert f in pod.files && Parent(f.dest) in ParentDirs(pod.files) && Parent(f.dest) <= f.dest;
    StorageSeen(pod, f.dest);
    DestNotSubDir(pod, i);
    forall j | 0 <= j < |pod.volumes| && LastAbove(pod.volumes, f.dest, j)
      ensures OwnedTwice(Delivered(pod, i).owner, pod.volumes[j].owner)
    {
      LastOwner(pod.volumes, f.dest, Finished(pod, i).owner, j);
    }
  }

  lemma {:induction false} NoOwnerAbove(volumes: seq<Volume>, dest: Path, owner: string)
    ensures (forall v | v in volumes :: !(v.path <= dest)) ==> FinalOwner(volumes, dest, owner) == owner
  {
    if volumes != [] {
      NoOwnerAbove(volumes[..|volumes| - 1], dest, owner);
      assert volumes[|volumes| - 1] in volumes;
    }
  }

  /** The entry that deployFiles writes for file i is the one the init container mounts at the
      file's destination. */
  lemma EntryMounted(name: string, files: seq<File>, disk: map<string, string>, i: nat)
    requires i < |files| && forall f | f in files :: f.source in disk
    ensures var m := ConfigMounts(name, files)[i];
            && m.mountPath == files[i].dest && m.subPath == [Decimal(i)]
            && Decimal(i) in Lifecycle.FileData(files, disk)
                && Lifecycle.FileData(files, disk)[Decimal(i)] == disk[files[i].source]
  {
    Lifecycle.FileDataIs(files, disk);
  }

  /** End to end: with the ConfigMap that deployFiles writes, the main container reads at each
      destination it shows exactly the content of that file's source, with the owner and mode
      asked for. */
  lemma SourcesDelivered(pod: Pod, disk: map<string, string>, image: Tree, dirs: seq<Path>, i: nat)
    requires (forall f | f in pod.files :: f.source in disk) && pod.data == Lifecycle.FileData(pod.files, disk)
    requires pod.Ok() && Enumerates(dirs, ParentDirs(pod.files)) && i < |pod.files|
    requires pod.volumes == [] || exists v :: v in pod.volumes && v.path <= pod.files[i].dest
    requires forall v | v in pod.volumes :: VolumeRuns(InitialView(pod), v.path)
    ensures var r := Run(InitScript(pod.volumes, pod.files), pod.Initial(), pod.Mounts());
            && r.Some? && MainLook(pod, r.value, image, dirs, pod.files[i].dest) == Some(Delivered(pod, i))
            && Delivered(pod, i).Regular? && Delivered(pod, i).content == disk[pod.files[i].source]
            && (pod.files[i].permission != "" ==> Delivered(pod, i).mode == pod.files[i].permission)
            && (pod.files[i].chown != "" && pod.volumes == [] ==> Delivered(pod, i).owner == pod.files[i].chown)
  {
    FilesDelivered(pod, image, dirs, i);
    DeliveredAsRequested(pod, i);
    Lifecycle.FileDataIs(pod.files, disk);
  }
}
