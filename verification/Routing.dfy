/** Where the paths of an init container and of a main container lead. */
module Routing {

  import opened Wrappers
  import opened Text
  import opened FileSystem
  import opened PodSpec

  /** Destinations deep enough to have a directory of their own, outside /knuu, none of them
      equal to another or a directory above it. */
  ghost predicate FilesOk(files: seq<File>) {
    && (forall f | f in files :: |f.dest| >= 2 && f.dest[0] != "knuu")
    && forall i, j | 0 <= i < |files| && 0 <= j < |files| && i != j :: !(files[i].dest <= files[j].dest)
  }

  predicate InKnuu(p: Path) { p != [] && p[0] == "knuu" }

  ghost predicate Covered(files: seq<File>, p: Path) {
    exists d :: d in ParentDirs(files) && d <= p
  }

  /** Everything under /knuu leads to the same path in the pod's storage (or, when only some
      directories are mounted, stays in the image); every destination leads to its entry of
      the ConfigMap; all else is the image. */
  ghost function InitRoute(name: string, volumes: seq<Volume>, files: seq<File>, p: Path): Place {
    if InKnuu(p) then
      if volumes != [] || Covered(files, p[1..]) then InVolume(name, p[1..]) else InImage(p)
    else if i :| 0 <= i < |files| && files[i].dest <= p then
      InVolume(name + CONFIG_SUFFIX, [Decimal(i)] + p[|files[i].dest|..])
    else InImage(p)
  }

  function StorageMounts(name: string, volumes: seq<Volume>, dirs: seq<Path>): seq<Mount> {
    if volumes == [] then DirMounts(name, KNUU, dirs) else [Mount(name, KNUU, [])]
  }

  lemma StorageMount(name: string, volumes: seq<Volume>, files: seq<File>, dirs: seq<Path>, m: Mount)
    requires Enumerates(dirs, ParentDirs(files))
    ensures m in StorageMounts(name, volumes, dirs) <==>
            && m.volume == name && m.mountPath == KNUU + m.subPath
            && if volumes == [] then m.subPath in ParentDirs(files) else m.subPath == []
  {
    var ms := StorageMounts(name, volumes, dirs);
    if volumes == [] {
      if m.subPath in ParentDirs(files) && m.volume == name && m.mountPath == KNUU + m.subPath {
        var k :| 0 <= k < |dirs| && dirs[k] == m.subPath;
        assert ms[k] == m;
      }
    } else {
      assert KNUU + [] == KNUU;
    }
  }

  lemma ConfigMount(name: string, files: seq<File>, m: Mount)
    ensures m in ConfigMounts(name, files) <==>
            exists i :: 0 <= i < |files| && m == Mount(name + CONFIG_SUFFIX, files[i].dest, [Decimal(i)])
  {
    var ms := ConfigMounts(name, files);
    forall i | 0 <= i < |files| ensures ms[i] == Mount(name + CONFIG_SUFFIX, files[i].dest, [Decimal(i)]) {}
  }

  /** Only storage mounts lie above a path under /knuu. */
  lemma AboveKnuu(name: string, volumes: seq<Volume>, files: seq<File>, dirs: seq<Path>, p: Path, m: Mount)
    requires FilesOk(files) && Enumerates(dirs, ParentDirs(files)) && InKnuu(p)
    requires m in InitMounts(name, volumes, files, dirs) && m.mountPath <= p
    ensures m.volume == name && m.mountPath == KNUU + m.subPath && m.subPath <= p[1..]
    ensures volumes == [] ==> Covered(files, p[1..])
  {
    StorageMount(name, volumes, files, dirs, m);
    ConfigMount(name, files, m);
    assert m in StorageMounts(name, volumes, dirs) || m in ConfigMounts(name, files);
    forall i | 0 <= i < |files| ensures m != Mount(name + CONFIG_SUFFIX, files[i].dest, [Decimal(i)]) {
      assert files[i] in files && files[i].dest[0] != p[0];
    }
    assert p[1..][..|m.subPath|] == m.subPath;
  }

  lemma SomeAboveKnuu(name: string, volumes: seq<Volume>, files: seq<File>, dirs: seq<Path>, p: Path)
    requires Enumerates(dirs, ParentDirs(files)) && InKnuu(p)
    requires volumes != [] || Covered(files, p[1..])
    ensures exists m :: m in InitMounts(name, volumes, files, dirs) && m.mountPath <= p
  {
    var d := if volumes == [] then var d :| d in ParentDirs(files) && d <= p[1..]; d else [];
    var m := Mount(name, KNUU + d, d);
    StorageMount(name, volumes, files, dirs, m);
    assert m.mountPath <= p;
  }

  lemma KnuuRouteIs(name: string, volumes: seq<Volume>, files: seq<File>, dirs: seq<Path>, p: Path)
    requires FilesOk(files) && Enumerates(dirs, ParentDirs(files)) && InKnuu(p)
    ensures Resolve(InitMounts(name, volumes, files, dirs), p) == InitRoute(name, volumes, files, p)
  {
    var m := Longest(InitMounts(name, volumes, files, dirs), p);
    if m.Some? {
      AboveKnuu(name, volumes, files, dirs, p, m.value);
      assert m.value.subPath + p[|m.value.mountPath|..] == p[1..];
    } else if volumes != [] || Covered(files, p[1..]) {
      SomeAboveKnuu(name, volumes, files, dirs, p);
    }
  }

  lemma OtherRouteIs(name: string, volumes: seq<Volume>, files: seq<File>, dirs: seq<Path>, p: Path)
    requires FilesOk(files) && Enumerates(dirs, ParentDirs(files)) && !InKnuu(p)
    ensures Resolve(InitMounts(name, volumes, files, dirs), p) == InitRoute(name, volumes, files, p)
  {
    var ms := InitMounts(name, volumes, files, dirs);
    var m := Longest(ms, p);
    if m.Some? {
      StorageMount(name, volumes, files, dirs, m.value);
      assert m.value.mountPath <= p && m.value.mountPath != [] ==> m.value.mountPath[0] == p[0];
      ConfigMount(name, files, m.value);
      var i :| 0 <= i < |files| && m.value == Mount(name + CONFIG_SUFFIX, files[i].dest, [Decimal(i)]);
      forall j | 0 <= j < |files| && files[j].dest <= p ensures j == i {
        PrefixesCompare(files[i].dest, files[j].dest, p);
      }
    } else {
      forall i | 0 <= i < |files| ensures !(files[i].dest <= p) {
        ConfigMount(name, files, Mount(name + CONFIG_SUFFIX, files[i].dest, [Decimal(i)]));
      }
    }
  }

  lemma PrefixesCompare(a: Path, b: Path, p: Path)
    requires a <= p && b <= p
    ensures a <= b || b <= a
  {
    if |a| <= |b| { assert b[..|a|] == p[..|a|] == a; } else { assert a[..|b|] == p[..|b|] == b; }
  }

  lemma InitRouteIs(name: string, volumes: seq<Volume>, files: seq<File>, dirs: seq<Path>, p: Path)
    requires FilesOk(files) && Enumerates(dirs, ParentDirs(files))
    ensures Resolve(InitMounts(name, volumes, files, dirs), p) == InitRoute(name, volumes, files, p)
  {
    if InKnuu(p) {
      KnuuRouteIs(name, volumes, files, dirs, p);
    } else {
      OtherRouteIs(name, volumes, files, dirs, p);
    }
  }

  lemma SameConfigEntry(files: seq<File>, i: nat, p: Path, j: nat, q: Path)
    requires i < |files| && j < |files| && files[i].dest <= p && files[j].dest <= q
    requires [Decimal(i)] + p[|files[i].dest|..] == [Decimal(j)] + q[|files[j].dest|..]
    ensures p == q
  {
    var a, b := [Decimal(i)] + p[|files[i].dest|..], [Decimal(j)] + q[|files[j].dest|..];
    assert a[0] == b[0];
    DecimalInjective(i, j);
    assert a[1..] == p[|files[i].dest|..] && b[1..] == q[|files[j].dest|..];
    assert p == files[i].dest + p[|files[i].dest|..] && q == files[i].dest + q[|files[i].dest|..];
  }

  lemma SameRoute(name: string, volumes: seq<Volume>, files: seq<File>, p: Path, q: Path)
    requires InitRoute(name, volumes, files, p) == InitRoute(name, volumes, files, q)
    ensures p == q
  {
    assert |name| != |name + CONFIG_SUFFIX|;
    var r := InitRoute(name, volumes, files, p);
    if r.InVolume? {
      if InKnuu(p) {
        assert p == [p[0]] + p[1..] && q == [q[0]] + q[1..];
      } else {
        var i :| 0 <= i < |files| && files[i].dest <= p
            && r == InVolume(name + CONFIG_SUFFIX, [Decimal(i)] + p[|files[i].dest|..]);
        var j :| 0 <= j < |files| && files[j].dest <= q
            && r == InVolume(name + CONFIG_SUFFIX, [Decimal(j)] + q[|files[j].dest|..]);
        SameConfigEntry(files, i, p, j, q);
      }
    }
  }

  lemma InitUnaliased(name: string, volumes: seq<Volume>, files: seq<File>, dirs: seq<Path>)
    requires FilesOk(files) && Enumerates(dirs, ParentDirs(files))
    ensures Unaliased(InitMounts(name, volumes, files, dirs))
  {
    var ms := InitMounts(name, volumes, files, dirs);
    forall p, q | Resolve(ms, p) == Resolve(ms, q) ensures p == q {
      InitRouteIs(name, volumes, files, dirs, p);
      InitRouteIs(name, volumes, files, dirs, q);
      SameRoute(name, volumes, files, p, q);
    }
  }

  /** A destination leads to its own ConfigMap entry, and below /knuu into the storage. */
  lemma DestRoute(name: string, volumes: seq<Volume>, files: seq<File>, i: nat)
    requires FilesOk(files) && i < |files|
    ensures InitRoute(name, volumes, files, files[i].dest) == InVolume(name + CONFIG_SUFFIX, [Decimal(i)])
    ensures InitRoute(name, volumes, files, KNUU + files[i].dest) == InVolume(name, files[i].dest)
  {
    var dest := files[i].dest;
    assert files[i] in files && dest <= dest;
    forall j | 0 <= j < |files| && files[j].dest <= dest ensures j == i {}
    assert [Decimal(i)] + dest[|dest|..] == [Decimal(i)];
    assert (KNUU + dest)[1..] == dest;
    assert Parent(dest) in ParentDirs(files) && Parent(dest) <= dest;
  }

  ghost predicate MainCovers(volumes: seq<Volume>, files: seq<File>, p: Path) {
    if volumes == [] then Covered(files, p) else exists v :: v in volumes && v.path <= p
  }

  /** The main container sees the storage wherever one of its mounts covers the path. */
  lemma MainRouteIs(name: string, volumes: seq<Volume>, files: seq<File>, dirs: seq<Path>, p: Path)
    requires Enumerates(dirs, ParentDirs(files))
    ensures Resolve(ContainerMounts(name, volumes, files, dirs), p) ==
            if MainCovers(volumes, files, p) then InVolume(name, p) else InImage(p)
  {
    var ms := ContainerMounts(name, volumes, files, dirs);
    forall m | m in ms ensures m.volume == name && m.subPath == m.mountPath {}
    var m := Longest(ms, p);
    if m.Some? {
      assert m.value.subPath + p[|m.value.mountPath|..] == p;
      if volumes == [] {
        assert m.value.mountPath in dirs;
      } else {
        var k :| 0 <= k < |ms| && ms[k] == m.value;
        assert volumes[k] in volumes;
      }
    }
    if MainCovers(volumes, files, p) {
      if volumes == [] {
        var d :| d in ParentDirs(files) && d <= p;
        var k :| 0 <= k < |dirs| && dirs[k] == d;
        assert [] + d == d;
        assert files != [] && ms[k].mountPath == d && ms[k] in ms;
      } else {
        var v :| v in volumes && v.path <= p;
        var k :| 0 <= k < |volumes| && volumes[k] == v;
        assert ms[k].mountPath == v.path && ms[k] in ms;
      }
    }
  }
}
