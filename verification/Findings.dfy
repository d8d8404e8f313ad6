/** When an init container fails, in terms of what was asked for, and a request on which it does. */
module Findings {

  import opened Wrappers
  import opened Text
  import opened FileSystem
  import opened PodSpec
  import opened Routing
  import opened InitView
  import opened VolumePhase
  import opened Delivery

  // ---------------------------------------------------------------- what a volume's path shows

  /** The init image or a requested file has something below the path. */
  ghost predicate HasEntry(pod: Pod, path: Path) {
    (exists q :: q in pod.image && path < q) || exists f :: f in pod.files && path < f.dest
  }

  /** And its name there is not hidden from the shell's glob. */
  ghost predicate HasPlain(pod: Pod, path: Path) {
    || (exists q :: q in pod.image && path < q && !HiddenName(q[|path|]))
    || exists f :: f in pod.files && path < f.dest && !HiddenName(f.dest[|path|])
  }

  /** A path that a volume may have. */
  ghost predicate VolumePath(pod: Pod, path: Path) {
    path != [] && !InKnuu(path) && forall f | f in pod.files :: !(f.dest <= path)
  }

  lemma DestShown(pod: Pod, i: nat)
    requires pod.Ok() && i < |pod.files|
    ensures InitialView(pod)(pod.files[i].dest).Some?
  {
    SourceSeen(pod, i);
  }

  lemma AboveShown(pod: Pod, path: Path, i: nat)
    requires pod.Ok() && i < |pod.files| && path != [] && path < pod.files[i].dest
    ensures InitialView(pod)(path) == Some(Dir)
  {
    DirsAboveDest(pod, i, path);
  }

  lemma EntryIs(v: View, path: Path, q: Path)
    requires v(path) == Some(Dir) && v(q).Some? && path < q && |q| == |path| + 1
    ensures ShowsEntry(v, path)
  {
  }

  lemma FileShown(pod: Pod, path: Path, i: nat)
    requires pod.Ok() && i < |pod.files| && path != [] && path < pod.files[i].dest
    ensures ShowsEntry(InitialView(pod), path)
  {
    var dest := pod.files[i].dest;
    var q := dest[..|path| + 1];
    AboveShown(pod, path, i);
    if q == dest { DestShown(pod, i); } else { AboveShown(pod, q, i); }
    EntryIs(InitialView(pod), path, q);
  }

  lemma InImage(pod: Pod, q: Path)
    requires pod.Ok() && !InKnuu(q) && q in pod.image && !AtOrBelowDest(pod, q)
    ensures InitialView(pod)(q) == Some(pod.image[q])
  {
    ImageSeen(pod, q);
  }

  lemma ImageAbove(pod: Pod, path: Path, q: Path)
    requires pod.Ok() && q in pod.image && path != [] && path < q
    ensures path in pod.image && pod.image[path] == Dir
  {
  }

  lemma NotAtDest(pod: Pod, path: Path)
    requires VolumePath(pod, path)
    ensures !AtOrBelowDest(pod, path)
  {
    forall i | 0 <= i < |pod.files| ensures !(pod.files[i].dest <= path) { assert pod.files[i] in pod.files; }
  }

  lemma ImageShown(pod: Pod, path: Path, q: Path)
    requires pod.Ok() && VolumePath(pod, path) && q in pod.image && path < q
    ensures InitialView(pod)(path) == Some(Dir)
    ensures AtOrBelowDest(pod, q) || InitialView(pod)(q).Some?
  {
    ImageAbove(pod, path, q);
    NotAtDest(pod, path);
    InImage(pod, path);
    assert q[0] == path[0];
    if !AtOrBelowDest(pod, q) { InImage(pod, q); }
  }

  /** A file at or above a path below the volume is below the volume, under the same name. */
  lemma DestBelow(pod: Pod, path: Path, q: Path, i: nat)
    requires VolumePath(pod, path) && path < q && i < |pod.files| && pod.files[i].dest <= q
    ensures path < pod.files[i].dest && pod.files[i].dest[|path|] == q[|path|]
  {
    assert pod.files[i] in pod.files;
    PrefixesCompare(path, pod.files[i].dest, q);
  }

  lemma EntryShown(pod: Pod, path: Path)
    requires pod.Ok() && VolumePath(pod, path) && HasEntry(pod, path)
    ensures ShowsEntry(InitialView(pod), path)
  {
    if f :| f in pod.files && path < f.dest {
      var i :| 0 <= i < |pod.files| && pod.files[i] == f;
      FileShown(pod, path, i);
    } else {
      var q :| q in pod.image && path < q;
      ImageEntryShown(pod, path, q);
    }
  }

  lemma ImageEntry(pod: Pod, path: Path, q: Path) returns (e: Path)
    requires pod.Ok() && q in pod.image && path < q
    ensures e in pod.image && path < e && |e| == |path| + 1
  {
    e := q[..|path| + 1];
    assert e != q ==> e < q;
  }

  lemma ImageEntryShown(pod: Pod, path: Path, q: Path)
    requires pod.Ok() && VolumePath(pod, path) && q in pod.image && path < q
    ensures ShowsEntry(InitialView(pod), path)
  {
    var e := ImageEntry(pod, path, q);
    ImageShown(pod, path, e);
    if AtOrBelowDest(pod, e) {
      var i :| 0 <= i < |pod.files| && pod.files[i].dest <= e;
      DestBelow(pod, path, e, i);
      FileShown(pod, path, i);
    } else {
      EntryIs(InitialView(pod), path, e);
    }
  }

  lemma PlainFileShown(pod: Pod, path: Path, i: nat)
    requires pod.Ok() && i < |pod.files| && path < pod.files[i].dest && !HiddenName(pod.files[i].dest[|path|])
    ensures ShowsPlain(InitialView(pod), path)
  {
    DestShown(pod, i);
  }

  lemma PlainImageShown(pod: Pod, path: Path, q: Path)
    requires pod.Ok() && VolumePath(pod, path) && q in pod.image && path < q && !HiddenName(q[|path|])
    ensures ShowsPlain(InitialView(pod), path)
  {
    ImageShown(pod, path, q);
    if AtOrBelowDest(pod, q) {
      var i :| 0 <= i < |pod.files| && pod.files[i].dest <= q;
      DestBelow(pod, path, q, i);
      PlainFileShown(pod, path, i);
    }
  }

  lemma PlainShown(pod: Pod, path: Path)
    requires pod.Ok() && VolumePath(pod, path) && HasPlain(pod, path)
    ensures ShowsPlain(InitialView(pod), path)
  {
    if f :| f in pod.files && path < f.dest && !HiddenName(f.dest[|path|]) {
      var i :| 0 <= i < |pod.files| && pod.files[i] == f;
      PlainFileShown(pod, path, i);
    } else {
      var q :| q in pod.image && path < q && !HiddenName(q[|path|]);
      PlainImageShown(pod, path, q);
    }
  }

  /** A directory the runtime made for a mount point below the path leads to a file there. */
  lemma MadeForFile(pod: Pod, path: Path, q: Path) returns (i: nat)
    requires VolumePath(pod, path) && path < q && q in MountDirs(pod.Mounts())
    ensures i < |pod.files| && path < pod.files[i].dest && pod.files[i].dest[|path|] == q[|path|]
  {
    var m, k :| m in pod.Mounts() && 0 <= k < |m.mountPath| && m.mountPath[..k] == q;
    assert q[0] == path[0] && m.mountPath[0] == q[0];
    assert m in ConfigMounts(pod.name, pod.files);
    i :| 0 <= i < |pod.files| && ConfigMounts(pod.name, pod.files)[i] == m;
  }

  /** Whatever is shown below the path comes from the image or a file, under the same name. */
  lemma WhereFrom(pod: Pod, path: Path, q: Path)
    requires pod.Ok() && VolumePath(pod, path) && path < q && InitialView(pod)(q).Some?
    ensures q in pod.image || exists f :: f in pod.files && path < f.dest && f.dest[|path|] == q[|path|]
  {
    if AtOrBelowDest(pod, q) {
      var i :| 0 <= i < |pod.files| && pod.files[i].dest <= q;
      DestBelow(pod, path, q, i);
      assert pod.files[i] in pod.files;
    } else {
      NotFromDest(pod, path, q);
      if q !in pod.image {
        var i := MadeForFile(pod, path, q);
        assert pod.files[i] in pod.files;
      }
    }
  }

  lemma NotFromDest(pod: Pod, path: Path, q: Path)
    requires pod.Ok() && VolumePath(pod, path) && path < q && InitialView(pod)(q).Some? && !AtOrBelowDest(pod, q)
    ensures q in pod.image || q in MountDirs(pod.Mounts())
  {
    assert q[0] == path[0];
    ImageSeen(pod, q);
  }

  /** The exact condition, in terms of the request: the commands for a volume work unless there is
      something below its path and all of it has a hidden name there. */
  lemma VolumeRunsExactly(pod: Pod, path: Path)
    requires pod.Ok() && VolumePath(pod, path)
    ensures VolumeRuns(InitialView(pod), path) <==> (HasEntry(pod, path) ==> HasPlain(pod, path))
  {
    var v := InitialView(pod);
    if HasEntry(pod, path) { EntryShown(pod, path); }
    if HasPlain(pod, path) { PlainShown(pod, path); }
    if ShowsEntry(v, path) {
      var q :| path < q && |q| == |path| + 1 && v(q).Some?;
      WhereFrom(pod, path, q);
    }
    if ShowsPlain(v, path) {
      var q :| path < q && !HiddenName(q[|path|]) && v(q).Some?;
      WhereFrom(pod, path, q);
    }
  }

  /** The init script succeeds exactly when that holds for every volume. */
  lemma ScriptSucceeds(pod: Pod)
    requires pod.Ok() && (pod.files != [] || pod.volumes != [])
    ensures Run(InitScript(pod.volumes, pod.files), pod.Initial(), pod.Mounts()).Some? <==>
            forall v | v in pod.volumes :: HasEntry(pod, v.path) ==> HasPlain(pod, v.path)
  {
    var r := ScriptRuns(pod);
    forall v | v in pod.volumes
      ensures VolumeRuns(InitialView(pod), v.path) <==> (HasEntry(pod, v.path) ==> HasPlain(pod, v.path))
    {
      VolumeRunsExactly(pod, v.path);
    }
  }

  // ---------------------------------------------------------------- a volume over a hidden file

  /** A volume at /data and a file /data/.env, over an init image without a /data. */
  const ENV_FILE := File("s", ["data", ".env"], "0:0", "644")

  const ENV_POD := Pod("a", [Volume(["data"], 1, 0)], [ENV_FILE], map["0" := "x"], map[], map[], [["data"]])

  lemma EnvPodOk()
    ensures ENV_POD.Ok()
  {
    assert Decimal(0) == "0";
    assert Parent(ENV_FILE.dest) == ["data"];
    assert ParentDirs([ENV_FILE]) == {["data"]};
  }

  lemma OnlyHidden()
    ensures HasEntry(ENV_POD, ["data"]) && !HasPlain(ENV_POD, ["data"])
  {
    assert ENV_FILE in ENV_POD.files && ["data"] < ENV_FILE.dest;
    assert ENV_FILE.dest[1] == ".env" && HiddenName(".env");
  }

  lemma HiddenFails(pod: Pod, v: Volume)
    requires pod.Ok() && v in pod.volumes && HasEntry(pod, v.path) && !HasPlain(pod, v.path)
    ensures Run(InitScript(pod.volumes, pod.files), pod.Initial(), pod.Mounts()).None?
  {
    ScriptSucceeds(pod);
  }

  /** The script copies the file to /knuu/data and then runs `cp -r /data/ * /knuu/data`; the shell's
      glob matches nothing, and the init container fails. */
  lemma HiddenFilesStopThePod()
    ensures ENV_POD.Ok()
    ensures Run(InitScript(ENV_POD.volumes, ENV_POD.files), ENV_POD.Initial(), ENV_POD.Mounts()).None?
  {
    EnvPodOk();
    OnlyHidden();
    HiddenFails(ENV_POD, Volume(["data"], 1, 0));
  }
}
