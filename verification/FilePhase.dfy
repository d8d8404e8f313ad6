/** The first half of the init script: every file is copied from its ConfigMap entry into the
    storage and given its owner and mode. */
module FilePhase {

  import opened Wrappers
  import opened Text
  import opened FileSystem
  import opened PodSpec
  import opened Routing
  import opened InitView

  /** The directories the script creates for a file. */
  predicate OnWay(q: Path, f: File) {
    AboveOrAt(q, KNUU + Parent(f.dest), |KNUU + Parent(f.dest)|)
  }

  lemma OnWayShape(q: Path, f: File)
    requires OnWay(q, f)
    ensures InKnuu(q) && q == KNUU + q[1..] && q[1..] <= Parent(f.dest)
  {
    assert q[0] == KNUU[0];
    assert (KNUU + Parent(f.dest))[1..] == Parent(f.dest);
  }

  /** A copied file after the optional chown and chmod. */
  function Stamped(f: File, n: Node): Node
    requires n.Regular?
  {
    Regular(n.content, if f.chown != "" then f.chown else n.owner, if f.permission != "" then f.permission else n.mode)
  }

  lemma RunOne(c: Command, d: Disk, ms: seq<Mount>)
    ensures Run([c], d, ms) == Exec(c, d, ms)
  {
    match Exec(c, d, ms)
    case None =>
    case Some(d1) => assert [c][1..] == []; assert Run([], d1, ms) == Some(d1);
  }

  lemma MkdirPart(d: Disk, ms: seq<Mount>, f: File, done: bool)
    requires Unaliased(ms)
    requires forall q | OnWay(q, f) :: if done then IsDir(d, ms, q) else !IsRegular(d, ms, q)
    ensures var part := if done then [] else [MkdirP(KNUU + Parent(f.dest))];
            && Run(part, d, ms).Some?
            && forall q :: Look(Run(part, d, ms).value, ms, q) == if OnWay(q, f) then Some(Dir) else Look(d, ms, q)
  {
    if !done {
      var p := KNUU + Parent(f.dest);
      RunOne(MkdirP(p), d, ms);
      MkdirsLook(d, ms, p, |p|);
    }
  }

  lemma CopyPart(d: Disk, ms: seq<Mount>, f: File, source: Node)
    requires Unaliased(ms) && f.dest != []
    requires source.Regular? && Look(d, ms, f.dest) == Some(source)
    requires !IsDir(d, ms, KNUU + f.dest) && IsDir(d, ms, KNUU + Parent(f.dest))
    ensures var c := Cp(f.dest, KNUU + f.dest);
            && Run([c], d, ms).Some?
            && forall q :: Look(Run([c], d, ms).value, ms, q) ==
                           if q == KNUU + f.dest then Some(Copied(source, Look(d, ms, q))) else Look(d, ms, q)
  {
    var target := KNUU + f.dest;
    RunOne(Cp(f.dest, target), d, ms);
    assert Parent(target) == KNUU + Parent(f.dest);
    LookPut(d, ms, target, Copied(source, Look(d, ms, target)));
  }

  lemma StampPart(d: Disk, ms: seq<Mount>, f: File, n: Node)
    requires Unaliased(ms)
    requires n.Regular? && Look(d, ms, KNUU + f.dest) == Some(n)
    ensures var own := if f.chown != "" then [Chown(f.chown, KNUU + f.dest)] else [];
            var mod := if f.permission != "" then [Chmod(f.permission, KNUU + f.dest)] else [];
            && Run(own + mod, d, ms).Some?
            && forall q :: Look(Run(own + mod, d, ms).value, ms, q) ==
                           if q == KNUU + f.dest then Some(Stamped(f, n)) else Look(d, ms, q)
  {
    var p := KNUU + f.dest;
    var own := if f.chown != "" then [Chown(f.chown, p)] else [];
    var mod := if f.permission != "" then [Chmod(f.permission, p)] else [];
    RunConcat(own, mod, d, ms);
    RunOne(Chown(f.chown, p), d, ms);
    var owned := if f.chown != "" then WithOwner(n, f.chown) else n;
    LookPut(d, ms, p, WithOwner(n, f.chown));
    var d1 := Run(own, d, ms).value;
    assert forall q :: Look(d1, ms, q) == if q == p then Some(owned) else Look(d, ms, q);
    RunOne(Chmod(f.permission, p), d1, ms);
    LookPut(d1, ms, p, Regular(owned.content, owned.owner, f.permission));
  }

  /** The commands for one file, seen from the container. */
  lemma FilePartLook(d: Disk, ms: seq<Mount>, f: File, done: bool, source: Node)
    requires Unaliased(ms) && f.dest != [] && !InKnuu(f.dest)
    requires source.Regular? && Look(d, ms, f.dest) == Some(source)
    requires !IsDir(d, ms, KNUU + f.dest)
    requires forall q | OnWay(q, f) :: if done then IsDir(d, ms, q) else !IsRegular(d, ms, q)
    ensures Run(FilePart(f, done), d, ms).Some?
    ensures forall q :: Look(Run(FilePart(f, done), d, ms).value, ms, q) ==
                        if q == KNUU + f.dest then Some(Stamped(f, Copied(source, Look(d, ms, q))))
                        else if OnWay(q, f) then Some(Dir) else Look(d, ms, q)
  {
    var a := if done then [] else [MkdirP(KNUU + Parent(f.dest))];
    var b := [Cp(f.dest, KNUU + f.dest)];
    var own := if f.chown != "" then [Chown(f.chown, KNUU + f.dest)] else [];
    var mod := if f.permission != "" then [Chmod(f.permission, KNUU + f.dest)] else [];
    assert FilePart(f, done) == a + (b + (own + mod));
    RunConcat(a, b + (own + mod), d, ms);
    MkdirPart(d, ms, f, done);
    var d1 := Run(a, d, ms).value;
    assert OnWay(KNUU + Parent(f.dest), f);
    assert !OnWay(KNUU + f.dest, f);
    if OnWay(f.dest, f) { OnWayShape(f.dest, f); }
    RunConcat(b, own + mod, d1, ms);
    CopyPart(d1, ms, f, source);
    var d2 := Run(b, d1, ms).value;
    StampPart(d2, ms, f, Copied(source, Look(d, ms, KNUU + f.dest)));
  }

  /** Where the first k files change anything. */
  ghost predicate Touched(files: seq<File>, k: nat, q: Path)
    requires k <= |files|
  {
    q == KNUU || exists i :: 0 <= i < k && (q == KNUU + files[i].dest || OnWay(q, files[i]))
  }

  /** The first k files are in place and nothing else has changed since v0. */
  ghost predicate Progress(files: seq<File>, fin: seq<Node>, v0: View, k: nat, v: View)
    requires k <= |files| == |fin|
  {
    && v(KNUU) == Some(Dir)
    && (forall i | 0 <= i < k :: v(KNUU + files[i].dest) == Some(fin[i]))
    && (forall i, q | 0 <= i < k && OnWay(q, files[i]) :: v(q) == Some(Dir))
    && (forall q :: !Touched(files, k, q) ==> v(q) == v0(q))
  }

  /** The places of different files and of the directories made for them do not coincide. */
  lemma WaysApart(files: seq<File>, i: nat, k: nat)
    requires FilesOk(files) && i < |files| && k < |files|
    ensures !OnWay(KNUU + files[i].dest, files[k]) && !OnWay(files[i].dest, files[k])
    ensures i != k ==> KNUU + files[i].dest != KNUU + files[k].dest
  {
    var a, b := files[i].dest, files[k].dest;
    assert files[i] in files && files[k] in files;
    assert (KNUU + a)[1..] == a && (KNUU + b)[1..] == b;
    NothingAbove(files, k, Parent(b), i);
    if OnWay(KNUU + a, files[k]) { OnWayShape(KNUU + a, files[k]); }
    if OnWay(a, files[k]) { OnWayShape(a, files[k]); }
    assert i != k ==> !(a <= b);
  }

  lemma NotTouched(files: seq<File>, k: nat, j: nat)
    requires FilesOk(files) && k <= j < |files|
    ensures !Touched(files, k, KNUU + files[j].dest) && !Touched(files, k, files[j].dest)
  {
    assert files[j] in files;
    assert (KNUU + files[j].dest)[0] == KNUU[0];
    forall i | 0 <= i < k
      ensures KNUU + files[j].dest != KNUU + files[i].dest
      ensures !OnWay(KNUU + files[j].dest, files[i]) && !OnWay(files[j].dest, files[i])
      ensures files[j].dest != KNUU + files[i].dest
    {
      WaysApart(files, j, i);
      assert (KNUU + files[i].dest)[0] == KNUU[0];
    }
  }

  /** A touched path above a later file's place is a directory by now. */
  lemma TouchedWay(files: seq<File>, fin: seq<Node>, v0: View, k: nat, v: View, q: Path)
    requires FilesOk(files) && k < |files| == |fin| && Progress(files, fin, v0, k, v)
    requires OnWay(q, files[k]) && Touched(files, k, q)
    ensures v(q) == Some(Dir)
  {
    if q != KNUU {
      var i :| 0 <= i < k && (q == KNUU + files[i].dest || OnWay(q, files[i]));
      WaysApart(files, i, k);
    }
  }

  lemma WayDone(files: seq<File>, fin: seq<Node>, v0: View, k: nat, v: View, q: Path)
    requires k < |files| == |fin| && Progress(files, fin, v0, k, v)
    requires OnWay(q, files[k]) && Parent(files[k].dest) in ParentDirs(files[..k])
    ensures v(q) == Some(Dir)
  {
    var f :| f in files[..k] && Parent(f.dest) == Parent(files[k].dest);
    var i :| 0 <= i < k && files[i] == f;
    assert OnWay(q, files[i]);
  }

  lemma Advance(files: seq<File>, fin: seq<Node>, v0: View, k: nat, v: View, v1: View)
    requires FilesOk(files) && k < |files| == |fin| && Progress(files, fin, v0, k, v)
    requires forall q :: v1(q) == if q == KNUU + files[k].dest then Some(fin[k])
                                  else if OnWay(q, files[k]) then Some(Dir) else v(q)
    ensures Progress(files, fin, v0, k + 1, v1)
  {
    assert files[k] in files && |KNUU + files[k].dest| > |KNUU|;
    forall i | 0 <= i < k + 1 ensures v1(KNUU + files[i].dest) == Some(fin[i]) {
      WaysApart(files, i, k);
    }
    forall i, q | 0 <= i < k + 1 && OnWay(q, files[i]) ensures v1(q) == Some(Dir) {
      WaysApart(files, k, i);
    }
    forall q | !Touched(files, k + 1, q) ensures v1(q) == v0(q) {
      assert !Touched(files, k, q);
    }
  }

  /** A file as the script leaves it in the storage, given what was there before. */
  ghost function Finished(pod: Pod, i: nat): (n: Node)
    requires pod.HasData() && i < |pod.files|
    ensures n.Regular?
  {
    Stamped(pod.files[i], Copied(Regular(pod.Content(i), ROOT_OWNER, CONFIG_MODE),
                                 ViewOf(pod.Initial(), pod.Mounts())(KNUU + pod.files[i].dest)))
  }

  ghost function AllFinished(pod: Pod): seq<Node>
    requires pod.HasData()
  {
    seq(|pod.files|, i requires 0 <= i < |pod.files| => Finished(pod, i))
  }

  ghost predicate Reached(pod: Pod, k: nat, d: Disk)
    requires pod.HasData() && k <= |pod.files|
  {
    Progress(pod.files, AllFinished(pod), ViewOf(pod.Initial(), pod.Mounts()), k, ViewOf(d, pod.Mounts()))
  }

  lemma WayClear(pod: Pod, k: nat, q: Path)
    requires pod.Ok() && k < |pod.files| && OnWay(q, pod.files[k])
    ensures !IsRegular(pod.Initial(), pod.Mounts(), q)
  {
    OnWayShape(q, pod.files[k]);
    assert pod.files[k] in pod.files;
    assert q[1..] < pod.files[k].dest;
    TargetPathClear(pod, k, q[1..]);
  }

  /** What a file's commands need holds when its turn comes. */
  lemma Ready(pod: Pod, k: nat, d: Disk)
    requires pod.Ok() && k < |pod.files| && Reached(pod, k, d)
    ensures var ms, f := pod.Mounts(), pod.files[k];
            && Look(d, ms, f.dest) == Some(Regular(pod.Content(k), ROOT_OWNER, CONFIG_MODE))
            && !IsDir(d, ms, KNUU + f.dest)
            && Look(d, ms, KNUU + f.dest) == Look(pod.Initial(), ms, KNUU + f.dest)
  {
    var ms, f := pod.Mounts(), pod.files[k];
    var v0, v := ViewOf(pod.Initial(), ms), ViewOf(d, ms);
    SourceSeen(pod, k);
    TargetNotDir(pod, k);
    NotTouched(pod.files, k, k);
    assert v(f.dest) == v0(f.dest) && v(KNUU + f.dest) == v0(KNUU + f.dest);
  }

  lemma WayReady(pod: Pod, k: nat, d: Disk, q: Path)
    requires pod.Ok() && k < |pod.files| && Reached(pod, k, d) && OnWay(q, pod.files[k])
    ensures if Parent(pod.files[k].dest) in ParentDirs(pod.files[..k]) then IsDir(d, pod.Mounts(), q)
            else !IsRegular(d, pod.Mounts(), q)
  {
    var v0, v, fin := ViewOf(pod.Initial(), pod.Mounts()), ViewOf(d, pod.Mounts()), AllFinished(pod);
    if Parent(pod.files[k].dest) in ParentDirs(pod.files[..k]) {
      WayDone(pod.files, fin, v0, k, v, q);
    } else if Touched(pod.files, k, q) {
      TouchedWay(pod.files, fin, v0, k, v, q);
    } else {
      WayClear(pod, k, q);
      assert v(q) == v0(q);
    }
  }

  lemma FileStep(pod: Pod, k: nat, d: Disk) returns (d1: Disk)
    requires pod.Ok() && k < |pod.files| && Reached(pod, k, d)
    ensures Run(FilePart(pod.files[k], Parent(pod.files[k].dest) in ParentDirs(pod.files[..k])), d, pod.Mounts()) ==
            Some(d1)
    ensures Reached(pod, k + 1, d1)
  {
    var ms, f := pod.Mounts(), pod.files[k];
    var done := Parent(f.dest) in ParentDirs(pod.files[..k]);
    InitUnaliased(pod.name, pod.volumes, pod.files, pod.dirs);
    Ready(pod, k, d);
    assert f in pod.files;
    forall q | OnWay(q, f) ensures if done then IsDir(d, ms, q) else !IsRegular(d, ms, q) {
      WayReady(pod, k, d, q);
    }
    FilePartLook(d, ms, f, done, Regular(pod.Content(k), ROOT_OWNER, CONFIG_MODE));
    d1 := Run(FilePart(f, done), d, ms).value;
    Advance(pod.files, AllFinished(pod), ViewOf(pod.Initial(), ms), k, ViewOf(d, ms), ViewOf(d1, ms));
  }

  lemma KnuuClear(pod: Pod)
    requires pod.Ok() && (pod.files != [] || pod.volumes != [])
    ensures !IsRegular(pod.Initial(), pod.Mounts(), KNUU)
  {
    assert KNUU + [] == KNUU;
    if pod.volumes != [] {
      StorageSeen(pod, []);
    } else {
      assert pod.files[0] in pod.files;
      TargetPathClear(pod, 0, []);
    }
  }

  lemma FirstCommand(pod: Pod) returns (d: Disk)
    requires pod.Ok() && (pod.files != [] || pod.volumes != [])
    ensures Run([MkdirP(KNUU)], pod.Initial(), pod.Mounts()) == Some(d)
    ensures Reached(pod, 0, d)
  {
    var ms, d0 := pod.Mounts(), pod.Initial();
    RunOne(MkdirP(KNUU), d0, ms);
    InitUnaliased(pod.name, pod.volumes, pod.files, pod.dirs);
    KnuuClear(pod);
    forall q ensures AboveOrAt(q, KNUU, 1) <==> q == KNUU {
      assert AboveOrAt(q, KNUU, 1) ==> q == KNUU[..1];
    }
    MkdirsLook(d0, ms, KNUU, 1);
    d := Mkdirs(d0, ms, KNUU, 1).value;
  }

  function FilesScript(files: seq<File>, k: nat): seq<Command>
    requires k <= |files|
  {
    [MkdirP(KNUU)] + FileCommands(files[..k])
  }

  lemma FilesScriptStep(files: seq<File>, k: nat)
    requires k < |files|
    ensures FilesScript(files, k + 1) ==
            FilesScript(files, k) + FilePart(files[k], Parent(files[k].dest) in ParentDirs(files[..k]))
  {
    FileCommandsStep(files, k);
  }

  /** The whole first half succeeds and leaves every file in place. */
  lemma {:induction false} FilesCopied(pod: Pod, k: nat) returns (d: Disk)
    requires pod.Ok() && k <= |pod.files| && (pod.files != [] || pod.volumes != [])
    ensures Run(FilesScript(pod.files, k), pod.Initial(), pod.Mounts()) == Some(d)
    ensures Reached(pod, k, d)
  {
    if k == 0 {
      assert FilesScript(pod.files, 0) == [MkdirP(KNUU)];
      d := FirstCommand(pod);
    } else {
      var before := FilesCopied(pod, k - 1);
      FilesScriptStep(pod.files, k - 1);
      var part := FilePart(pod.files[k - 1], Parent(pod.files[k - 1].dest) in ParentDirs(pod.files[..k - 1]));
      RunConcat(FilesScript(pod.files, k - 1), part, pod.Initial(), pod.Mounts());
      d := FileStep(pod, k - 1, before);
    }
  }
}
