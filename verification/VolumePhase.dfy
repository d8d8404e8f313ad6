/** The second half of the init script: for every volume, what the init container shows at the
    volume's path is copied into the storage and given to the volume's owner. */
module VolumePhase {

  import opened Wrappers
  import opened Text
  import opened FileSystem
  import opened PodSpec
  import opened Routing
  import opened InitView
  import opened FilePhase

  // ---------------------------------------------------------------- recursive copy into /knuu

  predicate Mergeable(source: Option<Node>, target: Option<Node>) {
    && source.Some?
    && (target.Some? ==> (source.value.Dir? <==> target.value.Dir?))
  }

  function Merged(source: Node, target: Option<Node>): Option<Node> {
    Some(if source.Dir? then Dir else Copied(source, target))
  }

  lemma CopyOneLook(d: Disk, ms: seq<Mount>, p: Path)
    requires Unaliased(ms) && !InKnuu(p) && Mergeable(Look(d, ms, p), Look(d, ms, KNUU + p))
    ensures CopyOne(d, ms, p, KNUU + p).Some?
    ensures forall q :: Look(CopyOne(d, ms, p, KNUU + p).value, ms, q) ==
                        if q == KNUU + p then Merged(Look(d, ms, p).value, Look(d, ms, q)) else Look(d, ms, q)
  {
    var n := Merged(Look(d, ms, p).value, Look(d, ms, KNUU + p)).value;
    LookPut(d, ms, KNUU + p, n);
  }

  /** The view after copying the given paths to the same places under /knuu. */
  ghost predicate CopiedInto(v: View, todo: set<Path>, w: View) {
    forall q :: w(q) == if InKnuu(q) && q[1..] in todo && v(q[1..]).Some? then Merged(v(q[1..]).value, v(q)) else v(q)
  }

  lemma CopiedIntoStep(v: View, todo: set<Path>, p: Path, v1: View, w: View)
    requires p in todo && (forall q | q in todo :: !InKnuu(q)) && v(p).Some?
    requires forall q :: v1(q) == if q == KNUU + p then Merged(v(p).value, v(q)) else v(q)
    requires CopiedInto(v1, todo - {p}, w)
    ensures CopiedInto(v, todo, w)
  {
    assert (KNUU + p)[1..] == p && InKnuu(KNUU + p);
    forall q ensures w(q) == if InKnuu(q) && q[1..] in todo && v(q[1..]).Some? then Merged(v(q[1..]).value, v(q))
        else v(q) {
      if InKnuu(q) {
        assert q == KNUU + q[1..];
        if q[1..] in todo { assert v1(q[1..]) == v(q[1..]); }
      }
    }
  }

  lemma FirstCopied(d: Disk, ms: seq<Mount>, todo: set<Path>, src: Path, dst: Path) returns (p: Path)
    requires todo != {} && forall q | q in todo :: src <= q
    ensures p in todo
    ensures CopyTree(d, ms, todo, src, dst) ==
            match CopyOne(d, ms, p, dst + p[|src|..])
            case None => None
            case Some(d1) => CopyTree(d1, ms, todo - {p}, src, dst)
  {
    TopmostExists(todo);
    p :| p in todo && CopyTree(d, ms, todo, src, dst) ==
                      match CopyOne(d, ms, p, dst + p[|src|..])
                      case None => None
                      case Some(d1) => CopyTree(d1, ms, todo - {p}, src, dst);
  }

  ghost predicate AllMergeable(v: View, todo: set<Path>) {
    forall q | q in todo :: !InKnuu(q) && Mergeable(v(q), v(KNUU + q))
  }

  lemma StillMergeable(v: View, todo: set<Path>, p: Path, w: View)
    requires AllMergeable(v, todo) && p in todo
    requires forall q :: w(q) == if q == KNUU + p then Merged(v(p).value, v(q)) else v(q)
    ensures AllMergeable(w, todo - {p})
  {
    assert InKnuu(KNUU + p) && (KNUU + p)[1..] == p;
    forall q | q in todo - {p} ensures Mergeable(w(q), w(KNUU + q)) {
      assert (KNUU + q)[1..] == q;
      assert Mergeable(v(q), v(KNUU + q));
    }
  }

  lemma {:induction false} CopyTreeLook(d: Disk, ms: seq<Mount>, todo: set<Path>, src: Path) returns (d1: Disk)
    requires Unaliased(ms)
    requires (forall q | q in todo :: src <= q) && AllMergeable(ViewOf(d, ms), todo)
    ensures CopyTree(d, ms, todo, src, KNUU + src) == Some(d1)
    ensures CopiedInto(ViewOf(d, ms), todo, ViewOf(d1, ms))
    decreases |todo|
  {
    if todo == {} {
      d1 := d;
    } else {
      var p := FirstCopied(d, ms, todo, src, KNUU + src);
      assert KNUU + src + p[|src|..] == KNUU + p;
      CopyOneLook(d, ms, p);
      var d2 := CopyOne(d, ms, p, KNUU + p).value;
      StillMergeable(ViewOf(d, ms), todo, p, ViewOf(d2, ms));
      d1 := CopyTreeLook(d2, ms, todo - {p}, src);
      CopiedIntoStep(ViewOf(d, ms), todo, p, ViewOf(d2, ms), ViewOf(d1, ms));
    }
  }

  // ---------------------------------------------------------------- what every volume keeps

  ghost predicate SameOutside(v0: View, v: View) {
    forall q :: !InKnuu(q) ==> v(q) == v0(q)
  }

  /** Nothing visible outside /knuu would have to replace a file by a directory, or a
      directory by a file, when copied to the same place under /knuu. */
  ghost predicate NoClash(v: View) {
    forall q :: q != [] && !InKnuu(q) && v(q).Some? ==> Mergeable(v(q), v(KNUU + q))
  }

  /** The storage holds the given nodes at the files' places, and their sources can be seen. */
  ghost predicate Holds(files: seq<File>, nodes: seq<Node>, v: View)
    requires |nodes| == |files|
  {
    forall i | 0 <= i < |files| ::
      && v(KNUU + files[i].dest) == Some(nodes[i]) && nodes[i].Regular?
      && v(files[i].dest).Some? && v(files[i].dest).value.Regular? && v(files[i].dest).value.content == nodes[i].content
  }

  ghost predicate Settled(files: seq<File>, nodes: seq<Node>, v0: View, v: View)
    requires |nodes| == |files|
  {
    v(KNUU) == Some(Dir) && SameOutside(v0, v) && NoClash(v) && Holds(files, nodes, v)
  }

  /** A directory outside /knuu has directories above it. */
  ghost predicate DirsAbove(v: View, path: Path) {
    forall r | r <= path && r != [] :: v(r) == Some(Dir)
  }

  predicate OnPath(q: Path, path: Path) { AboveOrAt(q, KNUU + path, |KNUU + path|) }

  lemma OnPathShape(q: Path, path: Path)
    requires OnPath(q, path)
    ensures InKnuu(q) && q == KNUU + q[1..] && q[1..] <= path
  {
    assert q[0] == KNUU[0];
    assert (KNUU + path)[1..] == path;
  }

  lemma MkdirKeeps(files: seq<File>, nodes: seq<Node>, v0: View, v: View, path: Path, w: View)
    requires |nodes| == |files| && Settled(files, nodes, v0, v)
    requires DirsAbove(v, path) && path != [] && !InKnuu(path)
    requires forall i | 0 <= i < |files| :: !(files[i].dest <= path) && !InKnuu(files[i].dest)
    requires forall q :: w(q) == if OnPath(q, path) then Some(Dir) else v(q)
    ensures Settled(files, nodes, v0, w) && w(KNUU + path) == Some(Dir)
  {
    assert OnPath(KNUU, path) && OnPath(KNUU + path, path);
    forall q | !InKnuu(q) ensures w(q) == v(q) {
      if OnPath(q, path) { OnPathShape(q, path); }
    }
    forall q | q != [] && !InKnuu(q) && w(q).Some? ensures Mergeable(w(q), w(KNUU + q)) {
      if OnPath(KNUU + q, path) {
        OnPathShape(KNUU + q, path);
        assert (KNUU + q)[1..] == q;
        assert v(q) == Some(Dir);
      }
    }
    forall i | 0 <= i < |files| ensures w(KNUU + files[i].dest) == v(KNUU + files[i].dest)
        && w(files[i].dest) == v(files[i].dest) {
      assert (KNUU + files[i].dest)[1..] == files[i].dest;
      if OnPath(KNUU + files[i].dest, path) { OnPathShape(KNUU + files[i].dest, path); }
    }
  }

  lemma CopyKeeps(files: seq<File>, nodes: seq<Node>, v0: View, v: View, todo: set<Path>, w: View)
    requires |nodes| == |files| && Settled(files, nodes, v0, v)
    requires forall i | 0 <= i < |files| :: !InKnuu(files[i].dest)
    requires forall q | q in todo :: q != [] && !InKnuu(q)
    requires CopiedInto(v, todo, w)
    ensures Settled(files, nodes, v0, w)
  {
    assert KNUU[1..] == [];
    forall q | q != [] && !InKnuu(q) && w(q).Some? ensures Mergeable(w(q), w(KNUU + q)) {
      assert InKnuu(KNUU + q) && (KNUU + q)[1..] == q;
      assert w(q) == v(q);
    }
    forall i | 0 <= i < |files| ensures w(KNUU + files[i].dest) == Some(nodes[i])
        && w(files[i].dest) == v(files[i].dest) {
      assert InKnuu(KNUU + files[i].dest) && (KNUU + files[i].dest)[1..] == files[i].dest;
    }
  }

  function OwnedNodes(files: seq<File>, nodes: seq<Node>, path: Path, owner: string): (r: seq<Node>)
    requires |nodes| == |files|
    ensures |r| == |files|
  {
    seq(|files|, i requires 0 <= i < |files| => if path <= files[i].dest then WithOwner(nodes[i], owner) else nodes[i])
  }

  lemma BelowKnuu(path: Path, q: Path)
    ensures KNUU + path <= q ==> InKnuu(q)
  {
    assert (KNUU + path)[0] == KNUU[0];
  }

  lemma OwnKeeps(files: seq<File>, nodes: seq<Node>, v0: View, v: View, path: Path, owner: string, w: View)
    requires |nodes| == |files| && Settled(files, nodes, v0, v)
    requires path != [] && forall i | 0 <= i < |files| :: !InKnuu(files[i].dest)
    requires forall q :: w(q) == if KNUU + path <= q && v(q).Some? then Some(WithOwner(v(q).value, owner)) else v(q)
    ensures Settled(files, OwnedNodes(files, nodes, path, owner), v0, w)
  {
    forall q | !InKnuu(q) ensures w(q) == v(q) {
      BelowKnuu(path, q);
    }
    forall i | 0 <= i < |files| ensures KNUU + path <= KNUU + files[i].dest <==> path <= files[i].dest {
      assert (KNUU + path)[1..] == path && (KNUU + files[i].dest)[1..] == files[i].dest;
      assert path <= files[i].dest ==> KNUU + files[i].dest == KNUU + path + files[i].dest[|path|..];
      assert KNUU + path <= KNUU + files[i].dest ==> files[i].dest[..|path|] == (KNUU + files[i].dest)[1..1 + |path|];
    }
  }

  // ---------------------------------------------------------------- one volume

  /** What the proofs about a volume need of the container's first view. */
  ghost predicate Stage(ms: seq<Mount>, files: seq<File>, v0: View) {
    && Unaliased(ms)
    && (forall i | 0 <= i < |files| :: !InKnuu(files[i].dest))
    && forall q :: !InKnuu(q) && v0(q) == Some(Dir) ==> DirsAbove(v0, q)
  }

  /** A directory with at least one entry. */
  ghost predicate ShowsEntry(v: View, path: Path) {
    v(path) == Some(Dir) && exists q :: path < q && |q| == |path| + 1 && v(q).Some?
  }

  /** At least one entry that the shell's glob matches. */
  ghost predicate ShowsPlain(v: View, path: Path) {
    exists q :: path < q && !HiddenName(q[|path|]) && v(q).Some?
  }

  /** The commands for a volume fail exactly when the init container shows entries at its path
      but all of them are hidden from the shell's glob. */
  ghost predicate VolumeRuns(v0: View, path: Path) {
    ShowsEntry(v0, path) ==> ShowsPlain(v0, path)
  }

  lemma EntriesSeen(d: Disk, ms: seq<Mount>, path: Path)
    ensures NonEmptyDir(d, ms, path) <==> ShowsEntry(ViewOf(d, ms), path)
    ensures Globbed(d, ms, path) != {} <==> ShowsPlain(ViewOf(d, ms), path)
    ensures forall q | q in Globbed(d, ms, path) :: path < q && q != path && ViewOf(d, ms)(q).Some?
  {
    forall q ensures q in Under(d, ms, path) <==> path < q && ViewOf(d, ms)(q).Some? {
      InUnder(d, ms, path, q);
    }
    if ShowsPlain(ViewOf(d, ms), path) {
      var q :| path < q && !HiddenName(q[|path|]) && ViewOf(d, ms)(q).Some?;
      assert q in Globbed(d, ms, path);
    }
    if Globbed(d, ms, path) != {} {
      var q :| q in Globbed(d, ms, path);
      assert ViewOf(d, ms)(q).Some?;
    }
  }

  lemma ShowsSame(v0: View, v: View, path: Path)
    requires SameOutside(v0, v) && path != [] && !InKnuu(path)
    ensures ShowsEntry(v, path) <==> ShowsEntry(v0, path)
    ensures ShowsPlain(v, path) <==> ShowsPlain(v0, path)
  {
    assert v(path) == v0(path);
    forall q | path < q ensures v(q) == v0(q) { assert q[0] == path[0]; }
  }

  lemma RunThree(a: Command, b: Command, c: Command, d: Disk, ms: seq<Mount>)
    ensures Run([a, b, c], d, ms) ==
            match Exec(a, d, ms)
            case None => None
            case Some(d1) =>
              match Exec(b, d1, ms)
              case None => None
              case Some(d2) => Exec(c, d2, ms)
  {
    assert [a, b, c] == [a] + [b, c];
    RunOne(a, d, ms);
    RunConcat([a], [b, c], d, ms);
    match Exec(a, d, ms)
    case None =>
    case Some(d1) =>
      assert [b, c] == [b] + [c];
      RunOne(b, d1, ms);
      RunConcat([b], [c], d1, ms);
      match Exec(b, d1, ms)
      case None =>
      case Some(d2) => RunOne(c, d2, ms);
  }

  lemma PathClear(v0: View, v: View, path: Path, r: Path)
    requires v(KNUU) == Some(Dir) && SameOutside(v0, v) && NoClash(v) && DirsAbove(v0, path)
    requires path != [] && !InKnuu(path) && OnPath(r, path)
    ensures v(r).Some? ==> v(r).value.Dir?
  {
    OnPathShape(r, path);
    var s := r[1..];
    if s != [] {
      assert s[0] == path[0] && v0(s) == Some(Dir);
      assert Mergeable(v(s), v(KNUU + s));
    } else {
      assert r == KNUU;
    }
  }

  lemma MkdirVolume(ms: seq<Mount>, files: seq<File>, v0: View, d: Disk, nodes: seq<Node>, path: Path)
      returns (d1: Disk)
    requires Stage(ms, files, v0) && |nodes| == |files| && Settled(files, nodes, v0, ViewOf(d, ms))
    requires path != [] && !InKnuu(path) && v0(path) == Some(Dir)
    requires forall i | 0 <= i < |files| :: !(files[i].dest <= path)
    ensures Exec(MkdirP(KNUU + path), d, ms) == Some(d1)
    ensures Settled(files, nodes, v0, ViewOf(d1, ms)) && ViewOf(d1, ms)(KNUU + path) == Some(Dir)
  {
    var v, p := ViewOf(d, ms), KNUU + path;
    forall r | AboveOrAt(r, p, |p|) ensures !IsRegular(d, ms, r) {
      PathClear(v0, v, path, r);
    }
    MkdirsLook(d, ms, p, |p|);
    d1 := Mkdirs(d, ms, p, |p|).value;
    forall r | r <= path && r != [] ensures v(r) == Some(Dir) { assert r[0] == path[0]; }
    MkdirKeeps(files, nodes, v0, v, path, ViewOf(d1, ms));
    assert ViewOf(d1, ms)(p) == Some(Dir);
  }

  lemma GlobMergeable(v: View, todo: set<Path>, path: Path)
    requires NoClash(v) && path != [] && !InKnuu(path)
    requires forall q | q in todo :: path < q && v(q).Some?
    ensures AllMergeable(v, todo) && forall q | q in todo :: q != [] && path <= q
  {
    forall q | q in todo ensures !InKnuu(q) && q != [] && path <= q && Mergeable(v(q), v(KNUU + q)) {
      assert q[0] == path[0];
    }
  }

  lemma CopyGlobbed(ms: seq<Mount>, files: seq<File>, v0: View, d: Disk, nodes: seq<Node>, path: Path,
      todo: set<Path>) returns (d1: Disk)
    requires Unaliased(ms) && (forall i | 0 <= i < |files| :: !InKnuu(files[i].dest))
    requires |nodes| == |files| && Settled(files, nodes, v0, ViewOf(d, ms))
    requires path != [] && !InKnuu(path) && forall q | q in todo :: path < q && q != path && ViewOf(d, ms)(q).Some?
    ensures (forall q | q in todo :: path <= q) && CopyTree(d, ms, todo, path, KNUU + path) == Some(d1)
    ensures Settled(files, nodes, v0, ViewOf(d1, ms))
    ensures ViewOf(d1, ms)(KNUU + path) == ViewOf(d, ms)(KNUU + path)
  {
    GlobMergeable(ViewOf(d, ms), todo, path);
    d1 := CopyTreeLook(d, ms, todo, path);
    var v, w := ViewOf(d, ms), ViewOf(d1, ms);
    CopyKeeps(files, nodes, v0, v, todo, w);
    CopiedAround(v, todo, w, path);
  }

  lemma GlobExec(d: Disk, ms: seq<Mount>, path: Path, dst: Path, todo: set<Path>)
    requires todo == Globbed(d, ms, path) && todo != {} && IsDir(d, ms, dst)
    ensures forall q | q in todo :: path < q && q != path && ViewOf(d, ms)(q).Some?
    ensures Exec(CpContents(path, dst), d, ms) == CopyTree(d, ms, todo, path, dst)
  {
    EntriesSeen(d, ms, path);
  }

  lemma CopyVolume(ms: seq<Mount>, files: seq<File>, v0: View, d: Disk, nodes: seq<Node>, path: Path) returns (d1: Disk)
    requires Unaliased(ms) && (forall i | 0 <= i < |files| :: !InKnuu(files[i].dest))
    requires |nodes| == |files| && Settled(files, nodes, v0, ViewOf(d, ms))
    requires path != [] && !InKnuu(path) && ViewOf(d, ms)(KNUU + path) == Some(Dir) && Globbed(d, ms, path) != {}
    ensures Exec(CpContents(path, KNUU + path), d, ms) == Some(d1)
    ensures Settled(files, nodes, v0, ViewOf(d1, ms)) && ViewOf(d1, ms)(KNUU + path) == Some(Dir)
  {
    var todo := Globbed(d, ms, path);
    GlobExec(d, ms, path, KNUU + path, todo);
    d1 := CopyGlobbed(ms, files, v0, d, nodes, path, todo);
  }

  lemma CopiedAround(v: View, todo: set<Path>, w: View, path: Path)
    requires CopiedInto(v, todo, w) && forall q | q in todo :: q != path
    ensures w(KNUU + path) == v(KNUU + path)
  {
    assert (KNUU + path)[1..] == path;
  }

  lemma OwnVolume(ms: seq<Mount>, files: seq<File>, v0: View, d: Disk, nodes: seq<Node>, path: Path, owner: string)
      returns (d1: Disk)
    requires Stage(ms, files, v0) && |nodes| == |files| && Settled(files, nodes, v0, ViewOf(d, ms))
    requires path != [] && ViewOf(d, ms)(KNUU + path) == Some(Dir)
    ensures Exec(ChownR(owner, KNUU + path), d, ms) == Some(d1)
    ensures Settled(files, OwnedNodes(files, nodes, path, owner), v0, ViewOf(d1, ms))
  {
    var v, p := ViewOf(d, ms), KNUU + path;
    var todo := {p} + Under(d, ms, p);
    forall q ensures q in todo <==> p <= q && v(q).Some? {
      InUnder(d, ms, p, q);
    }
    OwnAllLook(d, ms, todo, owner);
    d1 := OwnAll(d, ms, todo, owner).value;
    OwnKeeps(files, nodes, v0, v, path, owner, ViewOf(d1, ms));
  }

  /** No file may be at or above a volume's path, and a volume above a file is not empty. */
  ghost predicate VolumeOk(files: seq<File>, v0: View, vol: Volume) {
    && vol.path != [] && !InKnuu(vol.path)
    && forall i | 0 <= i < |files| ::
         !(files[i].dest <= vol.path) && (vol.path <= files[i].dest ==> ShowsEntry(v0, vol.path))
  }

  lemma CopyAndOwn(ms: seq<Mount>, files: seq<File>, v0: View, d: Disk, nodes: seq<Node>, path: Path, owner: string)
      returns (r: Option<Disk>)
    requires Stage(ms, files, v0) && |nodes| == |files| && Settled(files, nodes, v0, ViewOf(d, ms))
    requires path != [] && !InKnuu(path) && ViewOf(d, ms)(KNUU + path) == Some(Dir)
    ensures r == match Exec(CpContents(path, KNUU + path), d, ms)
                 case None => None
                 case Some(d2) => Exec(ChownR(owner, KNUU + path), d2, ms)
    ensures r.Some? <==> Globbed(d, ms, path) != {}
    ensures r.Some? ==> Settled(files, OwnedNodes(files, nodes, path, owner), v0, ViewOf(r.value, ms))
  {
    if Globbed(d, ms, path) == {} {
      r := None;
    } else {
      var d2 := CopyVolume(ms, files, v0, d, nodes, path);
      var d3 := OwnVolume(ms, files, v0, d2, nodes, path, owner);
      r := Some(d3);
    }
  }

  lemma BusyVolume(ms: seq<Mount>, files: seq<File>, v0: View, d: Disk, nodes: seq<Node>, vol: Volume)
      returns (r: Option<Disk>)
    requires Stage(ms, files, v0) && |nodes| == |files| && Settled(files, nodes, v0, ViewOf(d, ms))
    requires VolumeOk(files, v0, vol) && v0(vol.path) == Some(Dir)
    ensures Run(VolumeCommand(vol).body, d, ms) == r
    ensures r.Some? <==> ShowsPlain(v0, vol.path)
    ensures r.Some? ==> Settled(files, OwnedNodes(files, nodes, vol.path, OwnerPair(vol.owner)), v0,
            ViewOf(r.value, ms))
  {
    var p, owner := KNUU + vol.path, OwnerPair(vol.owner);
    var d1 := MkdirVolume(ms, files, v0, d, nodes, vol.path);
    EntriesSeen(d1, ms, vol.path);
    ShowsSame(v0, ViewOf(d1, ms), vol.path);
    r := CopyAndOwn(ms, files, v0, d1, nodes, vol.path, owner);
    RunThree(MkdirP(p), CpContents(vol.path, p), ChownR(owner, p), d, ms);
  }

  lemma VolumeStep(ms: seq<Mount>, files: seq<File>, v0: View, d: Disk, nodes: seq<Node>, vol: Volume)
      returns (r: Option<Disk>)
    requires Stage(ms, files, v0) && |nodes| == |files| && Settled(files, nodes, v0, ViewOf(d, ms))
    requires VolumeOk(files, v0, vol)
    ensures Exec(VolumeCommand(vol), d, ms) == r
    ensures r.Some? <==> VolumeRuns(v0, vol.path)
    ensures r.Some? ==> Settled(files, OwnedNodes(files, nodes, vol.path, OwnerPair(vol.owner)), v0,
            ViewOf(r.value, ms))
  {
    EntriesSeen(d, ms, vol.path);
    ShowsSame(v0, ViewOf(d, ms), vol.path);
    if ShowsEntry(v0, vol.path) {
      r := BusyVolume(ms, files, v0, d, nodes, vol);
    } else {
      r := Some(d);
      assert OwnedNodes(files, nodes, vol.path, OwnerPair(vol.owner)) == nodes;
    }
  }

  // ---------------------------------------------------------------- all volumes

  /** The owner of a file in the end: that of the last volume above it, if there is one. */
  function FinalOwner(volumes: seq<Volume>, dest: Path, owner: string): string {
    if volumes == [] then owner
    else
      var v := volumes[|volumes| - 1];
      if v.path <= dest then OwnerPair(v.owner) else FinalOwner(volumes[..|volumes| - 1], dest, owner)
  }

  function FinalNodes(files: seq<File>, nodes: seq<Node>, volumes: seq<Volume>): (r: seq<Node>)
    requires |nodes| == |files|
    ensures |r| == |files|
  {
    seq(|files|, i requires 0 <= i < |files| =>
      match nodes[i]
      case Dir => Dir
      case Regular(content, owner, mode) => Regular(content, FinalOwner(volumes, files[i].dest, owner), mode))
  }

  lemma FinalNodesStep(files: seq<File>, nodes: seq<Node>, volumes: seq<Volume>)
    requires |nodes| == |files| && volumes != []
    ensures var v := volumes[|volumes| - 1];
            FinalNodes(files, nodes, volumes) ==
            OwnedNodes(files, FinalNodes(files, nodes, volumes[..|volumes| - 1]), v.path, OwnerPair(v.owner))
  {
  }

  ghost predicate AllRun(v0: View, volumes: seq<Volume>) {
    volumes == [] || (AllRun(v0, volumes[..|volumes| - 1]) && VolumeRuns(v0, volumes[|volumes| - 1].path))
  }

  lemma {:induction false} AllRunEach(v0: View, volumes: seq<Volume>)
    ensures AllRun(v0, volumes) <==> forall v | v in volumes :: VolumeRuns(v0, v.path)
  {
    if volumes != [] {
      var front, last := volumes[..|volumes| - 1], volumes[|volumes| - 1];
      AllRunEach(v0, front);
      assert forall v :: v in volumes <==> v in front || v == last;
    }
  }

  lemma RunLast(front: seq<Volume>, v: Volume, d: Disk, ms: seq<Mount>)
    ensures Run(VolumeCommands(front + [v]), d, ms) ==
            match Run(VolumeCommands(front), d, ms)
            case None => None
            case Some(d1) => Exec(VolumeCommand(v), d1, ms)
  {
    assert VolumeCommands(front + [v]) == VolumeCommands(front) + [VolumeCommand(v)];
    RunConcat(VolumeCommands(front), [VolumeCommand(v)], d, ms);
    match Run(VolumeCommands(front), d, ms)
    case None =>
    case Some(d1) => RunOne(VolumeCommand(v), d1, ms);
  }

  lemma {:induction false} VolumesRun(ms: seq<Mount>, files: seq<File>, v0: View, d: Disk, nodes: seq<Node>,
      volumes: seq<Volume>)
    returns (r: Option<Disk>)
    requires Stage(ms, files, v0) && |nodes| == |files| && Settled(files, nodes, v0, ViewOf(d, ms))
    requires forall v | v in volumes :: VolumeOk(files, v0, v)
    ensures Run(VolumeCommands(volumes), d, ms) == r
    ensures r.Some? <==> AllRun(v0, volumes)
    ensures r.Some? ==> Settled(files, FinalNodes(files, nodes, volumes), v0, ViewOf(r.value, ms))
  {
    if volumes == [] {
      r := Some(d);
      assert FinalNodes(files, nodes, []) == nodes;
    } else {
      var front, v := volumes[..|volumes| - 1], volumes[|volumes| - 1];
      assert v in volumes && VolumeOk(files, v0, v);
      var before := VolumesRun(ms, files, v0, d, nodes, front);
      assert volumes == front + [v];
      RunLast(front, v, d, ms);
      if before.Some? {
        r := VolumeStep(ms, files, v0, before.value, FinalNodes(files, nodes, front), v);
        FinalNodesStep(files, nodes, volumes);
      } else {
        r := None;
      }
    }
  }
}
