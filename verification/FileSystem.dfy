/** What a container sees: an image, mounted volumes, and the shell commands an init
    container runs. Mounts resolve by longest prefix. A file carries content, owner and
    mode; the owner and mode of directories are not tracked. */
module FileSystem {

  import opened Wrappers
  import opened Text

  datatype Node = Dir | Regular(content: string, owner: string, mode: string)

  type Tree = map<Path, Node>

  /** The image's own file system and the volumes of the pod, by name. */
  datatype Disk = Disk(root: Tree, vols: map<string, Tree>)

  datatype Mount = Mount(volume: string, mountPath: Path, subPath: Path)

  datatype Place = InImage(path: Path) | InVolume(volume: string, path: Path)

  datatype Command =
    | MkdirP(path: Path)
    | Cp(src: Path, dst: Path)
    | Chown(owner: string, path: Path)
    | Chmod(mode: string, path: Path)
    | IfNonEmptyDir(dir: Path, body: seq<Command>)  // if [ -d dir ] && [ "$(ls -A dir)" ]
    | CpContents(src: Path, dst: Path)              // cp -r src/* dst
    | ChownR(owner: string, path: Path)

  const ROOT_OWNER := "0:0"

  /** The mount with the longest mount path above p. */
  function Longest(ms: seq<Mount>, p: Path): (m: Option<Mount>)
    ensures m.Some? ==> m.value in ms && m.value.mountPath <= p
    ensures m.Some? ==> forall n | n in ms && n.mountPath <= p :: |n.mountPath| <= |m.value.mountPath|
    ensures m.None? ==> forall n | n in ms :: !(n.mountPath <= p)
  {
    if ms == [] then None
    else
      var last, rest := ms[|ms| - 1], Longest(ms[..|ms| - 1], p);
      assert forall n :: n in ms <==> n in ms[..|ms| - 1] || n == last;
      if last.mountPath <= p && (rest.None? || |rest.value.mountPath| <= |last.mountPath|) then Some(last) else rest
  }

  function Resolve(ms: seq<Mount>, p: Path): Place {
    match Longest(ms, p)
    case None => InImage(p)
    case Some(m) => InVolume(m.volume, m.subPath + p[|m.mountPath|..])
  }

  function Look(d: Disk, ms: seq<Mount>, p: Path): Option<Node> {
    match Resolve(ms, p)
    case InImage(q) => if q in d.root then Some(d.root[q]) else None
    case InVolume(v, q) => if v in d.vols && q in d.vols[v] then Some(d.vols[v][q]) else None
  }

  function Put(d: Disk, ms: seq<Mount>, p: Path, n: Node): Disk {
    match Resolve(ms, p)
    case InImage(q) => d.(root := d.root[q := n])
    case InVolume(v, q) => d.(vols := d.vols[v := (if v in d.vols then d.vols[v] else map[])[q := n]])
  }

  /** A container's view of its files, as a function of the path. */
  type View = Path -> Option<Node>

  function ViewOf(d: Disk, ms: seq<Mount>): View { p => Look(d, ms, p) }

  predicate IsDir(d: Disk, ms: seq<Mount>, p: Path) { Look(d, ms, p) == Some(Dir) }

  predicate IsRegular(d: Disk, ms: seq<Mount>, p: Path) {
    Look(d, ms, p).Some? && Look(d, ms, p).value.Regular?
  }

  /** Starting a container: the runtime creates the directories above every mount point, the
      kubelet creates missing sub-path directories inside the volumes. */
  ghost function Start(d: Disk, ms: seq<Mount>): Disk {
    Disk((map q | q in MountDirs(ms) :: Dir) + d.root,
         map v | v in d.vols :: (map q | q in SubDirs(ms, v) :: Dir) + d.vols[v])
  }

  ghost function MountDirs(ms: seq<Mount>): set<Path> {
    set m, k | m in ms && 0 <= k < |m.mountPath| :: m.mountPath[..k]
  }

  ghost function SubDirs(ms: seq<Mount>, v: string): set<Path> {
    set m, k | m in ms && m.volume == v && 0 <= k <= |m.subPath| :: m.subPath[..k]
  }

  /** The runtime can create the mount points: no file of the image is in the way. */
  ghost predicate CanMount(root: Tree, ms: seq<Mount>) {
    forall q | q in MountDirs(ms) && q in root :: root[q] == Dir
  }

  /** Everything strictly below p that can be seen. */
  ghost function Under(d: Disk, ms: seq<Mount>, p: Path): set<Path> {
    set q | q in Candidates(d, ms) && p < q && Look(d, ms, q).Some?
  }

  ghost function Candidates(d: Disk, ms: seq<Mount>): set<Path> {
    d.root.Keys +
    set m, q | m in ms && m.volume in d.vols && q in d.vols[m.volume] && m.subPath <= q ::
      m.mountPath + q[|m.subPath|..]
  }

  lemma InUnder(d: Disk, ms: seq<Mount>, p: Path, q: Path)
    ensures q in Under(d, ms, p) <==> p < q && Look(d, ms, q).Some?
  {
    if Look(d, ms, q).Some? && Longest(ms, q).Some? {
      var m := Longest(ms, q).value;
      var inner := m.subPath + q[|m.mountPath|..];
      assert inner in d.vols[m.volume] && m.subPath <= inner;
      assert m.mountPath + inner[|m.subPath|..] == q;
    }
  }

  ghost predicate NonEmptyDir(d: Disk, ms: seq<Mount>, p: Path) {
    IsDir(d, ms, p) && exists q :: q in Under(d, ms, p) && |q| == |p| + 1
  }

  /** The shell's glob skips names that begin with a dot. */
  predicate HiddenName(c: string) { c != "" && c[0] == '.' }

  /** What src/ * expands to, together with everything below it. */
  ghost function Globbed(d: Disk, ms: seq<Mount>, src: Path): set<Path> {
    set q | q in Under(d, ms, src) && !HiddenName(q[|src|])
  }

  /** Creates path[..k] and everything above it; fails on a file in the way. */
  function Mkdirs(d: Disk, ms: seq<Mount>, path: Path, k: nat): Option<Disk>
    requires k <= |path|
  {
    if k == 0 then Some(d)
    else
      match Mkdirs(d, ms, path, k - 1)
      case None => None
      case Some(d1) =>
        match Look(d1, ms, path[..k])
        case None => Some(Put(d1, ms, path[..k], Dir))
        case Some(Dir) => Some(d1)
        case Some(Regular(_, _, _)) => None
  }

  /** Writing a copy: an existing file keeps its owner and mode, a new one belongs to root
      and takes the mode of the source. */
  function Copied(source: Node, target: Option<Node>): Node
    requires source.Regular?
  {
    match target
    case Some(Regular(_, owner, mode)) => Regular(source.content, owner, mode)
    case _ => Regular(source.content, ROOT_OWNER, source.mode)
  }

  function CopyFile(d: Disk, ms: seq<Mount>, src: Path, dst: Path): Option<Disk> {
    if !IsRegular(d, ms, src) || src == [] || dst == [] then None
    else
      var target := if IsDir(d, ms, dst) then dst + [src[|src| - 1]] else dst;
      if IsDir(d, ms, target) || !IsDir(d, ms, Parent(target)) then None
      else Some(Put(d, ms, target, Copied(Look(d, ms, src).value, Look(d, ms, target))))
  }

  /** One step of a recursive copy; the walk has already copied the directory above. */
  function CopyOne(d: Disk, ms: seq<Mount>, src: Path, dst: Path): Option<Disk> {
    match (Look(d, ms, src), Look(d, ms, dst))
    case (None, _) => None
    case (Some(Dir), None) => Some(Put(d, ms, dst, Dir))
    case (Some(Dir), Some(Dir)) => Some(d)
    case (Some(Dir), Some(Regular(_, _, _))) => None
    case (Some(Regular(_, _, _)), Some(Dir)) => None
    case (Some(Regular(_, _, _)), _) => Some(Put(d, ms, dst, Copied(Look(d, ms, src).value, Look(d, ms, dst))))
  }

  lemma {:induction false} TopmostExists(todo: set<Path>)
    requires todo != {}
    ensures exists q :: q in todo && forall r | r in todo :: !(r < q)
  {
    var p :| p in todo;
    if r :| r in todo && r < p {
      Shortest(todo, p);
    }
  }

  lemma {:induction false} Shortest(todo: set<Path>, p: Path)
    requires p in todo
    ensures exists q :: q in todo && forall r | r in todo :: !(r < q)
    decreases |p|
  {
    if r :| r in todo && r < p {
      Shortest(todo, r);
    }
  }

  /** Copies the given paths below src to the same places below dst, parents first and
      otherwise in an unspecified order. */
  ghost function CopyTree(d: Disk, ms: seq<Mount>, todo: set<Path>, src: Path, dst: Path): Option<Disk>
    requires forall q | q in todo :: src <= q
    decreases |todo|
  {
    if todo == {} then Some(d)
    else
      TopmostExists(todo);
      var q :| q in todo && forall r | r in todo :: !(r < q);
      match CopyOne(d, ms, q, dst + q[|src|..])
      case None => None
      case Some(d1) => CopyTree(d1, ms, todo - {q}, src, dst)
  }

  function WithOwner(n: Node, owner: string): Node {
    match n
    case Dir => Dir
    case Regular(content, _, mode) => Regular(content, owner, mode)
  }

  /** Changes the owner of the given paths, in an unspecified order. */
  ghost function OwnAll(d: Disk, ms: seq<Mount>, todo: set<Path>, owner: string): Option<Disk>
    decreases |todo|
  {
    if todo == {} then Some(d)
    else
      var q :| q in todo;
      match Look(d, ms, q)
      case None => None
      case Some(n) => OwnAll(Put(d, ms, q, WithOwner(n, owner)), ms, todo - {q}, owner)
  }

  /** One command; None is a non-zero exit status. */
  ghost function Exec(c: Command, d: Disk, ms: seq<Mount>): Option<Disk>
    decreases c
  {
    match c
    case MkdirP(path) => Mkdirs(d, ms, path, |path|)
    case Cp(src, dst) => CopyFile(d, ms, src, dst)
    case Chown(owner, path) =>
      (match Look(d, ms, path)
       case None => None
       case Some(n) => Some(Put(d, ms, path, WithOwner(n, owner))))
    case Chmod(mode, path) =>
      (match Look(d, ms, path)
       case None => None
       case Some(Dir) => Some(d)
       case Some(Regular(content, owner, _)) => Some(Put(d, ms, path, Regular(content, owner, mode))))
    case IfNonEmptyDir(dir, body) => if NonEmptyDir(d, ms, dir) then Run(body, d, ms) else Some(d)
    case CpContents(src, dst) =>
      var todo := Globbed(d, ms, src);
      // with nothing to expand to, cp is handed the pattern itself and fails
      if todo == {} || !IsDir(d, ms, dst) then None else CopyTree(d, ms, todo, src, dst)
    case ChownR(owner, path) =>
      if Look(d, ms, path).None? then None else OwnAll(d, ms, {path} + Under(d, ms, path), owner)
  }

  /** A script joined by && under set -e: it stops at the first failure. */
  ghost function Run(cs: seq<Command>, d: Disk, ms: seq<Mount>): Option<Disk>
    decreases cs
  {
    if cs == [] then Some(d)
    else
      match Exec(cs[0], d, ms)
      case None => None
      case Some(d1) => Run(cs[1..], d1, ms)
  }

  lemma {:induction false} RunConcat(a: seq<Command>, b: seq<Command>, d: Disk, ms: seq<Mount>)
    ensures Run(a + b, d, ms) ==
            match Run(a, d, ms)
            case None => None
            case Some(d1) => Run(b, d1, ms)
    decreases |a|
  {
    if a == [] {
      assert a + b == b;
    } else {
      assert (a + b)[0] == a[0] && (a + b)[1..] == a[1..] + b;
      match Exec(a[0], d, ms)
      case None =>
      case Some(d1) => RunConcat(a[1..], b, d1, ms);
    }
  }

  /** No two paths of the container lead to the same place. */
  ghost predicate Unaliased(ms: seq<Mount>) {
    forall p, q :: Resolve(ms, p) == Resolve(ms, q) ==> p == q
  }

  /** Without aliases a container's view behaves like a map. */
  lemma LookPut(d: Disk, ms: seq<Mount>, p: Path, n: Node)
    requires Unaliased(ms)
    ensures forall q :: Look(Put(d, ms, p, n), ms, q) == if q == p then Some(n) else Look(d, ms, q)
  {
  }

  /** Where path[..k] and the directories above it are. */
  predicate AboveOrAt(q: Path, path: Path, k: nat) {
    q <= path && 1 <= |q| <= k
  }

  lemma {:induction false} MkdirsLook(d: Disk, ms: seq<Mount>, path: Path, k: nat)
    requires Unaliased(ms) && k <= |path|
    requires forall r | AboveOrAt(r, path, k) :: !IsRegular(d, ms, r)
    ensures Mkdirs(d, ms, path, k).Some?
    ensures forall q :: Look(Mkdirs(d, ms, path, k).value, ms, q) ==
                        if AboveOrAt(q, path, k) then Some(Dir) else Look(d, ms, q)
  {
    if k > 0 {
      forall r | AboveOrAt(r, path, k - 1) ensures !IsRegular(d, ms, r) {
        assert AboveOrAt(r, path, k);
      }
      MkdirsLook(d, ms, path, k - 1);
      var d1, p := Mkdirs(d, ms, path, k - 1).value, path[..k];
      assert AboveOrAt(p, path, k) && !AboveOrAt(p, path, k - 1);
      LookPut(d1, ms, p, Dir);
      forall q ensures AboveOrAt(q, path, k) <==> q == p || AboveOrAt(q, path, k - 1) {
        assert |q| == k && q <= path ==> q == p;
      }
    }
  }

  lemma {:induction false} OwnAllLook(d: Disk, ms: seq<Mount>, todo: set<Path>, owner: string)
    requires Unaliased(ms)
    requires forall q | q in todo :: Look(d, ms, q).Some?
    ensures OwnAll(d, ms, todo, owner).Some?
    ensures forall q :: Look(OwnAll(d, ms, todo, owner).value, ms, q) ==
                        if q in todo then Some(WithOwner(Look(d, ms, q).value, owner)) else Look(d, ms, q)
    decreases |todo|
  {
    if todo != {} {
      var q: Path :| q in todo && OwnAll(d, ms, todo, owner) ==
                          OwnAll(Put(d, ms, q, WithOwner(Look(d, ms, q).value, owner)), ms, todo - {q}, owner);
      var n := WithOwner(Look(d, ms, q).value, owner);
      var d1 := Put(d, ms, q, n);
      LookPut(d, ms, q, n);
      forall r | r in todo - {q} ensures Look(d1, ms, r).Some? { assert Look(d1, ms, r) == Look(d, ms, r); }
      OwnAllLook(d1, ms, todo - {q}, owner);
      var d2 := OwnAll(d1, ms, todo - {q}, owner).value;
      forall r ensures Look(d2, ms, r) == if r in todo then Some(WithOwner(Look(d, ms, r).value, owner))
          else Look(d, ms, r) {
        assert r !in todo - {q} ==> Look(d2, ms, r) == Look(d1, ms, r);
        assert r != q ==> Look(d1, ms, r) == Look(d, ms, r);
      }
    }
  }
}
