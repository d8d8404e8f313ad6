/** A heap of instances is a world of groups: whatever is called on one of them, the heap goes on
    to represent a world, and it is the next one of a run. So what holds of every run holds of
    every sequence of calls. */
module Refinement {

  import opened Wrappers
  import opened Text
  import opened Cluster
  import opened Lifecycle
  import opened Runs
  import opened Worlds
  import opened Services
  import opened Ledgers
  import opened Instances

  // ---------------------------------------------------------------- families

  /** An instance that is nobody's sidecar. */
  ghost predicate IsRoot(i: Instance)
    reads i.sys`all, i.sys`ledger
  {
    i in i.sys.all && i in i.sys.ledger.entries && i !in i.sys.ledger.owner
  }

  lemma SidecarIs(i: Instance, s: Instance)
    requires i.sys.Valid() && i.sys.Stored() && i in i.sys.all && s in i.sidecars
    ensures s in i.sys.all && s.sys == i.sys && s in i.sys.ledger.owner && i.sys.ledger.owner[s] == i
  {
    i.SidecarBelow(s);
    i.sys.Open();
    assert i.sys.ledger.entries[i] == i.Entry();
  }

  /** An instance, its sidecars and theirs. */
  ghost function Family(i: Instance): set<Instance>
    reads i`sidecars, i.sidecars`sidecars
  {
    {i} + (set s | s in i.sidecars) + Kids(i.sidecars)
  }

  lemma FamilyIs(j: Instance, o: Instance)
    requires j.sys.Valid() && j.sys.Stored() && IsRoot(j) && o in Family(j)
    ensures o in j.sys.all
    ensures o == j || (o in j.sys.ledger.owner &&
              (j.sys.ledger.owner[o] == j || (j.sys.ledger.owner[o] in j.sys.ledger.owner
                && j.sys.ledger.owner[j.sys.ledger.owner[o]] == j)))
  {
    if o in j.sidecars { SidecarIs(j, o); }
    if o in Kids(j.sidecars) {
      var s :| s in j.sidecars && o in s.sidecars;
      SidecarIs(j, s);
      SidecarIs(s, o);
    }
  }

  /** Two roots have nobody in common. */
  lemma FamiliesApart(i: Instance, j: Instance)
    requires i.sys == j.sys && i.sys.Valid() && i.sys.Stored() && IsRoot(i) && IsRoot(j) && i != j
    ensures i !in Family(j) && forall s | s in i.sidecars :: s !in Family(j)
  {
    if i in Family(j) { FamilyIs(j, i); }
    forall s | s in i.sidecars ensures s !in Family(j) {
      SidecarIs(i, s);
      if s in Family(j) { FamilyIs(j, s); }
    }
  }

  /** An instance is not below itself. */
  ghost predicate OnTop(i: Instance)
    reads i`sidecars, i.sidecars`sidecars, i.sys`all
  {
    i !in i.sidecars && i !in Kids(i.sidecars) && Family(i) <= i.sys.all
  }

  lemma RootOnTop(i: Instance)
    requires i.sys.Valid() && i.sys.Stored() && IsRoot(i)
    ensures OnTop(i)
  {
    if i in i.sidecars { SidecarIs(i, i); }
    if i in Kids(i.sidecars) {
      var s :| s in i.sidecars && i in s.sidecars;
      SidecarIs(i, s);
      SidecarIs(s, i);
    }
    forall o | o in Family(i) ensures o in i.sys.all { FamilyIs(i, o); }
  }

  // ---------------------------------------------------------------- groups

  /** The given instances, one after another. */
  ghost function OwnOf(ss: seq<Instance>): (ms: seq<Member>)
    reads ss, Kids(ss)
    ensures |ms| == |ss| && forall k | 0 <= k < |ss| :: ms[k] == ss[k].Own()
  {
    if ss == [] then [] else
      assert forall s | s in ss[..|ss| - 1] :: s in ss;
      OwnOf(ss[..|ss| - 1]) + [ss[|ss| - 1].Own()]
  }

  /** The group an instance is, with its sidecars. */
  ghost function GroupOf(i: Instance): Group
    reads i, i.sidecars, Kids(i.sidecars)
  {
    Group(i.Own(), OwnOf(i.sidecars))
  }

  lemma ShownIs(i: Instance, g: Group)
    ensures i.Shows(g) <==> GroupOf(i) == g
  {
  }

  twostate lemma {:induction false} SamePortsOf(ss: seq<Instance>)
    requires forall k | 0 <= k < |ss| :: unchanged(ss[k])
    ensures TcpOf(ss) == old(TcpOf(ss)) && UdpOf(ss) == old(UdpOf(ss))
  {
    if ss != [] { SamePortsOf(ss[..|ss| - 1]); }
  }

  twostate lemma SameOwn(j: Instance)
    requires unchanged(j)
    requires forall k | 0 <= k < |j.sidecars| :: unchanged(j.sidecars[k])
    ensures j.Own() == old(j.Own())
  {
    SamePortsOf(j.sidecars);
  }

  /** The sidecars are what they were, if only the instance itself has changed. */
  twostate lemma SameSidecars(j: Instance)
    requires old(OnTop(j)) && forall o | o in old(j.sys.all) && o != j :: unchanged(o)
    ensures OwnOf(old(j.sidecars)) == old(OwnOf(j.sidecars))
    ensures TcpOf(old(j.sidecars)) == old(TcpOf(j.sidecars)) && UdpOf(old(j.sidecars)) == old(UdpOf(j.sidecars))
  {
    var ss := old(j.sidecars);
    forall k | 0 <= k < |ss| ensures unchanged(ss[k]) { assert ss[k] in old(Family(j)); }
    SamePortsOf(ss);
    forall k | 0 <= k < |ss| ensures ss[k].Own() == old(ss[k].Own()) {
      var s := ss[k];
      forall l | 0 <= l < |s.sidecars| ensures unchanged(s.sidecars[l]) { assert s.sidecars[l] in old(Family(j)); }
      SameOwn(s);
    }
  }

  /** Name, state and image are all that has changed of an instance. */
  twostate lemma Rebuilt(i: Instance)
    requires old(OnTop(i)) && forall o | o in old(i.sys.all) && o != i :: unchanged(o)
    requires unchanged(i`isSidecar) && unchanged(i`command) && unchanged(i`args) && unchanged(i`env)
    requires unchanged(i`volumes) && unchanged(i`files) && unchanged(i`portsTCP) && unchanged(i`portsUDP)
    requires unchanged(i`policyRules) && unchanged(i`hasService) && unchanged(i`sidecars)
    ensures GroupOf(i) ==
            old(GroupOf(i)).(self := old(i.Own()).(name := i.name, state := i.state, image := i.imageName))
  {
    SameSidecars(i);
  }

  /** An instance is the group it was, if nobody in its family has changed. */
  twostate lemma SameGroup(j: Instance)
    requires forall o | o in old(Family(j)) :: unchanged(o)
    ensures GroupOf(j) == old(GroupOf(j))
  {
    assert j in old(Family(j));
    forall k | 0 <= k < |j.sidecars| ensures unchanged(j.sidecars[k]) { assert j.sidecars[k] in old(Family(j)); }
    SameOwn(j);
    forall k | 0 <= k < |j.sidecars| ensures j.sidecars[k].Own() == old(j.sidecars[k].Own()) {
      var s := j.sidecars[k];
      forall l | 0 <= l < |s.sidecars| ensures unchanged(s.sidecars[l]) { assert s.sidecars[l] in old(Family(j)); }
      SameOwn(s);
    }
  }

  // ---------------------------------------------------------------- worlds

  /** The roots are different instances that nobody owns. */
  ghost predicate AreRoots(sys: SystemDependencies, roots: seq<Instance>)
    reads sys`all, sys`ledger
  {
    Distinct(roots) && forall i | i in roots :: i.sys == sys && IsRoot(i)
  }

  /** The books are in order, and the cluster and the roots are those of the world. */
  ghost predicate Represents(sys: SystemDependencies, roots: seq<Instance>, w: World)
    reads *
  {
    && sys.Valid() && sys.Stored() && AreRoots(sys, roots)
    && sys.client.api.objs == w.objs && sys.client.api.missed == w.missed && |w.groups| == |roots|
    && forall k | 0 <= k < |roots| :: GroupOf(roots[k]) == w.groups[k]
  }

  /** Nobody in another root's family is root k or one of its sidecars. */
  ghost predicate Alone(sys: SystemDependencies, roots: seq<Instance>, k: nat)
    requires k < |roots|
    reads *
  {
    forall j | 0 <= j < |roots| && j != k ::
      forall o | o in Family(roots[j]) :: o in sys.all && o != roots[k] && o !in roots[k].sidecars
  }

  lemma OthersApart(sys: SystemDependencies, roots: seq<Instance>, k: nat)
    requires sys.Valid() && sys.Stored() && AreRoots(sys, roots) && k < |roots|
    ensures roots[k].sys == sys && IsRoot(roots[k]) && Alone(sys, roots, k)
  {
    assert roots[k] in roots;
    forall j | 0 <= j < |roots| && j != k
      ensures forall o | o in Family(roots[j]) :: o in sys.all && o != roots[k] && o !in roots[k].sidecars
    {
      assert roots[j] in roots && roots[k] in roots && roots[j] != roots[k];
      FamiliesApart(roots[k], roots[j]);
      forall o | o in Family(roots[j]) ensures o in sys.all { FamilyIs(roots[j], o); }
    }
  }

  /** If only one root and its sidecars have changed, the others are the groups they were. */
  twostate lemma OthersSame(sys: SystemDependencies, new roots: seq<Instance>, new k: nat)
    requires old(allocated(roots)) && k < |roots| && old(Alone(sys, roots, k))
    requires forall o | o in old(sys.all) && o != roots[k] && o !in old(roots[k].sidecars) :: unchanged(o)
    ensures forall j | 0 <= j < |roots| && j != k :: GroupOf(roots[j]) == old(GroupOf(roots[j]))
  {
    GroupsSame(roots, k, |roots|);
  }

  twostate lemma {:induction false} GroupsSame(roots: seq<Instance>, new k: nat, new n: nat)
    requires n <= |roots|
    requires forall j, o | 0 <= j < n && j != k && o in old(Family(roots[j])) :: unchanged(o)
    ensures forall j | 0 <= j < n && j != k :: GroupOf(roots[j]) == old(GroupOf(roots[j]))
  {
    if n > 0 {
      GroupsSame(roots, k, n - 1);
      if n - 1 != k { SameGroup(roots[n - 1]); }
    }
  }

  lemma RootsStayed(sys: SystemDependencies, roots: seq<Instance>, before: Ledger<Instance, BuilderFactory>)
    requires sys.Valid() && RootsStay(before, sys.ledger) && Distinct(roots)
    requires forall i | i in roots :: i.sys == sys && i in before.entries && i !in before.owner
    ensures AreRoots(sys, roots)
  {
    sys.Open();
  }

  /** The world after a call on root k. */
  ghost function Next(sys: SystemDependencies, w: World, k: nat, h: Group): World
    requires k < |w.groups|
    reads sys.client
  {
    World(sys.client.api.objs, sys.client.api.missed, w.groups[k := h])
  }

  lemma NextIs(sys: SystemDependencies, w: World, k: nat, op: Op, before: Api, h: Group, err: Option<Error>)
    requires before.objs == w.objs && before.missed == w.missed && k < |w.groups|
    requires op.OpAddSidecar? ==> op.sidecar.name !in w.Names()
    requires Effect(sys.client.api, h, err) == Apply(before, w.groups[k], op, sys.disk)
    ensures Next(sys, w, k, h) == Step(w, Act(k, op, before.script, sys.disk))
  {
    assert w.Api(before.script) == before;
  }

  /** After a call that has changed only root k and its sidecars, and made nobody a sidecar that was
      a root, the heap represents the world in which group k has changed. */
  twostate lemma Follows(sys: SystemDependencies, new roots: seq<Instance>, new w: World, new k: nat, new h: Group)
    requires old(allocated(roots)) && old(Represents(sys, roots, w)) && k < |roots| && old(Alone(sys, roots, k))
    requires sys.Valid() && sys.Stored() && RootsStay(old(sys.ledger), sys.ledger) && GroupOf(roots[k]) == h
    requires forall o | o in old(sys.all) && o != roots[k] && o !in old(roots[k].sidecars) :: unchanged(o)
    ensures Represents(sys, roots, Next(sys, w, k, h))
  {
    OthersSame(sys, roots, k);
    RootsStayed(sys, roots, old(sys.ledger));
  }

  // ---------------------------------------------------------------- the lifecycle

  method Start(sys: SystemDependencies, i: Instance, ghost roots: seq<Instance>, ghost k: nat, ghost w: World)
    returns (err: Option<Error>, ghost v: World)
    requires Represents(sys, roots, w) && k < |roots| && i == roots[k]
    modifies i`state, i`hasService, i.sidecars`state, i.sidecars`hasService, sys.client, sys`ledger
    ensures Represents(sys, roots, v)
    ensures v == Step(w, Act(k, OpStart, old(sys.client.api.script), sys.disk))
  {
    OthersApart(sys, roots, k);
    ShownIs(i, w.groups[k]);
    ghost var h;
    err, h := i.StartAsync(w.groups[k]);
    v := Next(sys, w, k, h);
    assert v == Step(w, Act(k, OpStart, old(sys.client.api.script), sys.disk)) by {
      NextIs(sys, w, k, OpStart, old(sys.client.api), h, err);
    }
    ShownIs(i, h);
    Follows(sys, roots, w, k, h);
  }

  method Stop(sys: SystemDependencies, i: Instance, ghost roots: seq<Instance>, ghost k: nat, ghost w: World)
    returns (err: Option<Error>, ghost v: World)
    requires Represents(sys, roots, w) && k < |roots| && i == roots[k]
    modifies i`state, i.sidecars`state, sys.client, sys`ledger
    ensures Represents(sys, roots, v)
    ensures v == Step(w, Act(k, OpStop, old(sys.client.api.script), sys.disk))
  {
    OthersApart(sys, roots, k);
    ShownIs(i, w.groups[k]);
    ghost var h;
    err, h := i.Stop(w.groups[k]);
    v := Next(sys, w, k, h);
    assert v == Step(w, Act(k, OpStop, old(sys.client.api.script), sys.disk)) by {
      NextIs(sys, w, k, OpStop, old(sys.client.api), h, err);
    }
    ShownIs(i, h);
    Follows(sys, roots, w, k, h);
  }

  method Destroy(sys: SystemDependencies, i: Instance, ghost roots: seq<Instance>, ghost k: nat, ghost w: World)
    returns (err: Option<Error>, ghost v: World)
    requires Represents(sys, roots, w) && k < |roots| && i == roots[k]
    modifies i`state, i.sidecars`state, sys.client, sys`ledger
    ensures Represents(sys, roots, v)
    ensures v == Step(w, Act(k, OpDestroy, old(sys.client.api.script), sys.disk))
  {
    OthersApart(sys, roots, k);
    ShownIs(i, w.groups[k]);
    ghost var h;
    err, h := i.Destroy(w.groups[k]);
    v := Next(sys, w, k, h);
    assert v == Step(w, Act(k, OpDestroy, old(sys.client.api.script), sys.disk)) by {
      NextIs(sys, w, k, OpDestroy, old(sys.client.api), h, err);
    }
    ShownIs(i, h);
    Follows(sys, roots, w, k, h);
  }

  method DisableNetwork(sys: SystemDependencies, i: Instance, ghost roots: seq<Instance>, ghost k: nat, ghost w: World)
    returns (err: Option<Error>, ghost v: World)
    requires Represents(sys, roots, w) && k < |roots| && i == roots[k]
    modifies sys.client
    ensures Represents(sys, roots, v)
    ensures v == Step(w, Act(k, OpDisable, old(sys.client.api.script), sys.disk))
  {
    OthersApart(sys, roots, k);
    ghost var h := w.groups[k];
    ShownIs(i, h);
    err := i.DisableNetwork(h);
    v := Next(sys, w, k, h);
    Follows(sys, roots, w, k, h);
    NextIs(sys, w, k, OpDisable, old(sys.client.api), h, err);
  }

  method EnableNetwork(sys: SystemDependencies, i: Instance, ghost roots: seq<Instance>, ghost k: nat, ghost w: World)
    returns (err: Option<Error>, ghost v: World)
    requires Represents(sys, roots, w) && k < |roots| && i == roots[k]
    modifies sys.client
    ensures Represents(sys, roots, v)
    ensures v == Step(w, Act(k, OpEnable, old(sys.client.api.script), sys.disk))
  {
    OthersApart(sys, roots, k);
    ghost var h := w.groups[k];
    ShownIs(i, h);
    err := i.EnableNetwork(h);
    v := Next(sys, w, k, h);
    Follows(sys, roots, w, k, h);
    NextIs(sys, w, k, OpEnable, old(sys.client.api), h, err);
  }

  // ---------------------------------------------------------------- building

  /** The cluster is that of the world still. */
  ghost predicate SameCluster(sys: SystemDependencies, w: World)
    reads sys.client
  {
    sys.client.api.objs == w.objs && sys.client.api.missed == w.missed
  }

  lemma SetImageNext(sys: SystemDependencies, w: World, k: nat)
    requires SameCluster(sys, w) && k < |w.groups|
    requires var s := w.groups[k].self.state; s == StateNone || s == StatePreparing || s == StateStopped
    ensures var g := w.groups[k];
            Step(w, Act(k, OpSetImage, sys.client.api.script, sys.disk)) ==
            Next(sys, w, k, g.(self := g.self.(state := StatePreparing)))
  {
  }

  lemma CommitNext(sys: SystemDependencies, w: World, k: nat, image: string)
    requires SameCluster(sys, w) && k < |w.groups| && w.groups[k].self.state == StatePreparing
    ensures var g := w.groups[k];
            Step(w, Act(k, OpCommit(image), sys.client.api.script, sys.disk)) ==
            Next(sys, w, k, g.(self := g.self.(state := StateCommitted, image := image)))
  {
  }

  /** A group in another state, perhaps with another image. */
  ghost function Built(g: Group, s: State, image: string): Group { g.(self := g.self.(state := s, image := image)) }

  /** What SetImage does to the group it is called on. */
  method SetImageHere(i: Instance, image: string, tempDir: bool, contextDir: bool) returns (err: Option<Error>)
    requires i.sys.Valid() && i.sys.Stored() && IsRoot(i)
    modifies i`state, i`factory, i.sys`ledger
    ensures i.sys.Valid() && i.sys.Stored() && RootsStay(old(i.sys.ledger), i.sys.ledger)
    ensures err.None? ==> old(i.CanSetImage()) && GroupOf(i) == Built(old(GroupOf(i)), StatePreparing, i.imageName)
    ensures err.Some? ==> GroupOf(i) == old(GroupOf(i))
  {
    RootOnTop(i);
    err := i.SetImage(image, tempDir, contextDir);
    i.sys.StoredFramed();
    Rebuilt(i);
  }

  method SetImage(sys: SystemDependencies, i: Instance, ghost roots: seq<Instance>, ghost k: nat, ghost w: World,
      image: string, tempDir: bool, contextDir: bool)
    returns (err: Option<Error>, ghost v: World)
    requires Represents(sys, roots, w) && k < |roots| && i == roots[k]
    modifies i`state, i`factory, sys`ledger
    ensures Represents(sys, roots, v)
    ensures v == if err.Some? then w else Step(w, Act(k, OpSetImage, sys.client.api.script, sys.disk))
  {
    OthersApart(sys, roots, k);
    err := SetImageHere(i, image, tempDir, contextDir);
    v := Next(sys, w, k, GroupOf(i));
    Follows(sys, roots, w, k, GroupOf(i));
    if err.None? { SetImageNext(sys, w, k); }
  }

  /** What Commit does to the group it is called on. */
  method CommitHere(i: Instance, context: string, hashes: bool, builds: bool) returns (err: Option<Error>)
    requires i.sys.Valid() && i.sys.Stored() && IsRoot(i)
    modifies i`state, i`imageName, i`imageCache, i.Builder()`imageNameTo, i.sys`pushed, i.sys`ledger
    ensures i.sys.Valid() && i.sys.Stored() && RootsStay(old(i.sys.ledger), i.sys.ledger)
    ensures err.None? ==>
              old(i.state) == StatePreparing && GroupOf(i) == Built(old(GroupOf(i)), StateCommitted, i.imageName)
    ensures err.Some? ==> GroupOf(i) == old(GroupOf(i))
  {
    RootOnTop(i);
    err := i.Commit(context, hashes, builds);
    Rebuilt(i);
  }

  method Commit(sys: SystemDependencies, i: Instance, ghost roots: seq<Instance>, ghost k: nat, ghost w: World,
      context: string, hashes: bool, builds: bool)
    returns (err: Option<Error>, ghost v: World)
    requires Represents(sys, roots, w) && k < |roots| && i == roots[k]
    modifies i`state, i`imageName, i`imageCache, i.Builder()`imageNameTo, sys`pushed, sys`ledger
    ensures Represents(sys, roots, v)
    ensures v == if err.Some? then w else Step(w, Act(k, OpCommit(i.imageName), sys.client.api.script, sys.disk))
  {
    OthersApart(sys, roots, k);
    err := CommitHere(i, context, hashes, builds);
    v := Next(sys, w, k, GroupOf(i));
    Follows(sys, roots, w, k, GroupOf(i));
    if err.None? { CommitNext(sys, w, k, i.imageName); }
  }

  // ---------------------------------------------------------------- configuring

  lemma ConfigureNext(sys: SystemDependencies, w: World, k: nat, m: Member)
    requires SameCluster(sys, w) && k < |w.groups| && MemberGrown(w.groups[k].self, m)
    ensures var h := w.groups[k].(self := m);
            Step(w, Act(k, OpConfigure(h), sys.client.api.script, sys.disk)) == Next(sys, w, k, h)
  {
  }

  /** A setter that only adds to one root is OpConfigure. */
  twostate lemma Configured(sys: SystemDependencies, new roots: seq<Instance>, new w: World, new k: nat)
    requires old(allocated(roots)) && old(Represents(sys, roots, w)) && k < |roots| && old(Alone(sys, roots, k))
    requires sys.Valid() && sys.Stored() && unchanged(sys`ledger) && SameCluster(sys, w)
    requires old(roots[k].sys == sys && OnTop(roots[k])) && MemberGrown(w.groups[k].self, roots[k].Own())
    requires roots[k].sidecars == old(roots[k].sidecars)
    requires forall o | o in old(sys.all) && o != roots[k] :: unchanged(o)
    ensures var h := GroupOf(roots[k]);
            && Represents(sys, roots, Next(sys, w, k, h))
            && Next(sys, w, k, h) == Step(w, Act(k, OpConfigure(h), sys.client.api.script, sys.disk))
  {
    SameSidecars(roots[k]);
    Follows(sys, roots, w, k, GroupOf(roots[k]));
    ConfigureNext(sys, w, k, roots[k].Own());
  }

  method AddFile(sys: SystemDependencies, i: Instance, ghost roots: seq<Instance>, ghost k: nat, ghost w: World,
      src: string, content: Option<string>, dest: Path, chown: string, permission: string, copied: bool, path: string)
    returns (err: Option<Error>, ghost v: World)
    requires Represents(sys, roots, w) && k < |roots| && i == roots[k] && path !in sys.disk
    modifies i`files, sys`disk, i.Builder()`instructions
    ensures Represents(sys, roots, v)
    ensures v == Step(w, Act(k, OpConfigure(GroupOf(i)), sys.client.api.script, sys.disk))
  {
    OthersApart(sys, roots, k);
    RootOnTop(i);
    err := i.AddFile(src, content, dest, chown, permission, copied, path);
    v := Next(sys, w, k, GroupOf(i));
    Configured(sys, roots, w, k);
  }

  // ---------------------------------------------------------------- names

  /** A name of a group is that of the instance or one of its sidecars. */
  lemma NameOf(i: Instance, n: string) returns (o: Instance)
    requires i.sys.Valid() && i.sys.Stored() && IsRoot(i) && n in GroupOf(i).Names()
    ensures o in i.sys.all && o.name == n && (o == i || o in i.sidecars)
  {
    MemberNames(GroupOf(i), n);
    if n == i.name {
      o := i;
    } else {
      var k :| 0 <= k < |i.sidecars| && GroupOf(i).sidecars[k].name == n;
      o := i.sidecars[k];
      SidecarIs(i, o);
    }
  }

  lemma NamesApart(i: Instance, j: Instance)
    requires i.sys == j.sys && i.sys.Valid() && i.sys.Stored() && IsRoot(i) && IsRoot(j) && i != j
    ensures GroupOf(i).Names() !! GroupOf(j).Names()
  {
    FamiliesApart(i, j);
    forall n | n in GroupOf(i).Names() ensures n !in GroupOf(j).Names() {
      if n in GroupOf(j).Names() {
        var o := NameOf(i, n);
        var p := NameOf(j, n);
        i.sys.NamesDiffer(o, p);
      }
    }
  }

  /** Within a group the names are distinct because the registry gave them out. */
  lemma NamesDistinct(i: Instance)
    requires i.sys.Valid() && i.sys.Stored() && IsRoot(i)
    ensures DistinctMembers(GroupOf(i))
  {
    var h := GroupOf(i);
    i.SidecarsApart();
    i.Together();
    forall k | 0 <= k < |h.sidecars| ensures h.sidecars[k].name != h.self.name {
      i.sys.NamesDiffer(i.sidecars[k], i);
    }
    forall k, l | 0 <= k < l < |h.sidecars| ensures h.sidecars[k].name != h.sidecars[l].name {
      i.sys.NamesDiffer(i.sidecars[k], i.sidecars[l]);
    }
  }

  /** All names of the world are registered. */
  lemma NamesRegistered(sys: SystemDependencies, roots: seq<Instance>, w: World)
    requires Represents(sys, roots, w)
    ensures w.Names() <= sys.instancesMap
  {
    sys.RegistryHolds();
    forall n | n in w.Names() ensures n in sys.instancesMap {
      var j :| 0 <= j < |w.groups| && n in w.groups[j].Names();
      assert roots[j] in roots;
      var o := NameOf(roots[j], n);
    }
  }

  /** What SetName does to the group it is called on. */
  method SetNameHere(i: Instance, newName: string) returns (err: Option<Error>)
    requires i.sys.Valid() && i.sys.Stored() && IsRoot(i)
    modifies i`name, i.sys`instancesMap, i.sys`all, i.sys`ledger
    ensures i.sys.Valid() && i.sys.Stored() && RootsStay(old(i.sys.ledger), i.sys.ledger)
    ensures err.None? ==> i.name !in old(i.sys.instancesMap) && GroupOf(i) == Renamed(old(GroupOf(i)), 0, i.name)
    ensures err.Some? ==> GroupOf(i) == old(GroupOf(i))
  {
    RootOnTop(i);
    err := i.ChangeName(newName);
    i.sys.StoredFramed();
    Rebuilt(i);
  }

  lemma SetNameNext(sys: SystemDependencies, w: World, k: nat, name: string)
    requires SameCluster(sys, w) && k < |w.groups| && name !in w.Names()
    ensures Step(w, Rename(k, 0, name)) == Next(sys, w, k, Renamed(w.groups[k], 0, name))
  {
  }

  method SetName(sys: SystemDependencies, i: Instance, ghost roots: seq<Instance>, ghost k: nat, ghost w: World,
      newName: string)
    returns (err: Option<Error>, ghost v: World)
    requires Represents(sys, roots, w) && k < |roots| && i == roots[k]
    modifies i`name, sys`instancesMap, sys`all, sys`ledger
    ensures Represents(sys, roots, v) && (err.None? ==> i.name !in w.Names())
    ensures v == if err.Some? then w else Step(w, Rename(k, 0, i.name))
  {
    OthersApart(sys, roots, k);
    NamesRegistered(sys, roots, w);
    err := SetNameHere(i, newName);
    v := Next(sys, w, k, GroupOf(i));
    Follows(sys, roots, w, k, GroupOf(i));
    if err.None? { SetNameNext(sys, w, k, i.name); }
  }

  // ---------------------------------------------------------------- sidecars

  /** What an instance was before s joined its sidecars. */
  ghost function Without(i: Instance, before: seq<Instance>): Member
    reads i, i.sidecars, before
  {
    i.Own().(serviceTcp := i.portsTCP + TcpOf(before), serviceUdp := i.portsUDP + UdpOf(before))
  }

  lemma OneMore(i: Instance, before: seq<Instance>, s: Instance)
    requires i.sidecars == before + [s]
    ensures GroupOf(i) == WithSidecar(Group(Without(i, before), OwnOf(before)), s.Own())
  {
    assert (before + [s])[..|before|] == before;
    assert i.portsTCP + (TcpOf(before) + s.portsTCP) == (i.portsTCP + TcpOf(before)) + s.portsTCP;
    assert i.portsUDP + (UdpOf(before) + s.portsUDP) == (i.portsUDP + UdpOf(before)) + s.portsUDP;
  }

  /** One more sidecar is all that has changed of an instance. */
  twostate lemma Extended(i: Instance, new s: Instance)
    requires old(OnTop(i)) && forall o | o in old(i.sys.all) && o != i :: unchanged(o)
    requires unchanged(i`name) && unchanged(i`state) && unchanged(i`isSidecar) && unchanged(i`imageName)
    requires unchanged(i`command) && unchanged(i`args) && unchanged(i`env) && unchanged(i`volumes) && unchanged(i`files)
    requires unchanged(i`portsTCP) && unchanged(i`portsUDP) && unchanged(i`policyRules) && unchanged(i`hasService)
    requires i.sidecars == old(i.sidecars) + [s]
    ensures GroupOf(i) == WithSidecar(old(GroupOf(i)), s.Own())
  {
    SameSidecars(i);
    OneMore(i, old(i.sidecars), s);
  }

  /** What adding a sidecar does to the group it is called on. */
  method AddSidecarHere(i: Instance, suffix: string, image: string, port: int, tempDir: bool, contextDir: bool)
    returns (s: Instance?, err: Option<Error>)
    requires i.sys.Valid() && i.sys.Stored() && IsRoot(i)
    modifies i`sidecars, i.sys`instancesMap, i.sys`all, i.sys`ledger, i.sys`pushed
    ensures i.sys.Valid() && i.sys.Stored() && RootsStay(old(i.sys.ledger), i.sys.ledger) && (err.None? <==> s != null)
    ensures err.None? ==>
              && GroupOf(i) == WithSidecar(old(GroupOf(i)), s.Own()) && s.state == StateCommitted && !s.hasService
              && old(i.CanConfigure()) && !i.isSidecar
    ensures err.Some? ==> GroupOf(i) == old(GroupOf(i))
  {
    RootOnTop(i);
    s, err := i.AddManaged(suffix, image, port, tempDir, contextDir);
    if s != null { Extended(i, s); } else { Rebuilt(i); }
  }

  lemma AddSidecarNext(sys: SystemDependencies, w: World, k: nat, m: Member)
    requires SameCluster(sys, w) && k < |w.groups| && m.name !in w.Names()
    requires Configurable(w.groups[k].self.state) && !w.groups[k].self.isSidecar
    requires m.state == StateCommitted && !m.hasService
    ensures Step(w, Act(k, OpAddSidecar(m), sys.client.api.script, sys.disk)) ==
            Next(sys, w, k, WithSidecar(w.groups[k], m))
  {
  }

  /** The name of a sidecar that was added is new to the world. */
  lemma SidecarNameNew(sys: SystemDependencies, roots: seq<Instance>, w: World, k: nat, m: Member)
    requires k < |w.groups| && Represents(sys, roots, Next(sys, w, k, WithSidecar(w.groups[k], m)))
    ensures m.name !in w.Names()
  {
    var g, h := w.groups[k], WithSidecar(w.groups[k], m);
    assert roots[k] in roots && GroupOf(roots[k]) == h;
    NamesDistinct(roots[k]);
    MemberNames(h, m.name);
    MemberNames(g, m.name);
    assert h.sidecars[|g.sidecars|] == m && forall l | 0 <= l < |g.sidecars| :: h.sidecars[l] == g.sidecars[l];
    forall j | 0 <= j < |w.groups| ensures m.name !in w.groups[j].Names() {
      if j != k {
        assert roots[j] in roots && GroupOf(roots[j]) == w.groups[j];
        NamesApart(roots[j], roots[k]);
      }
    }
  }

  method AddSidecar(sys: SystemDependencies, i: Instance, ghost roots: seq<Instance>, ghost k: nat, ghost w: World,
      suffix: string, image: string, port: int, tempDir: bool, contextDir: bool)
    returns (s: Instance?, err: Option<Error>, ghost v: World)
    requires Represents(sys, roots, w) && k < |roots| && i == roots[k]
    modifies i`sidecars, sys`instancesMap, sys`all, sys`ledger, sys`pushed
    ensures Represents(sys, roots, v) && (err.None? <==> s != null) && (err.None? ==> s.Own().name !in w.Names())
    ensures v == if err.Some? then w else Step(w, Act(k, OpAddSidecar(s.Own()), sys.client.api.script, sys.disk))
  {
    OthersApart(sys, roots, k);
    s, err := AddSidecarHere(i, suffix, image, port, tempDir, contextDir);
    v := Next(sys, w, k, GroupOf(i));
    Follows(sys, roots, w, k, GroupOf(i));
    if s != null {
      SidecarNameNew(sys, roots, w, k, s.Own());
      AddSidecarNext(sys, w, k, s.Own());
    }
  }

  // ---------------------------------------------------------------- new instances and clones

  ghost predicate Known(sys: SystemDependencies, roots: seq<Instance>)
    reads *
  {
    forall j | 0 <= j < |roots| :: Family(roots[j]) <= sys.all
  }

  lemma AllKnown(sys: SystemDependencies, roots: seq<Instance>)
    requires sys.Valid() && sys.Stored() && AreRoots(sys, roots)
    ensures Known(sys, roots)
  {
    forall j | 0 <= j < |roots| ensures Family(roots[j]) <= sys.all {
      assert roots[j] in roots;
      forall o | o in Family(roots[j]) ensures o in sys.all { FamilyIs(roots[j], o); }
    }
  }

  /** If nobody has changed, the heap represents the world it did. */
  twostate lemma Stays(sys: SystemDependencies, new roots: seq<Instance>, new w: World)
    requires old(allocated(roots)) && old(Represents(sys, roots, w)) && old(Known(sys, roots))
    requires sys.Valid() && sys.Stored() && RootsStay(old(sys.ledger), sys.ledger) && SameCluster(sys, w)
    requires forall o | o in old(sys.all) :: unchanged(o)
    ensures Represents(sys, roots, w)
  {
    GroupsSame(roots, |roots|, |roots|);
    RootsStayed(sys, roots, old(sys.ledger));
  }

  ghost function WithGroup(w: World, h: Group): World { w.(groups := w.groups + [h]) }

  /** A root that nobody knew joins the world. */
  lemma NewcomerRepresented(sys: SystemDependencies, roots: seq<Instance>, w: World, r: Instance)
    requires Represents(sys, roots, w) && r.sys == sys && IsRoot(r) && r !in roots
    ensures Represents(sys, roots + [r], WithGroup(w, GroupOf(r)))
  {
  }

  /** Under names of its own it joins a run. */
  lemma NewcomerJoins(sys: SystemDependencies, roots: seq<Instance>, w: World, r: Instance)
    requires Represents(sys, roots, w) && r.sys == sys && IsRoot(r) && r !in roots && Newborn(GroupOf(r))
    ensures Step(w, Join(GroupOf(r))) == WithGroup(w, GroupOf(r))
  {
    forall n | n in w.Names() ensures n !in GroupOf(r).Names() {
      var j :| 0 <= j < |w.groups| && n in w.groups[j].Names();
      assert roots[j] in roots && GroupOf(roots[j]) == w.groups[j];
      NamesApart(roots[j], r);
    }
  }

  lemma BlankNewborn(r: Instance)
    requires r.sys.Valid() && r.sys.Stored() && IsRoot(r) && r.Blank(r.sys)
    ensures Newborn(GroupOf(r))
  {
    NamesDistinct(r);
    assert r.Settings().state == StateNone;
  }

  method New(sys: SystemDependencies, ghost roots: seq<Instance>, ghost w: World, newName: string)
    returns (r: Instance?, err: Option<Error>, ghost v: World)
    requires Represents(sys, roots, w)
    modifies sys`instancesMap, sys`all, sys`ledger
    ensures err.None? <==> r != null
    ensures if r == null then v == w && Represents(sys, roots, w)
            else v == Step(w, Join(GroupOf(r))) && Newborn(GroupOf(r)) && Represents(sys, roots + [r], v)
  {
    AllKnown(sys, roots);
    r, err := Instance.New(sys, newName);
    v := w;
    Stays(sys, roots, w);
    if r != null {
      BlankNewborn(r);
      NewcomerJoins(sys, roots, w, r);
      v := WithGroup(w, GroupOf(r));
      NewcomerRepresented(sys, roots, w, r);
    }
  }

  lemma CopyOwn(c: Instance, i: Instance)
    requires c.CopyOf(i) && c.PortsBelow(i)
    ensures c.Own() == i.Own().Cloned(c.name)
  {
  }

  lemma CopyGroup(r: Instance, i: Instance, newName: string)
    requires i.IsCopy(r, newName)
    ensures ClonedGroup(GroupOf(i), GroupOf(r))
  {
    i.CopiedPorts(r, newName);
    CopyOwn(r, i);
    forall k | 0 <= k < |i.sidecars|
      ensures r.sidecars[k].Own() == i.sidecars[k].Own().Cloned(r.sidecars[k].name)
    {
      CopyOwn(r.sidecars[k], i.sidecars[k]);
    }
  }

  lemma CloneNewborn(g: Group, h: Group)
    requires ClonedGroup(g, h) && Startable(g.self.state) && Lockstep(g) && DistinctMembers(h)
    ensures Newborn(h)
  {
    forall m | m in h.sidecars ensures Startable(m.state) && !m.hasService {
      var k :| 0 <= k < |h.sidecars| && h.sidecars[k] == m;
      assert g.sidecars[k] in g.sidecars;
    }
  }

  /** What CloneWithName does: a new group like that of the original. */
  method CloneHere(i: Instance, newName: string) returns (r: Instance?, err: Option<Error>)
    requires i.sys.Valid() && i.sys.Stored() && IsRoot(i)
    modifies i.sys`instancesMap, i.sys`all, i.sys`ledger
    ensures i.sys.Valid() && i.sys.Stored() && RootsStay(old(i.sys.ledger), i.sys.ledger) && (err.None? <==> r != null)
    ensures r != null ==>
              && fresh(r) && r.sys == i.sys && IsRoot(r) && Startable(i.state)
              && ClonedGroup(GroupOf(i), GroupOf(r)) && DistinctMembers(GroupOf(r))
  {
    r, err := i.CloneAs(newName);
    if r != null {
      assert r in [r];
      CopyGroup(r, i, newName);
      NamesDistinct(r);
    }
  }

  method CloneWithName(sys: SystemDependencies, i: Instance, ghost roots: seq<Instance>, ghost k: nat, ghost w: World,
      newName: string)
    returns (r: Instance?, err: Option<Error>, ghost v: World)
    requires Represents(sys, roots, w) && k < |roots| && i == roots[k] && Lockstep(w.groups[k])
    modifies sys`instancesMap, sys`all, sys`ledger
    ensures err.None? <==> r != null
    ensures if r == null then v == w && Represents(sys, roots, w)
            else v == Step(w, Join(GroupOf(r))) && Newborn(GroupOf(r)) && Represents(sys, roots + [r], v)
    ensures r != null ==> ClonedGroup(w.groups[k], GroupOf(r))
  {
    assert roots[k] in roots;
    AllKnown(sys, roots);
    r, err := CloneHere(i, newName);
    v := w;
    Stays(sys, roots, w);
    if r != null {
      CloneNewborn(w.groups[k], GroupOf(r));
      NewcomerJoins(sys, roots, w, r);
      v := WithGroup(w, GroupOf(r));
      NewcomerRepresented(sys, roots, w, r);
    }
  }
}
