/** Runs over a shared cluster: isolation, lockstep and conservation for every sequence of
    operations on any number of instances, whichever calls fail. */
module Worlds {

  import opened Wrappers
  import opened Cluster
  import opened Lifecycle
  import opened Footprint
  import opened Runs
  import opened Progress
  import opened Stuck
  import opened Lookups

  /** Creating an instance (with New, or as a clone with its cloned sidecars) brings a new
      group into the world; SetName gives a member another name; every other action is an
      operation on one of the groups. */
  datatype Action =
    | Join(group: Group)
    | Act(target: nat, op: Op, script: seq<Outcome>, disk: map<string, string>)
    | Rename(target: nat, member: nat, name: string)

  datatype World = World(objs: map<Key, Object>, missed: set<Key>, groups: seq<Group>)
  {
    function Api(script: seq<Outcome>): Api { Cluster.Api.Api(objs, script, missed) }

    ghost function Names(): set<string> { set i, n | 0 <= i < |groups| && n in groups[i].Names() :: n }
  }

  /** New instances are in state None without sidecars; clones are committed or stopped. */
  ghost predicate Newborn(g: Group) {
    && DistinctMembers(g) && Lockstep(g)
    && (g.self.state == StateNone || Startable(g.self.state))
    && !g.self.hasService && forall m | m in g.sidecars :: !m.hasService
  }

  /** The registry refuses a name that is taken, so such an action changes nothing. */
  ghost function Step(w: World, act: Action): World {
    match act
    case Join(g) => if Newborn(g) && g.Names() !! w.Names() then w.(groups := w.groups + [g]) else w
    case Act(i, op, script, disk) =>
      if i >= |w.groups| || (op.OpAddSidecar? && op.sidecar.name in w.Names()) then w
      else
        var e := Apply(w.Api(script), w.groups[i], op, disk);
        World(e.api.objs, e.api.missed, w.groups[i := e.group])
    case Rename(i, k, name) =>
      if i >= |w.groups| || k >= |w.groups[i].Members()| || name in w.Names() then w
      else w.(groups := w.groups[i := Renamed(w.groups[i], k, name)])
  }

  /** The group with another name for its instance (k == 0) or a sidecar. */
  ghost function Renamed(g: Group, k: nat, name: string): Group
    requires k < |g.Members()|
  {
    if k == 0 then g.(self := g.self.(name := name))
    else g.(sidecars := g.sidecars[k - 1 := g.sidecars[k - 1].(name := name)])
  }

  /** Nothing in the cluster bears the name. */
  ghost predicate Unused(w: World, n: string) {
    (forall k | k in w.objs :: k.name != n) && forall k | k in w.missed :: k.name != n
  }

  /** Nothing is renamed while objects in the cluster bear its name. */
  ghost predicate InTime(w: World, act: Action) {
    act.Rename? && act.target < |w.groups| && act.member < |w.groups[act.target].Members()| ==>
      Unused(w, w.groups[act.target].Members()[act.member].name)
  }

  ghost predicate AllInTime(w: World, acts: seq<Action>) {
    acts != [] ==>
      AllInTime(w, acts[..|acts| - 1]) && InTime(Run(w, acts[..|acts| - 1]), acts[|acts| - 1])
  }

  lemma {:induction false} WithoutRenaming(w: World, acts: seq<Action>)
    requires forall act | act in acts :: !act.Rename?
    ensures AllInTime(w, acts)
  {
    if acts != [] { WithoutRenaming(w, acts[..|acts| - 1]); }
  }

  ghost function Run(w: World, acts: seq<Action>): World {
    if acts == [] then w else Step(Run(w, acts[..|acts| - 1]), acts[|acts| - 1])
  }

  /** The names an action introduces do not occur in the cluster the run started from. */
  ghost predicate Fresh(base: map<Key, Object>, act: Action) {
    match act
    case Join(g) => forall k | k in base :: k.name !in g.Names()
    case Act(_, op, _, _) => op.OpAddSidecar? ==> forall k | k in base :: k.name != op.sidecar.name
    case Rename(_, _, name) => forall k | k in base :: k.name != name
  }

  ghost predicate GroupOk(w: World, g: Group) {
    Lockstep(g) && DistinctMembers(g) && StartedIsMain(g) && Accounted(w.Api([]), g) && MissedOk(w.Api([]), g)
  }

  ghost predicate Untouched(base: map<Key, Object>, w: World) {
    && (forall k: Key | k.name !in w.Names() :: k in w.objs <==> k in base)
    && (forall k: Key | k.name !in w.Names() && k in w.objs && k in base :: w.objs[k] == base[k])
    && (forall k | k in base :: k.name !in w.Names())
    && forall k | k in w.missed :: k.kind == NetworkPolicy && k.name in w.Names()
  }

  /** What holds in every reachable world. */
  ghost predicate Invariant(base: map<Key, Object>, w: World) {
    && (forall i | 0 <= i < |w.groups| :: GroupOk(w, w.groups[i]))
    && (forall i, j | 0 <= i < j < |w.groups| :: w.groups[i].Names() !! w.groups[j].Names())
    && Untouched(base, w)
  }

  // ---------------------------------------------------------------- names

  ghost predicate SameNames(g: Group, h: Group) {
    && h.self.name == g.self.name && |h.sidecars| == |g.sidecars|
    && forall i | 0 <= i < |g.sidecars| :: h.sidecars[i].name == g.sidecars[i].name
  }

  lemma SameNamesSet(g: Group, h: Group)
    requires SameNames(g, h)
    ensures h.Names() == g.Names() && (DistinctMembers(g) ==> DistinctMembers(h))
  {
    forall n ensures n in h.Names() <==> n in g.Names() {
      MemberNames(g, n);
      MemberNames(h, n);
    }
  }

  lemma MemberNames(g: Group, n: string)
    ensures n in g.Names() <==> n == g.self.name || exists i :: 0 <= i < |g.sidecars| && g.sidecars[i].name == n
  {
    assert g.Members()[0] == g.self;
    if i :| 0 <= i < |g.sidecars| && g.sidecars[i].name == n { assert g.Members()[i + 1] == g.sidecars[i]; }
    if n in g.Names() {
      var m :| m in g.Members() && m.name == n;
      var k :| 0 <= k < |g.Members()| && g.Members()[k] == m;
      if k > 0 { assert g.sidecars[k - 1] == m; }
    }
  }

  /** The name an operation adds to its group, if it succeeds in adding one. */
  ghost function AddedNames(a: Api, g: Group, op: Op, disk: map<string, string>): set<string> {
    if op.OpAddSidecar? && Apply(a, g, op, disk).err.None? then {op.sidecar.name} else {}
  }

  lemma StartNames(a: Api, g: Group, disk: map<string, string>)
    ensures SameNames(g, Start(a, g, disk).group)
  {
    StartFootprint(a, g, disk);
    var e := Start(a, g, disk);
    var h := if e.err.None? then g.WithState(StateStarted) else g;
    forall i | 0 <= i < |g.sidecars| ensures e.group.sidecars[i].name == g.sidecars[i].name {
      assert ServiceKnown(h.sidecars[i], e.group.sidecars[i], e.err.None? && g.self.state == StateCommitted);
    }
  }

  lemma SidecarNames(g: Group, m: Member)
    requires DistinctMembers(g) && m.name !in g.Names()
    ensures WithSidecar(g, m).Names() == g.Names() + {m.name} && DistinctMembers(WithSidecar(g, m))
  {
    var h := WithSidecar(g, m);
    MemberNames(g, m.name);
    assert h.sidecars[|g.sidecars|] == m;
    assert forall i | 0 <= i < |g.sidecars| :: h.sidecars[i] == g.sidecars[i];
    forall n ensures n in h.Names() <==> n in g.Names() || n == m.name {
      MemberNames(g, n);
      MemberNames(h, n);
    }
  }

  /** No other operation changes a name. */
  lemma NamesStay(a: Api, g: Group, op: Op, disk: map<string, string>)
    requires !op.OpAddSidecar?
    ensures SameNames(g, Apply(a, g, op, disk).group)
  {
    match op
    case OpStart => StartNames(a, g, disk);
    case OpStop => StopDestroyAtomic(a, g);
    case OpDestroy => StopDestroyAtomic(a, g);
    case OpConfigure(next) => if Grown(g, next) { GrownNames(g, next); }
    case _ =>
  }

  lemma GrownNames(g: Group, h: Group)
    requires Grown(g, h)
    ensures SameNames(g, h)
  {
    forall i | 0 <= i < |g.sidecars| ensures h.sidecars[i].name == g.sidecars[i].name {
      assert MemberGrown(g.sidecars[i], h.sidecars[i]);
    }
  }

  lemma OpNames(a: Api, g: Group, op: Op, disk: map<string, string>)
    requires DistinctMembers(g) && (op.OpAddSidecar? ==> op.sidecar.name !in g.Names())
    ensures var e := Apply(a, g, op, disk);
            e.group.Names() == g.Names() + AddedNames(a, g, op, disk) && DistinctMembers(e.group)
  {
    if op.OpAddSidecar? {
      SidecarNames(g, op.sidecar);
    } else {
      NamesStay(a, g, op, disk);
      SameNamesSet(g, Apply(a, g, op, disk).group);
    }
  }

  // ---------------------------------------------------------------- isolation

  /** Every operation on a group changes only objects named after its members. */
  lemma OpOnly(a: Api, g: Group, op: Op, disk: map<string, string>)
    ensures Only(a, Apply(a, g, op, disk).api, g.Names())
  {
    match op
    case OpStart => StartFootprint(a, g, disk);
    case OpStop => StopFootprint(a, g);
    case OpDestroy => DestroyFootprint(a, g);
    case OpDisable => NetworkFootprint(a, g);
    case OpEnable => NetworkFootprint(a, g);
    case _ =>
  }

  /** Isolation: in a reachable world an action leaves alone every object that is not named
      after a member of its target, so the other groups and all their objects stay as they
      were, in every state and whichever calls fail. */
  lemma Isolation(base: map<Key, Object>, w: World, act: Action, j: nat)
    requires Invariant(base, w) && act.Act? && act.target < |w.groups| && j < |w.groups| && j != act.target
    ensures var v := Step(w, act);
            && |v.groups| == |w.groups| && v.groups[j] == w.groups[j]
            && forall k: Key | k.name in w.groups[j].Names() ::
                 (k in v.objs <==> k in w.objs) && (k in v.objs && k in w.objs ==> v.objs[k] == w.objs[k])
  {
    OpOnly(w.Api(act.script), w.groups[act.target], act.op, act.disk);
    assert w.groups[j].Names() !! w.groups[act.target].Names();
  }

  lemma OthersAccounted(a: Api, b: Api, g: Group, names: set<string>)
    requires Only(a, b, names) && g.Names() !! names && Accounted(a, g)
    ensures Accounted(b, g)
  {
    MemberNames(g, g.self.name);
    assert MemberAccounted(b, g.self, true, g.self.state);
    forall i | 0 <= i < |g.sidecars| ensures MemberAccounted(b, g.sidecars[i], false, g.self.state) {
      MemberNames(g, g.sidecars[i].name);
      assert MemberAccounted(a, g.sidecars[i], false, g.self.state);
    }
  }

  lemma OthersMissed(a: Api, b: Api, g: Group, names: set<string>)
    requires Only(a, b, names) && g.Names() !! names && MissedOk(a, g)
    ensures MissedOk(b, g)
  {
    MemberNames(g, g.self.name);
    forall i | 0 <= i < |g.sidecars| ensures Policy(g.sidecars[i]) !in b.missed {
      MemberNames(g, g.sidecars[i].name);
    }
  }

  // ---------------------------------------------------------------- the invariant

  lemma AccountedScript(objs: map<Key, Object>, missed: set<Key>, s: seq<Outcome>, t: seq<Outcome>, g: Group)
    requires Accounted(Cluster.Api.Api(objs, s, missed), g)
    ensures Accounted(Cluster.Api.Api(objs, t, missed), g)
  {
    var a, b := Cluster.Api.Api(objs, s, missed), Cluster.Api.Api(objs, t, missed);
    assert MemberAccounted(b, g.self, true, g.self.state);
    forall i | 0 <= i < |g.sidecars| ensures MemberAccounted(b, g.sidecars[i], false, g.self.state) {
      assert MemberAccounted(a, g.sidecars[i], false, g.self.state);
    }
  }

  lemma GroupNamesIn(w: World, i: nat)
    requires i < |w.groups|
    ensures w.groups[i].Names() <= w.Names()
  {
  }

  lemma TargetOk(base: map<Key, Object>, w: World, act: Action)
    requires Invariant(base, w) && Fresh(base, act) && act.Act? && act.target < |w.groups|
    requires act.op.OpAddSidecar? ==> act.op.sidecar.name !in w.Names()
    ensures GroupOk(Step(w, act), Step(w, act).groups[act.target])
  {
    var a, g := w.Api(act.script), w.groups[act.target];
    assert GroupOk(w, g);
    AccountedScript(w.objs, w.missed, [], act.script, g);
    GroupNamesIn(w, act.target);
    if act.op.OpAddSidecar? {
      assert NoObjectNamed(a, act.op.sidecar.name);
    }
    OpLockstep(a, g, act.op, act.disk);
    OpAccounted(a, g, act.op, act.disk);
    OpMissed(a, g, act.op, act.disk);
    OpNames(a, g, act.op, act.disk);
    var e := Apply(a, g, act.op, act.disk);
    AccountedScript(e.api.objs, e.api.missed, e.api.script, [], e.group);
  }

  lemma OtherOk(base: map<Key, Object>, w: World, act: Action, j: nat)
    requires Invariant(base, w) && act.Act? && act.target < |w.groups| && j < |w.groups| && j != act.target
    requires act.op.OpAddSidecar? ==> act.op.sidecar.name !in w.Names()
    ensures GroupOk(Step(w, act), w.groups[j])
  {
    var a, g := w.Api(act.script), w.groups[act.target];
    var e := Apply(a, g, act.op, act.disk);
    assert GroupOk(w, w.groups[j]);
    OpOnly(a, g, act.op, act.disk);
    AccountedScript(w.objs, w.missed, [], act.script, w.groups[j]);
    assert w.groups[j].Names() !! g.Names();
    OthersAccounted(a, e.api, w.groups[j], g.Names());
    OthersMissed(a, e.api, w.groups[j], g.Names());
    AccountedScript(e.api.objs, e.api.missed, e.api.script, [], w.groups[j]);
  }

  lemma WorldNames(w: World, v: World, i: nat, added: set<string>)
    requires i < |w.groups| == |v.groups| && v.groups[i].Names() == w.groups[i].Names() + added
    requires forall j | 0 <= j < |w.groups| && j != i :: v.groups[j] == w.groups[j]
    ensures v.Names() == w.Names() + added
  {
    forall n ensures n in v.Names() <==> n in w.Names() || n in added {
      if n in w.Names() {
        var j :| 0 <= j < |w.groups| && n in w.groups[j].Names();
        assert n in v.groups[j].Names();
      }
      if n in added { assert n in v.groups[i].Names(); }
    }
  }

  lemma GroupsKeep(base: map<Key, Object>, w: World, act: Action)
    requires Invariant(base, w) && Fresh(base, act) && act.Act? && act.target < |w.groups|
    requires act.op.OpAddSidecar? ==> act.op.sidecar.name !in w.Names()
    ensures var v := Step(w, act); forall j | 0 <= j < |v.groups| :: GroupOk(v, v.groups[j])
  {
    var v := Step(w, act);
    forall j | 0 <= j < |v.groups| ensures GroupOk(v, v.groups[j]) {
      if j == act.target { TargetOk(base, w, act); } else { OtherOk(base, w, act, j); }
    }
  }

  lemma StillDisjoint(w: World, v: World, i: nat, added: set<string>)
    requires forall j, k | 0 <= j < k < |w.groups| :: w.groups[j].Names() !! w.groups[k].Names()
    requires i < |w.groups| == |v.groups| && v.groups[i].Names() == w.groups[i].Names() + added && added !! w.Names()
    requires forall j | 0 <= j < |w.groups| && j != i :: v.groups[j] == w.groups[j]
    ensures forall j, k | 0 <= j < k < |v.groups| :: v.groups[j].Names() !! v.groups[k].Names()
  {
    forall j, k | 0 <= j < k < |v.groups| ensures v.groups[j].Names() !! v.groups[k].Names() {
      GroupNamesIn(w, j);
      GroupNamesIn(w, k);
    }
  }

  lemma ActKeeps(base: map<Key, Object>, w: World, act: Action)
    requires Invariant(base, w) && Fresh(base, act) && act.Act? && act.target < |w.groups|
    requires act.op.OpAddSidecar? ==> act.op.sidecar.name !in w.Names()
    ensures Invariant(base, Step(w, act))
  {
    var v, i, a, g := Step(w, act), act.target, w.Api(act.script), w.groups[act.target];
    var added := AddedNames(a, g, act.op, act.disk);
    GroupNamesIn(w, i);
    assert GroupOk(w, g);
    OpNames(a, g, act.op, act.disk);
    WorldNames(w, v, i, added);
    StillDisjoint(w, v, i, added);
    GroupsKeep(base, w, act);
    OpOnly(a, g, act.op, act.disk);
    UntouchedAfter(base, w, v, g.Names(), added);
  }

  lemma UntouchedAfter(base: map<Key, Object>, w: World, v: World, names: set<string>, added: set<string>)
    requires Untouched(base, w) && Only(w.Api([]), v.Api([]), names) && names <= w.Names()
            && v.Names() == w.Names() + added
    requires forall k | k in base :: k.name !in added
    ensures Untouched(base, v)
  {
    forall k: Key | k.name !in v.Names()
      ensures k in v.objs <==> k in base
      ensures k in v.objs && k in base ==> v.objs[k] == base[k]
    {
      assert k.name !in w.Names();
      assert k in w.objs <==> k in v.objs;
    }
    forall k | k in v.missed ensures k.kind == NetworkPolicy && k.name in v.Names() {
      if k in w.missed { assert k.name in w.Names(); }
    }
  }

  lemma JoinKeeps(base: map<Key, Object>, w: World, g: Group)
    requires Invariant(base, w) && Fresh(base, Join(g)) && Newborn(g) && g.Names() !! w.Names()
    ensures Invariant(base, Step(w, Join(g)))
  {
    var v := Step(w, Join(g));
    var n := |w.groups|;
    assert v.groups == w.groups + [g] && v.groups[n] == g;
    forall m ensures m in v.Names() <==> m in w.Names() || m in g.Names() {
      if m in w.Names() { var j :| 0 <= j < n && m in w.groups[j].Names(); assert v.groups[j] == w.groups[j]; }
      if m in g.Names() { assert m in v.groups[n].Names(); }
    }
    forall j | 0 <= j < |v.groups| ensures GroupOk(v, v.groups[j]) {
      if j < n { assert GroupOk(w, w.groups[j]); } else { NewbornOk(base, w, v, g); }
    }
    forall j, k | 0 <= j < k < |v.groups| ensures v.groups[j].Names() !! v.groups[k].Names() {
      if k == n { GroupNamesIn(w, j); }
    }
    assert Only(w.Api([]), v.Api([]), {});
    UntouchedAfter(base, w, v, {}, g.Names());
  }

  lemma NewbornOk(base: map<Key, Object>, w: World, v: World, g: Group)
    requires Untouched(base, w) && Fresh(base, Join(g)) && Newborn(g) && g.Names() !! w.Names()
    requires v.objs == w.objs && v.missed == w.missed
    ensures GroupOk(v, g)
  {
    var a := v.Api([]);
    forall k | k in a.objs ensures k.name !in g.Names() {
      if k.name !in w.Names() { assert k in base; }
    }
    MemberNames(g, g.self.name);
    assert MemberAccounted(a, g.self, true, g.self.state);
    forall i | 0 <= i < |g.sidecars|
      ensures MemberAccounted(a, g.sidecars[i], false, g.self.state) && Policy(g.sidecars[i]) !in a.missed
    {
      MemberNames(g, g.sidecars[i].name);
    }
  }

  // ---------------------------------------------------------------- names given up

  lemma RenamedAt(g: Group, k: nat, name: string)
    requires k < |g.Members()|
    ensures Renamed(g, k, name).Members() == g.Members()[k := g.Members()[k].(name := name)]
  {
  }

  lemma DistinctAt(g: Group, i: nat, j: nat)
    requires DistinctMembers(g) && i < j < |g.Members()|
    ensures g.Members()[i].name != g.Members()[j].name
  {
  }

  lemma RenamedNames(g: Group, k: nat, name: string)
    requires DistinctMembers(g) && k < |g.Members()|
    ensures Renamed(g, k, name).Names() == g.Names() - {g.Members()[k].name} + {name}
  {
    var h, ms := Renamed(g, k, name), g.Members();
    RenamedAt(g, k, name);
    forall n | n in h.Names() ensures n == name || (n in g.Names() && n != ms[k].name) {
      var j :| 0 <= j < |h.Members()| && h.Members()[j].name == n;
      if j < k { DistinctAt(g, j, k); } else if k < j { DistinctAt(g, k, j); }
    }
    forall n | n in g.Names() && n != ms[k].name ensures n in h.Names() {
      var j :| 0 <= j < |ms| && ms[j].name == n;
      assert h.Members()[j] == ms[j];
    }
    assert h.Members()[k].name == name;
  }

  lemma RenamedMembers(g: Group, k: nat, name: string)
    requires DistinctMembers(g) && k < |g.Members()| && name !in g.Names()
    ensures DistinctMembers(Renamed(g, k, name))
  {
    MemberNames(g, name);
  }

  lemma RenamedOk(w: World, v: World, g: Group, k: nat, name: string)
    requires GroupOk(w, g) && k < |g.Members()| && name !in g.Names() && Unused(w, name)
    requires v.objs == w.objs && v.missed == w.missed
    ensures GroupOk(v, Renamed(g, k, name))
  {
    RenamedMembers(g, k, name);
    var h, a := Renamed(g, k, name), w.Api([]);
    assert MemberAccounted(a, h.self, true, h.self.state);
    forall i | 0 <= i < |h.sidecars|
      ensures MemberAccounted(a, h.sidecars[i], false, h.self.state) && Policy(h.sidecars[i]) !in a.missed
    {
      assert MemberAccounted(a, g.sidecars[i], false, g.self.state);
    }
    forall m | m in h.sidecars
      ensures if Final(h.self.state) then m.state == h.self.state else Startable(m.state)
    {
      var i :| 0 <= i < |h.sidecars| && h.sidecars[i] == m;
      assert g.sidecars[i] in g.sidecars;
    }
  }

  ghost predicate Renames(base: map<Key, Object>, w: World, act: Action) {
    && act.Rename? && act.target < |w.groups| && act.member < |w.groups[act.target].Members()|
    && act.name !in w.Names() && Fresh(base, act)
  }

  lemma RenamedGroups(base: map<Key, Object>, w: World, act: Action)
    requires Invariant(base, w) && Renames(base, w, act)
    ensures var v := Step(w, act); forall j | 0 <= j < |v.groups| :: GroupOk(v, v.groups[j])
  {
    var v, i := Step(w, act), act.target;
    assert Unused(w, act.name);
    GroupNamesIn(w, i);
    forall j | 0 <= j < |v.groups| ensures GroupOk(v, v.groups[j]) {
      assert GroupOk(w, w.groups[j]);
      if j == i { RenamedOk(w, v, w.groups[i], act.member, act.name); }
    }
  }

  lemma RenamedApart(base: map<Key, Object>, w: World, act: Action)
    requires Invariant(base, w) && Renames(base, w, act)
    ensures var v := Step(w, act);
            forall j, l | 0 <= j < l < |v.groups| :: v.groups[j].Names() !! v.groups[l].Names()
  {
    var v, i := Step(w, act), act.target;
    assert GroupOk(w, w.groups[i]);
    RenamedNames(w.groups[i], act.member, act.name);
    forall j, l | 0 <= j < l < |v.groups| ensures v.groups[j].Names() !! v.groups[l].Names() {
      GroupNamesIn(w, j);
      GroupNamesIn(w, l);
    }
  }

  lemma RenamedWorld(base: map<Key, Object>, w: World, act: Action)
    requires Invariant(base, w) && Renames(base, w, act)
    ensures Step(w, act).Names() == w.Names() - {w.groups[act.target].Members()[act.member].name} + {act.name}
  {
    var v, i, g := Step(w, act), act.target, w.groups[act.target];
    var was := g.Members()[act.member].name;
    assert GroupOk(w, g);
    RenamedNames(g, act.member, act.name);
    forall n | n in v.Names() ensures n == act.name || (n in w.Names() && n != was) {
      var j :| 0 <= j < |v.groups| && n in v.groups[j].Names();
      if j != i { assert n in w.groups[j].Names() && was in g.Names(); }
    }
    StillNamed(w, v, i, was, act.name);
  }

  lemma StillNamed(w: World, v: World, i: nat, was: string, name: string)
    requires i < |w.groups| == |v.groups| && v.groups[i].Names() == w.groups[i].Names() - {was} + {name}
    requires forall j | 0 <= j < |w.groups| && j != i :: v.groups[j] == w.groups[j]
    ensures w.Names() - {was} + {name} <= v.Names()
  {
    assert name in v.groups[i].Names();
    forall n | n in w.Names() && n != was ensures n in v.Names() {
      var j :| 0 <= j < |w.groups| && n in w.groups[j].Names();
      assert n in v.groups[j].Names();
    }
  }

  /** A member may take another name exactly while nothing in the cluster bears its own: otherwise
      those objects belong to nobody any more. */
  lemma RenameKeeps(base: map<Key, Object>, w: World, act: Action)
    requires Invariant(base, w) && Renames(base, w, act)
    ensures Invariant(base, Step(w, act)) <==> Unused(w, w.groups[act.target].Members()[act.member].name)
  {
    var v, was := Step(w, act), w.groups[act.target].Members()[act.member].name;
    RenamedGroups(base, w, act);
    RenamedApart(base, w, act);
    RenamedWorld(base, w, act);
    GroupNamesIn(w, act.target);
    assert was in w.groups[act.target].Names();
    if Unused(w, was) {
      assert Untouched(base, v);
    } else {
      if k :| k in w.objs && k.name == was { assert k !in base; }
    }
  }

  lemma StepKeeps(base: map<Key, Object>, w: World, act: Action)
    requires Invariant(base, w) && Fresh(base, act) && InTime(w, act)
    ensures Invariant(base, Step(w, act))
  {
    match act
    case Join(g) => if Newborn(g) && g.Names() !! w.Names() { JoinKeeps(base, w, g); }
    case Act(i, op, _, _) => if i < |w.groups|
        && !(op.OpAddSidecar? && op.sidecar.name in w.Names()) { ActKeeps(base, w, act); }
    case Rename(_, _, _) => if Renames(base, w, act) { RenameKeeps(base, w, act); }
  }

  lemma {:induction false} RunKeeps(base: map<Key, Object>, w: World, acts: seq<Action>)
    requires Invariant(base, w) && AllInTime(w, acts) && forall act | act in acts :: Fresh(base, act)
    ensures Invariant(base, Run(w, acts))
  {
    if acts != [] {
      RunKeeps(base, w, acts[..|acts| - 1]);
      StepKeeps(base, Run(w, acts[..|acts| - 1]), acts[|acts| - 1]);
    }
  }

  /** The invariant holds after every run from an arbitrary cluster in which nothing is renamed
      too late. */
  lemma Reachable(base: map<Key, Object>, acts: seq<Action>)
    requires AllInTime(World(base, {}, []), acts) && forall act | act in acts :: Fresh(base, act)
    ensures Invariant(base, Run(World(base, {}, []), acts))
  {
    assert World(base, {}, []).Names() == {};
    RunKeeps(base, World(base, {}, []), acts);
  }

  /** Lockstep in every reachable world. */
  lemma ReachableLockstep(base: map<Key, Object>, acts: seq<Action>, i: nat)
    requires AllInTime(World(base, {}, []), acts) && forall act | act in acts :: Fresh(base, act)
    requires i < |Run(World(base, {}, []), acts).groups|
    ensures Lockstep(Run(World(base, {}, []), acts).groups[i])
  {
    Reachable(base, acts);
    var w := Run(World(base, {}, []), acts);
    assert GroupOk(w, w.groups[i]);
  }

  // ---------------------------------------------------------------- stuck instances

  /** An instance that is stuck stays so in every further run, and is never destroyed; only a new
      name frees one that cannot begin, and leaves what is in the cluster under the old one. */
  lemma {:induction false} StuckForever(base: map<Key, Object>, w: World, acts: seq<Action>, i: nat)
    requires Invariant(base, w) && AllInTime(w, acts) && forall act | act in acts :: Fresh(base, act)
    requires i < |w.groups| && IsStuck(w.Api([]), w.groups[i])
    ensures var v := Run(w, acts);
            i < |v.groups| && IsStuck(v.Api([]), v.groups[i]) && v.groups[i].self.state == w.groups[i].self.state
  {
    if acts != [] {
      var front := acts[..|acts| - 1];
      StuckForever(base, w, front, i);
      RunKeeps(base, w, front);
      StuckStep(base, Run(w, front), acts[|acts| - 1], i);
    }
  }

  lemma StuckStep(base: map<Key, Object>, w: World, act: Action, i: nat)
    requires Invariant(base, w) && Fresh(base, act) && InTime(w, act)
    requires i < |w.groups| && IsStuck(w.Api([]), w.groups[i])
    ensures var v := Step(w, act);
            i < |v.groups| && IsStuck(v.Api([]), v.groups[i]) && v.groups[i].self.state == w.groups[i].self.state
  {
    if act.Act? && act.target < |w.groups| {
      if act.target == i {
        StuckStays(w.Api(act.script), w.groups[i], act.op, act.disk);
      } else {
        Isolation(base, w, act, i);
        MemberNames(w.groups[i], w.groups[i].self.name);
      }
    }
  }

  // ---------------------------------------------------------------- the way to the end

  /** Destroy leaves a stopped instance as it is, whatever the cluster holds and whichever calls fail. */
  lemma StoppedSurvives(w: World, act: Action)
    requires act.Act? && act.op.OpDestroy? && act.target < |w.groups|
    requires w.groups[act.target].self.state == StateStopped && !w.groups[act.target].self.isSidecar
    ensures Step(w, act).groups == w.groups
  {
    DestroyStoppedFails(w.Api(act.script), w.groups[act.target]);
  }

  /** So an instance only comes to be destroyed right from being started. */
  lemma DestroyedWasStarted(w: World, act: Action, i: nat)
    requires i < |w.groups| && !w.groups[i].self.isSidecar
    requires Step(w, act).groups[i].self.state == StateDestroyed
    ensures w.groups[i].self.state == StateStarted || w.groups[i].self.state == StateDestroyed
  {
    var g := w.groups[i];
    if act.Act? && act.target == i {
      StopDestroyAtomic(w.Api(act.script), g);
      StartAtomic(w.Api(act.script), g, act.disk);
      if g.self.state == StateStopped { DestroyStoppedFails(w.Api(act.script), g); }
    }
  }

  // ---------------------------------------------------------------- conservation

  lemma DestroyedLeavesPolicies(base: map<Key, Object>, w: World, k: Key)
    requires Invariant(base, w) && (forall i | 0 <= i < |w.groups| :: w.groups[i].self.state == StateDestroyed)
    requires k in w.objs && k.name in w.Names()
    ensures k in w.missed
  {
    var i :| 0 <= i < |w.groups| && k.name in w.groups[i].Names();
    var g := w.groups[i];
    assert GroupOk(w, g);
    MemberNames(g, k.name);
    assert k == Key(k.kind, k.name);
    assert MemberAccounted(w.Api([]), g.self, true, StateDestroyed);
    assert forall j | 0 <= j < |g.sidecars| :: MemberAccounted(w.Api([]), g.sidecars[j], false, StateDestroyed);
  }

  lemma MissedRemains(base: map<Key, Object>, w: World, k: Key)
    requires Invariant(base, w) && (forall i | 0 <= i < |w.groups| :: w.groups[i].self.state == StateDestroyed)
    requires k in w.missed
    ensures k in w.objs && k !in base
  {
    assert k.kind == NetworkPolicy && k.name in w.Names();
    var i :| 0 <= i < |w.groups| && k.name in w.groups[i].Names();
    var g := w.groups[i];
    assert GroupOk(w, g);
    MemberNames(g, k.name);
    assert k == Key(NetworkPolicy, k.name);
  }

  /** Conservation: after any run, with operations in any order and whichever calls fail,
      if every instance has come to be destroyed then the cluster is what it was before the run,
      except for the network policies that a failed lookup passed over; so it is exactly what it
      was if and only if no lookup of a policy failed while the policy existed. */
  lemma Conservation(base: map<Key, Object>, acts: seq<Action>)
    requires AllInTime(World(base, {}, []), acts) && forall act | act in acts :: Fresh(base, act)
    requires forall g | g in Run(World(base, {}, []), acts).groups :: g.self.state == StateDestroyed
    ensures var w := Run(World(base, {}, []), acts);
            w.objs - w.missed == base && (w.objs == base <==> w.missed == {})
  {
    Reachable(base, acts);
    var w := Run(World(base, {}, []), acts);
    forall i | 0 <= i < |w.groups| ensures w.groups[i].self.state == StateDestroyed { assert w.groups[i] in w.groups; }
    forall k: Key ensures k in w.objs && k !in w.missed <==> k in base {
      if k in w.objs && k.name in w.Names() { DestroyedLeavesPolicies(base, w, k); }
    }
    forall k | k in base ensures w.objs[k] == base[k] { assert k.name !in w.Names(); }
    assert w.objs - w.missed == base;
    if k :| k in w.missed {
      MissedRemains(base, w, k);
    } else {
      assert w.objs - w.missed == w.objs;
    }
  }

  /** An action during which no call fails. */
  ghost predicate NoFault(act: Action) { act.Act? ==> forall i | 0 <= i < |act.script| :: act.script[i] == Works }

  /** Only a failing Destroy can pass over a policy. */
  ghost predicate LookupsWork(act: Action) { act.Act? && act.op.OpDestroy? ==> NoFault(act) }

  lemma StepCalm(w: World, act: Action)
    requires LookupsWork(act)
    ensures Step(w, act).missed == w.missed
  {
    if act.Act? && act.target < |w.groups| {
      var a := w.Api(act.script);
      assert act.op.OpDestroy? ==> a.FaultFree();
      OpCalm(a, w.groups[act.target], act.op, act.disk);
    }
  }

  lemma {:induction false} NothingMissed(w: World, acts: seq<Action>)
    requires forall act | act in acts :: LookupsWork(act)
    ensures Run(w, acts).missed == w.missed
  {
    if acts != [] {
      NothingMissed(w, acts[..|acts| - 1]);
      StepCalm(Run(w, acts[..|acts| - 1]), acts[|acts| - 1]);
    }
  }

  /** Conservation without failing calls: whatever was done, once every instance is destroyed
      the cluster is exactly what it was. It is enough that no call of a Destroy fails. */
  lemma FaultFreeConservation(base: map<Key, Object>, acts: seq<Action>)
    requires AllInTime(World(base, {}, []), acts) && forall act | act in acts :: Fresh(base, act) && LookupsWork(act)
    requires forall g | g in Run(World(base, {}, []), acts).groups :: g.self.state == StateDestroyed
    ensures Run(World(base, {}, []), acts).objs == base
  {
    NothingMissed(World(base, {}, []), acts);
    Conservation(base, acts);
  }
}
