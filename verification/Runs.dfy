/** Whole runs: any number of instances with their sidecars share one cluster and one registry
    of names; operations come in any order, and any call of any of them may fail. */
module Runs {

  import opened Wrappers
  import opened PodSpec
  import opened Cluster
  import opened Lifecycle
  import opened Footprint

  // ---------------------------------------------------------------- one group

  /** All operations on an instance that matter here. Configuring stands for every setter:
      AddVolume, AddFile, AddPortTCP, AddPortUDP, AddPolicyRule, SetEnvironmentVariable and
      so on, of the instance or of one of its sidecars. */
  datatype Op =
    | OpStart | OpStop | OpDestroy | OpDisable | OpEnable
    | OpSetImage | OpCommit(image: string) | OpConfigure(next: Group) | OpAddSidecar(sidecar: Member)

  /** The states in which the setters work. */
  predicate Configurable(s: State) { s == StatePreparing || s == StateCommitted || s == StateStopped }

  /** Configuration is only ever added to; name, state and service pointer stay. */
  predicate MemberGrown(m: Member, n: Member) {
    && n.name == m.name && n.state == m.state && n.isSidecar == m.isSidecar && n.hasService == m.hasService
    && m.volumes <= n.volumes && m.files <= n.files && m.rules <= n.rules
    && (m.HasPorts() ==> n.HasPorts())
    && (n != m ==> Configurable(m.state))
  }

  ghost predicate Grown(g: Group, h: Group) {
    && MemberGrown(g.self, h.self) && |h.sidecars| == |g.sidecars|
    && forall i | 0 <= i < |g.sidecars| :: MemberGrown(g.sidecars[i], h.sidecars[i])
  }

  function WithSidecar(g: Group, m: Member): Group {
    Group(g.self.(serviceTcp := g.self.serviceTcp + m.tcp, serviceUdp := g.self.serviceUdp + m.udp), g.sidecars + [m])
  }

  ghost function Apply(a: Api, g: Group, op: Op, disk: map<string, string>): Effect {
    match op
    case OpStart => Start(a, g, disk)
    case OpStop => Stop(a, g)
    case OpDestroy => Destroy(a, g)
    case OpDisable => Disable(a, g)
    case OpEnable => Enable(a, g)
    case OpSetImage =>
      if g.self.state == StateNone || g.self.state == StatePreparing || g.self.state == StateStopped then
        Effect(a, g.(self := g.self.(state := StatePreparing)), None)
      else Effect(a, g, Some(ErrSettingImageNotAllowed))
    case OpCommit(image) =>
      if g.self.state == StatePreparing then
        Effect(a, g.(self := g.self.(state := StateCommitted, image := image)), None)
      else Effect(a, g, Some(ErrCommittingNotAllowed))
    case OpConfigure(next) =>
      if Grown(g, next) then Effect(a, next, None) else Effect(a, g, Some(ErrConfiguringNotAllowed))
    case OpAddSidecar(m) =>
      if Configurable(g.self.state) && m.state == StateCommitted && !m.hasService && !g.self.isSidecar then
        Effect(a, WithSidecar(g, m), None)
      else Effect(a, g, Some(ErrAddingSidecarNotAllowed))
  }

  // ---------------------------------------------------------------- sidecar lockstep

  predicate Final(s: State) { s == StateStarted || s == StateDestroyed }

  /** Started and destroyed instances have all their sidecars in the same state; otherwise
      every sidecar is committed or stopped. */
  ghost predicate Lockstep(g: Group) {
    forall m | m in g.sidecars :: if Final(g.self.state) then m.state == g.self.state else Startable(m.state)
  }

  lemma Moved(g: Group, s: State)
    requires s == StateStarted || s == StateStopped || s == StateDestroyed
    ensures Lockstep(g.WithState(s))
  {
  }

  lemma StartLockstep(a: Api, g: Group, disk: map<string, string>)
    requires Lockstep(g)
    ensures Lockstep(Start(a, g, disk).group)
    ensures Startable(g.self.state) && !g.self.isSidecar ==> MayStart(g)
  {
    StartAtomic(a, g, disk);
    var e := Start(a, g, disk);
    var h := if e.err.None? then g.WithState(StateStarted) else g;
    assert SameStates(h, e.group);
    forall m | m in e.group.sidecars
      ensures if Final(e.group.self.state) then m.state == e.group.self.state else Startable(m.state)
    {
      var i :| 0 <= i < |e.group.sidecars| && e.group.sidecars[i] == m;
      assert h.sidecars[i].state == m.state;
      if e.err.Some? { assert g.sidecars[i] in g.sidecars; }
    }
  }

  lemma ConfigureLockstep(g: Group, h: Group)
    requires Lockstep(g) && Grown(g, h)
    ensures Lockstep(h)
  {
    forall m | m in h.sidecars ensures if Final(h.self.state) then m.state == h.self.state else Startable(m.state) {
      var i :| 0 <= i < |h.sidecars| && h.sidecars[i] == m;
      assert MemberGrown(g.sidecars[i], m) && g.sidecars[i] in g.sidecars;
    }
  }

  /** Every operation, with every pattern of failures, keeps the sidecars in lockstep; a
      destroyed instance stays destroyed; no instance returns to its first state; and the
      sidecar checks of a start never fail. */
  lemma OpLockstep(a: Api, g: Group, op: Op, disk: map<string, string>)
    requires Lockstep(g)
    ensures var e := Apply(a, g, op, disk);
            && Lockstep(e.group)
            && (g.self.state == StateDestroyed ==> e.group.self.state == StateDestroyed)
            && (g.self.state != StateNone ==> e.group.self.state != StateNone)
            && (op.OpStart? ==> e.err != Some(ErrStartingNotAllowedForSidecar))
  {
    match op
    case OpStart => StartLockstep(a, g, disk); StartAtomic(a, g, disk);
    case OpStop => Moved(g, StateStopped);
    case OpDestroy => Moved(g, StateDestroyed);
    case OpConfigure(next) => if Grown(g, next) { ConfigureLockstep(g, next); }
    case _ =>
  }

  // ---------------------------------------------------------------- what the cluster may hold for a group

  /** Whether an object named after a member may exist, given the state of the instance. */
  predicate MayExist(missed: set<Key>, kind: Kind, m: Member, main: bool, s: State) {
    if s == StateDestroyed then kind == NetworkPolicy && Key(kind, m.name) in missed
    else
      match kind
      case ReplicaSet => main
      case ServiceAccount => main
      case Role => main && m.rules != []
      case RoleBinding => main && m.rules != []
      case NetworkPolicy => main && !m.isSidecar
      case VolumeClaim => m.volumes != []
      case ConfigMap => m.files != []
      case Service => m.hasService || ((s == StateCommitted || s == StatePreparing) && !m.isSidecar && m.HasPorts())
      case DaemonSet => false
  }

  ghost predicate MemberAccounted(a: Api, m: Member, main: bool, s: State) {
    forall kind :: Key(kind, m.name) in a.objs ==> MayExist(a.missed, kind, m, main, s)
  }

  /** Every object named after the instance or a sidecar is one that its Destroy will delete. */
  ghost predicate Accounted(a: Api, g: Group) {
    && MemberAccounted(a, g.self, true, g.self.state)
    && forall i | 0 <= i < |g.sidecars| :: MemberAccounted(a, g.sidecars[i], false, g.self.state)
  }

  ghost predicate DistinctMembers(g: Group) {
    && (forall i | 0 <= i < |g.sidecars| :: g.sidecars[i].name != g.self.name)
    && forall i, j | 0 <= i < j < |g.sidecars| :: g.sidecars[i].name != g.sidecars[j].name
  }

  lemma ResourceOwner(g: Group, m: Member, kind: Kind)
    requires DistinctMembers(g) && m in g.Members() && Key(kind, m.name) in ResourceKeysOf(g.Members())
    ensures Key(kind, m.name) in ResourceKeys(m)
  {
    var n :| n in g.Members() && Key(kind, m.name) in ResourceKeys(n);
    assert n.name == m.name;
    var i :| 0 <= i < |g.Members()| && g.Members()[i] == m;
    var j :| 0 <= j < |g.Members()| && g.Members()[j] == n;
    assert i == j;
  }

  /** Two views of a member that the cluster cannot tell apart, but for the service pointer. */
  predicate SameFootprint(m: Member, n: Member) {
    && n.name == m.name && n.isSidecar == m.isSidecar && n.volumes == m.volumes && n.files == m.files
        && n.rules == m.rules
    && n.HasPorts() == m.HasPorts()
  }

  lemma NewKey(g: Group, m: Member, main: bool, kind: Kind, missed: set<Key>, n: Member, ok: bool)
    requires MayStart(g) && DistinctMembers(g) && m in g.Members() && (main <==> m.name == g.self.name)
            && (main ==> m == g.self)
    requires SameFootprint(m, n) && Key(kind, m.name) in StartKeys(g)
    requires ok && g.self.state == StateCommitted && !m.isSidecar && m.HasPorts() ==> n.hasService
    ensures MayExist(missed, kind, n, main, if ok then StateStarted else g.self.state)
  {
    if Key(kind, m.name) !in PodKeys(g.self) { ResourceOwner(g, m, kind); }
  }

  lemma StartedMember(a: Api, b: Api, g: Group, m: Member, n: Member, main: bool, ok: bool)
    requires MayStart(g) && DistinctMembers(g) && m in g.Members() && (main <==> m.name == g.self.name)
            && (main ==> m == g.self)
    requires Adds(a, b, StartKeys(g)) && MemberAccounted(a, m, main, g.self.state)
    requires SameFootprint(m, n) && (m.hasService ==> n.hasService)
    requires ok && g.self.state == StateCommitted && !m.isSidecar && m.HasPorts() ==> n.hasService
    ensures MemberAccounted(b, n, main, if ok then StateStarted else g.self.state)
  {
    forall kind | Key(kind, n.name) in b.objs ensures MayExist(b.missed, kind, n, main, if ok then StateStarted
        else g.self.state) {
      if Key(kind, m.name) !in a.objs {
        NewKey(g, m, main, kind, b.missed, n, ok);
      } else {
        assert MayExist(a.missed, kind, m, main, g.self.state);
      }
    }
  }

  lemma StartedAccounted(a: Api, b: Api, g: Group, h: Group, ok: bool, before: Group)
    requires Accounted(a, g) && DistinctMembers(g) && MayStart(g) && Adds(a, b, StartKeys(g))
    requires before == if ok then g.WithState(StateStarted) else g
    requires ServiceKnown(before.self, h.self, ok && g.self.state == StateCommitted)
    requires ServicesKnown(before.sidecars, h.sidecars, ok && g.self.state == StateCommitted, |g.sidecars|)
    ensures Accounted(b, h)
  {
    assert g.Members()[0] == g.self;
    StartedMember(a, b, g, g.self, h.self, true, ok);
    forall i | 0 <= i < |h.sidecars| ensures MemberAccounted(b, h.sidecars[i], false, h.self.state) {
      assert g.Members()[i + 1] == g.sidecars[i];
      assert ServiceKnown(before.sidecars[i], h.sidecars[i], ok && g.self.state == StateCommitted);
      assert MemberAccounted(a, g.sidecars[i], false, g.self.state);
      StartedMember(a, b, g, g.sidecars[i], h.sidecars[i], false, ok);
    }
  }

  lemma StartAccounted(a: Api, g: Group, disk: map<string, string>)
    requires Accounted(a, g) && DistinctMembers(g)
    ensures var e := Start(a, g, disk); Accounted(e.api, e.group)
  {
    var e := Start(a, g, disk);
    StartFootprint(a, g, disk);
    if MayStart(g) {
      StartedAccounted(a, e.api, g, e.group, e.err.None?, if e.err.None? then g.WithState(StateStarted) else g);
    }
  }

  lemma CutMember(a: Api, b: Api, names: set<string>, m: Member, main: bool, s: State)
    requires Cuts(a, b, names) && MemberAccounted(a, m, main, s)
    ensures MemberAccounted(b, m, main, s)
  {
  }

  lemma CutAccounted(a: Api, b: Api, names: set<string>, g: Group)
    requires Cuts(a, b, names) && Accounted(a, g)
    ensures Accounted(b, g)
  {
    CutMember(a, b, names, g.self, true, g.self.state);
    forall i | 0 <= i < |g.sidecars| { CutMember(a, b, names, g.sidecars[i], false, g.self.state); }
  }

  lemma StoppedAccounted(a: Api, g: Group)
    requires Accounted(a, g) && g.self.state == StateStarted
    ensures Accounted(a, g.WithState(StateStopped))
  {
    var h := g.WithState(StateStopped);
    assert MemberAccounted(a, h.self, true, StateStopped);
    forall i | 0 <= i < |g.sidecars| ensures MemberAccounted(a, h.sidecars[i], false, StateStopped) {
      assert MemberAccounted(a, g.sidecars[i], false, StateStarted);
    }
  }

  lemma GoneMember(a: Api, m: Member, main: bool, s: State)
    requires MemberAccounted(a, m, main, s) && (s == StateStarted || s == StateStopped)
    requires ResourcesGone(a, m) && (main ==> PodGone(a, m))
    ensures MemberAccounted(a, m, main, StateDestroyed)
  {
    forall kind | Key(kind, m.name) in a.objs ensures MayExist(a.missed, kind, m, main, StateDestroyed) {
      assert MayExist(a.missed, kind, m, main, s);
      if main { assert Key(kind, m.name) !in PodKeys(m); }
    }
  }

  lemma DestroyAccounted(a: Api, g: Group)
    requires Accounted(a, g)
    ensures var e := Destroy(a, g); Accounted(e.api, e.group)
  {
    var e := Destroy(a, g);
    DestroyFootprint(a, g);
    CutAccounted(a, e.api, g.Names(), g);
    if e.err.None? && g.self.state != StateDestroyed {
      var h := g.WithState(StateDestroyed);
      GoneMember(e.api, g.self, true, g.self.state);
      assert MemberAccounted(e.api, h.self, true, StateDestroyed);
      forall i | 0 <= i < |g.sidecars| ensures MemberAccounted(e.api, h.sidecars[i], false, StateDestroyed) {
        GoneMember(e.api, g.sidecars[i], false, g.self.state);
      }
    }
  }

  lemma NetworkAccounted(a: Api, g: Group)
    requires Accounted(a, g) && DistinctMembers(g) && (g.self.state == StateStarted ==> !g.self.isSidecar)
    ensures Accounted(Disable(a, g).api, g) && Accounted(Enable(a, g).api, g)
  {
    NetworkFootprint(a, g);
    CutAccounted(a, Enable(a, g).api, g.Names(), g);
    var b := Disable(a, g).api;
    assert MemberAccounted(b, g.self, true, g.self.state);
    forall i | 0 <= i < |g.sidecars| ensures MemberAccounted(b, g.sidecars[i], false, g.self.state) {
      assert MemberAccounted(a, g.sidecars[i], false, g.self.state);
    }
  }

  lemma GrownMember(a: Api, m: Member, n: Member, main: bool, s: State)
    requires MemberAccounted(a, m, main, s) && MemberGrown(m, n)
    ensures MemberAccounted(a, n, main, s)
  {
  }

  lemma GrownAccounted(a: Api, g: Group, h: Group)
    requires Accounted(a, g) && Grown(g, h)
    ensures Accounted(a, h)
  {
    GrownMember(a, g.self, h.self, true, g.self.state);
    forall i | 0 <= i < |g.sidecars| { GrownMember(a, g.sidecars[i], h.sidecars[i], false, g.self.state); }
  }

  /** Only an instance that is not a sidecar can be started by itself. */
  predicate StartedIsMain(g: Group) { g.self.state == StateStarted ==> !g.self.isSidecar }

  ghost predicate NoObjectNamed(a: Api, n: string) { forall kind :: Key(kind, n) !in a.objs }

  lemma AddedAccounted(a: Api, g: Group, m: Member)
    requires Accounted(a, g) && NoObjectNamed(a, m.name)
    ensures Accounted(a, WithSidecar(g, m))
  {
    var h := WithSidecar(g, m);
    assert MemberAccounted(a, h.self, true, h.self.state);
    forall i | 0 <= i < |h.sidecars| ensures MemberAccounted(a, h.sidecars[i], false, h.self.state) {
      if i < |g.sidecars| { assert MemberAccounted(a, g.sidecars[i], false, g.self.state); }
    }
  }

  /** Every operation keeps every object accounted for, whichever of its calls fail. */
  lemma OpAccounted(a: Api, g: Group, op: Op, disk: map<string, string>)
    requires Accounted(a, g) && DistinctMembers(g) && StartedIsMain(g)
    requires op.OpAddSidecar? ==> NoObjectNamed(a, op.sidecar.name)
    ensures var e := Apply(a, g, op, disk); Accounted(e.api, e.group) && StartedIsMain(e.group)
  {
    match op
    case OpStart => StartAccounted(a, g, disk); StartAtomic(a, g, disk); StartFootprint(a, g, disk);
    case OpStop =>
      StopFootprint(a, g);
      CutAccounted(a, Stop(a, g).api, g.Names(), g);
      if g.self.state == StateStarted { StoppedAccounted(Stop(a, g).api, g); }
    case OpDestroy => DestroyAccounted(a, g);
    case OpDisable => NetworkAccounted(a, g);
    case OpEnable => NetworkAccounted(a, g);
    case OpSetImage => AccountedElsewhere(a, g, StatePreparing, g.self.image);
    case OpCommit(image) => AccountedElsewhere(a, g, StateCommitted, image);
    case OpConfigure(next) => if Grown(g, next) { GrownAccounted(a, g, next); }
    case OpAddSidecar(m) => AddedAccounted(a, g, m);
  }

  lemma AccountedElsewhere(a: Api, g: Group, s: State, image: string)
    requires Accounted(a, g) && (s == StatePreparing || s == StateCommitted)
    ensures g.self.state == StateNone || g.self.state == StatePreparing || g.self.state == StateStopped ==>
              Accounted(a, g.(self := g.self.(state := s, image := image)))
  {
    if g.self.state == StateNone || g.self.state == StatePreparing || g.self.state == StateStopped {
      var h := g.(self := g.self.(state := s, image := image));
      assert MemberAccounted(a, h.self, true, s);
      forall i | 0 <= i < |g.sidecars| ensures MemberAccounted(a, h.sidecars[i], false, s) {
        assert MemberAccounted(a, g.sidecars[i], false, g.self.state);
      }
    }
  }
}
