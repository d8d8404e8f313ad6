/** The documented protocol: start, stop and start again, destroy; the network is cut off only
    while the instance is started, and an instance that was changed while it was stopped gets
    SetImage and Commit before it starts again. */
module Protocol {

  import opened Wrappers
  import opened PodSpec
  import opened Cluster
  import opened Lifecycle
  import opened Footprint
  import opened Runs
  import opened Progress
  import opened Stuck
  import opened Lookups
  import opened Worlds

  // ---------------------------------------------------------------- the protocol

  /** The operations on an instance; a change of configuration is a function, since it applies to
      whatever the instance is by then. */
  datatype ProtocolOp =
    | Begin | Halt | CutOff | Reconnect | Finish
    | NewImage | Approve(image: string) | Alter(change: Group -> Group) | Extend(sidecar: Member)

  ghost function OpOf(op: ProtocolOp, g: Group): Op {
    match op
    case Begin => OpStart
    case Halt => OpStop
    case CutOff => OpDisable
    case Reconnect => OpEnable
    case Finish => OpDestroy
    case NewImage => OpSetImage
    case Approve(image) => OpCommit(image)
    case Alter(change) => OpConfigure(change(g))
    case Extend(m) => OpAddSidecar(m)
  }

  ghost function Perform(a: Api, g: Group, op: ProtocolOp, disk: map<string, string>): Effect {
    Apply(a, g, OpOf(op, g), disk)
  }

  /** When an operation of the protocol succeeds: a condition on the state of the instance, and
      for the network on whether it is cut off. */
  ghost predicate Due(a: Api, g: Group, op: ProtocolOp) {
    match op
    case Begin => Startable(g.self.state)
    case Halt => g.self.state == StateStarted
    case CutOff => g.self.state == StateStarted && Policy(g.self) !in a.objs
    case Reconnect => g.self.state == StateStarted && Policy(g.self) in a.objs
    case Finish => g.self.state == StateStarted || g.self.state == StateDestroyed
    case NewImage => TakesImage(g.self.state)
    case Approve(_) => g.self.state == StatePreparing
    case Alter(change) => Grown(g, change(g))
    case Extend(m) => Configurable(g.self.state) && m.state == StateCommitted && !m.hasService
  }

  predicate TakesImage(s: State) { s == StateNone || s == StatePreparing || s == StateStopped }

  /** Whether there are changes that only a Commit will deploy. */
  predicate NowDirty(op: ProtocolOp, dirty: bool) {
    match op
    case Alter(_) => true
    case Extend(_) => true
    case NewImage => false
    case Begin => false
    case _ => dirty
  }

  /** What an operation may be given. */
  ghost predicate Sensible(g: Group, op: ProtocolOp, disk: map<string, string>) {
    match op
    case Alter(change) => Readable(change(g), disk)
    case Extend(m) => m.name !in g.Names() && forall f | f in m.files :: f.source in disk
    case _ => true
  }

  // ---------------------------------------------------------------- one operation

  lemma NetworkWorks(a: Api, g: Group, disk: map<string, string>, op: ProtocolOp, dirty: bool)
    requires Tidy(a, g, disk, dirty) && (op.CutOff? || op.Reconnect?)
    ensures var e := Perform(a, g, op, disk);
            && (e.err.None? <==> Due(a, g, op)) && Tidy(e.api, e.group, disk, dirty)
            && (e.err.Some? ==> e.api.objs == a.objs && e.group == g)
  {
    var e := Perform(a, g, op, disk);
    assert e.api.FaultFree();
    if Filed(a, g) { FiledStill(a, e.api, g); }
  }

  lemma FiledStill(a: Api, b: Api, g: Group)
    requires Filed(a, g) && forall n :: Key(ConfigMap, n) in a.objs ==> Key(ConfigMap, n) in b.objs
    ensures Filed(b, g)
  {
    forall i | 0 <= i < |g.sidecars| ensures HasConfigMap(b, g.sidecars[i]) { assert HasConfigMap(a, g.sidecars[i]); }
  }

  /** The main member in another state, or with another image; the pod has no objects then. */
  lemma BuildWorks(a: Api, g: Group, disk: map<string, string>, op: ProtocolOp, dirty: bool)
    requires Tidy(a, g, disk, dirty) && (op.NewImage? || op.Approve?)
    ensures var e := Perform(a, g, op, disk);
            && (e.err.None? <==> Due(a, g, op)) && Tidy(e.api, e.group, disk, NowDirty(op, dirty))
            && e.api == a && (e.err.Some? ==> e.group == g)
  {
    var e := Perform(a, g, op, disk);
    if e.err.None? { StillReadable(g, e.group, disk); }
  }

  lemma AlterWorks(a: Api, g: Group, disk: map<string, string>, change: Group -> Group, dirty: bool)
    requires Tidy(a, g, disk, dirty) && Readable(change(g), disk)
    ensures var e := Perform(a, g, Alter(change), disk);
            && (e.err.None? <==> Due(a, g, Alter(change))) && Tidy(e.api, e.group, disk, true)
            && e.api == a && (e.err.Some? ==> e.group == g)
  {
    var next := change(g);
    if Grown(g, next) {
      ConfigureLockstep(g, next);
      forall i | 0 <= i < |g.sidecars| ensures next.sidecars[i].name == g.sidecars[i].name {
        assert MemberGrown(g.sidecars[i], next.sidecars[i]);
      }
      if g.self.state == StateStarted { AlteredFiled(a, g, next); }
    }
  }

  /** A started instance is not changed, and neither are its sidecars. */
  lemma AlteredFiled(a: Api, g: Group, h: Group)
    requires Filed(a, g) && Grown(g, h) && Lockstep(g) && g.self.state == StateStarted
    ensures Filed(a, h)
  {
    forall i | 0 <= i < |g.sidecars| ensures HasConfigMap(a, h.sidecars[i]) {
      assert g.sidecars[i] in g.sidecars && MemberGrown(g.sidecars[i], h.sidecars[i]) && HasConfigMap(a, g.sidecars[i]);
    }
  }

  lemma ExtendWorks(a: Api, g: Group, disk: map<string, string>, m: Member, dirty: bool)
    requires Tidy(a, g, disk, dirty) && Sensible(g, Extend(m), disk)
    ensures var e := Perform(a, g, Extend(m), disk);
            && (e.err.None? <==> Due(a, g, Extend(m))) && Tidy(e.api, e.group, disk, true)
            && e.api == a && (e.err.Some? ==> e.group == g)
  {
    if Due(a, g, Extend(m)) {
      var h := WithSidecar(g, m);
      OpLockstep(a, g, OpAddSidecar(m), disk);
      OpNames(a, g, OpAddSidecar(m), disk);
      ExtendedReadable(g, m, disk);
    }
  }

  lemma ExtendedReadable(g: Group, m: Member, disk: map<string, string>)
    requires Readable(g, disk) && forall f | f in m.files :: f.source in disk
    ensures Readable(WithSidecar(g, m), disk)
  {
    var h := WithSidecar(g, m);
    forall n, f | n in h.Members() && f in n.files ensures f.source in disk {
      var i :| 0 <= i < |h.Members()| && h.Members()[i] == n;
      if i <= |g.sidecars| { assert f in g.Members()[i].files; }
    }
  }

  lemma FinishWorks(a: Api, g: Group, disk: map<string, string>, dirty: bool)
    requires Tidy(a, g, disk, dirty)
    ensures var e := Destroy(a, g);
            && (e.err.None? <==> Due(a, g, Finish)) && Tidy(e.api, e.group, disk, dirty)
            && (e.err.Some? ==> e.api.objs == a.objs && e.group == g)
  {
    StopDestroyAtomic(a, g);
    if g.self.state == StateStarted {
      DestroyExactly(a, g);
      StillReadable(g, g.WithState(StateDestroyed), disk);
    } else if g.self.state == StateStopped {
      DestroyAfterStop(a, g);
      if Filed(a, g) { FiledStill(a, Destroy(a, g).api, g); }
    }
  }

  /** In the protocol, without failing calls, every operation succeeds exactly when it is due,
      one that is not due changes nothing, and in both cases the next operation finds the
      cluster as the protocol needs it. The one thing the protocol rules out is starting a
      stopped instance that was changed. */
  lemma ProtocolProgress(a: Api, g: Group, op: ProtocolOp, disk: map<string, string>, dirty: bool)
    requires Tidy(a, g, disk, dirty) && Sensible(g, op, disk)
    requires op.Begin? && g.self.state == StateStopped ==> !dirty
    ensures var e := Perform(a, g, op, disk);
            && (e.err.None? <==> Due(a, g, op))
            && Tidy(e.api, e.group, disk, NowDirty(op, dirty))
            && (e.err.Some? ==> e.api.objs == a.objs && e.group == g)
  {
    match op
    case Begin => if Startable(g.self.state) { StartWorks(a, g, disk); }
    case Halt => if g.self.state == StateStarted { StopWorks(a, g, disk); }
    case CutOff => NetworkWorks(a, g, disk, op, dirty);
    case Reconnect => NetworkWorks(a, g, disk, op, dirty);
    case Finish => FinishWorks(a, g, disk, dirty);
    case NewImage => BuildWorks(a, g, disk, op, dirty);
    case Approve(_) => BuildWorks(a, g, disk, op, dirty);
    case Alter(change) => AlterWorks(a, g, disk, change, dirty);
    case Extend(m) => ExtendWorks(a, g, disk, m, dirty);
  }

  // ---------------------------------------------------------------- whole runs

  /** One operation after the other, up to the first error. */
  ghost function PerformAll(a: Api, g: Group, ops: seq<ProtocolOp>, disk: map<string, string>): Effect
    decreases |ops|
  {
    if ops == [] then Effect(a, g, None)
    else
      var e := Perform(a, g, ops[0], disk);
      if e.err.Some? then e else PerformAll(e.api, e.group, ops[1..], disk)
  }

  /** Where a plan stands: the state, whether the network is cut off, and whether there are
      changes that only a Commit will deploy. */
  datatype Standing = Standing(state: State, cut: bool, dirty: bool)

  /** The operation may come next. */
  ghost predicate Allowed(op: ProtocolOp, st: Standing) {
    match op
    case Begin => st.state == StateCommitted || (st.state == StateStopped && !st.dirty)
    case Halt => st.state == StateStarted
    case CutOff => st.state == StateStarted && !st.cut
    case Reconnect => st.state == StateStarted && st.cut
    case Finish => st.state == StateStarted
    case NewImage => TakesImage(st.state)
    case Approve(_) => st.state == StatePreparing
    case Alter(_) => Configurable(st.state)
    case Extend(m) => Configurable(st.state) && m.state == StateCommitted && !m.hasService
  }

  ghost function After(op: ProtocolOp, st: Standing): Standing {
    Standing(
      match op
      case Begin => StateStarted
      case Halt => StateStopped
      case Finish => StateDestroyed
      case NewImage => StatePreparing
      case Approve(_) => StateCommitted
      case _ => st.state,
      op.CutOff? || (st.cut && !op.Reconnect? && !op.Finish?), NowDirty(op, st.dirty))
  }

  /** A plan of the protocol from where it stands to the end: which operation may come next does
      not depend on the cluster. */
  ghost predicate Plan(ops: seq<ProtocolOp>, st: Standing)
    decreases |ops|
  {
    if ops == [] then st.state == StateDestroyed
    else Allowed(ops[0], st) && Plan(ops[1..], After(ops[0], st))
  }

  /** A change of configuration only adds, and only to what may be configured. */
  ghost predicate Additive(change: Group -> Group, disk: map<string, string>) {
    forall g: Group :: Grown(g, change(g)) && (Readable(g, disk) ==> Readable(change(g), disk))
  }

  /** No object and no missed policy bears one of the names. */
  ghost predicate NewTo(a: Api, names: set<string>) {
    forall k | k in a.objs || k in a.missed :: k.name !in names
  }

  /** Changes are additive; every sidecar that is added has a name new to the instance and the cluster. */
  ghost predicate Suited(a: Api, g: Group, op: ProtocolOp, disk: map<string, string>) {
    && (op.Alter? ==> Additive(op.change, disk))
    && (op.Extend? ==> Sensible(g, op, disk) && NewTo(a, {op.sidecar.name}))
  }

  ghost predicate AllSuited(a: Api, g: Group, ops: seq<ProtocolOp>, disk: map<string, string>) {
    && (forall op | op in ops :: Suited(a, g, op, disk))
    && forall i, j | 0 <= i < j < |ops| && ops[i].Extend? && ops[j].Extend? ::
         ops[i].sidecar.name != ops[j].sidecar.name
  }

  // ---------------------------------------------------------------- what a step keeps

  /** From a and g to b and h every object stays accounted for, only objects of the group have
      changed, names it gained were not in use, and no policy was passed over. */
  ghost predicate Kept(a: Api, g: Group, b: Api, h: Group) {
    && Accounted(b, h) && DistinctMembers(h) && StartedIsMain(h)
    && g.Names() <= h.Names() && NewTo(a, h.Names() - g.Names())
    && Only(a, b, h.Names()) && b.missed == a.missed
  }

  lemma KeptThen(a: Api, g: Group, b: Api, h: Group, c: Api, i: Group)
    requires Kept(a, g, b, h) && Kept(b, h, c, i)
    ensures Kept(a, g, c, i)
  {
    forall k | k in a.objs || k in a.missed ensures k.name !in i.Names() - g.Names() {
      assert k.name in i.Names() && k.name !in h.Names() ==> k in b.objs || k in b.missed;
    }
  }

  lemma StepAccounted(a: Api, g: Group, op: ProtocolOp, disk: map<string, string>)
    requires Accounted(a, g) && DistinctMembers(g) && StartedIsMain(g) && Suited(a, g, op, disk)
    ensures var e := Perform(a, g, op, disk); Accounted(e.api, e.group) && StartedIsMain(e.group)
  {
    if op.Extend? {
      forall kind ensures Key(kind, op.sidecar.name) !in a.objs {
        assert Key(kind, op.sidecar.name).name == op.sidecar.name;
      }
    }
    OpAccounted(a, g, OpOf(op, g), disk);
  }

  lemma StepNames(a: Api, g: Group, op: ProtocolOp, disk: map<string, string>)
    requires DistinctMembers(g) && Suited(a, g, op, disk)
    ensures var h := Perform(a, g, op, disk).group;
            && DistinctMembers(h) && g.Names() <= h.Names() && NewTo(a, h.Names() - g.Names())
            && h.Names() <= g.Names() + if op.Extend? then {op.sidecar.name} else {}
  {
    OpNames(a, g, OpOf(op, g), disk);
  }

  lemma StepKept(a: Api, g: Group, op: ProtocolOp, disk: map<string, string>)
    requires Accounted(a, g) && DistinctMembers(g) && StartedIsMain(g) && a.FaultFree() && Suited(a, g, op, disk)
    ensures var e := Perform(a, g, op, disk); Kept(a, g, e.api, e.group)
  {
    var e, o := Perform(a, g, op, disk), OpOf(op, g);
    StepAccounted(a, g, op, disk);
    StepNames(a, g, op, disk);
    assert Only(a, e.api, g.Names()) by { OpOnly(a, g, o, disk); }
    assert e.api.missed == a.missed by { OpCalm(a, g, o, disk); }
  }

  // ---------------------------------------------------------------- where a step leads

  /** Where a run of the protocol stands. */
  ghost predicate At(a: Api, g: Group, disk: map<string, string>, st: Standing) {
    && Tidy(a, g, disk, st.dirty) && Accounted(a, g) && g.self.state == st.state
    && (st.state != StateDestroyed ==> (st.cut <==> Policy(g.self) in a.objs))
  }

  lemma PolicyStarts(a: Api, g: Group, disk: map<string, string>)
    ensures Policy(g.self) in Start(a, g, disk).api.objs <==> Policy(g.self) in a.objs
  {
    StartGains(a, g, disk);
    StartAdds(a, g, disk);
    NoPolicyInStartKeys(g);
  }

  lemma StartAdds(a: Api, g: Group, disk: map<string, string>)
    ensures Adds(a, Start(a, g, disk).api, StartKeys(g))
  {
    StartFootprint(a, g, disk);
  }

  lemma NoPolicyInStartKeys(g: Group)
    ensures forall k | k in StartKeys(g) :: k.kind != NetworkPolicy
  {
  }

  lemma PolicyStops(a: Api, g: Group)
    requires a.FaultFree() && PodExact(a, g)
    ensures Policy(g.self) in Stop(a, g).api.objs <==> Policy(g.self) in a.objs
  {
    if g.self.state == StateStarted { DestroyPodWorks(a, g); }
  }

  lemma PolicyStays(a: Api, g: Group, op: ProtocolOp, disk: map<string, string>)
    requires a.FaultFree() && PodExact(a, g) && !op.CutOff? && !op.Reconnect? && !op.Finish?
    ensures Policy(g.self) in Perform(a, g, op, disk).api.objs <==> Policy(g.self) in a.objs
  {
    match op
    case Begin => PolicyStarts(a, g, disk);
    case Halt => PolicyStops(a, g);
    case _ =>
  }

  lemma SelfName(a: Api, g: Group, op: ProtocolOp, disk: map<string, string>)
    ensures Perform(a, g, op, disk).group.self.name == g.self.name
  {
    match op
    case Begin => StartFootprint(a, g, disk);
    case Finish => StopDestroyAtomic(a, g);
    case _ =>
  }

  lemma StateAfter(a: Api, g: Group, op: ProtocolOp, disk: map<string, string>, st: Standing)
    requires g.self.state == st.state && Allowed(op, st) && Perform(a, g, op, disk).err.None?
    ensures Perform(a, g, op, disk).group.self.state == After(op, st).state
  {
    match op
    case Begin => StartAtomic(a, g, disk);
    case Finish => StopDestroyAtomic(a, g);
    case _ =>
  }

  lemma AllowedDue(a: Api, g: Group, op: ProtocolOp, disk: map<string, string>, st: Standing)
    requires At(a, g, disk, st) && Allowed(op, st) && Suited(a, g, op, disk)
    ensures Due(a, g, op) && Sensible(g, op, disk)
  {
  }

  lemma CutAfter(a: Api, g: Group, op: ProtocolOp, disk: map<string, string>, st: Standing)
    requires At(a, g, disk, st) && Allowed(op, st) && Perform(a, g, op, disk).err.None?
    ensures var e, to := Perform(a, g, op, disk), After(op, st);
            to.state != StateDestroyed ==> (to.cut <==> Policy(e.group.self) in e.api.objs)
  {
    SelfName(a, g, op, disk);
    if !op.CutOff? && !op.Reconnect? && !op.Finish? { PolicyStays(a, g, op, disk); }
  }

  lemma Leads(a: Api, g: Group, op: ProtocolOp, disk: map<string, string>, st: Standing)
    requires At(a, g, disk, st) && Allowed(op, st) && Suited(a, g, op, disk)
    ensures var e := Perform(a, g, op, disk);
            e.err.None? && Kept(a, g, e.api, e.group) && At(e.api, e.group, disk, After(op, st))
  {
    assert StartedIsMain(g);
    AllowedDue(a, g, op, disk, st);
    ProtocolProgress(a, g, op, disk, st.dirty);
    StepKept(a, g, op, disk);
    StateAfter(a, g, op, disk, st);
    CutAfter(a, g, op, disk, st);
  }

  /** What suited the whole plan suits the rest of it. */
  lemma RestSuited(a: Api, g: Group, ops: seq<ProtocolOp>, disk: map<string, string>, b: Api, h: Group)
    requires ops != [] && AllSuited(a, g, ops, disk) && Kept(a, g, b, h)
    requires h.Names() <= g.Names() + if ops[0].Extend? then {ops[0].sidecar.name} else {}
    ensures AllSuited(b, h, ops[1..], disk)
  {
    forall op | op in ops[1..] ensures Suited(b, h, op, disk) {
      var i :| 0 <= i < |ops[1..]| && ops[1..][i] == op;
      assert ops[i + 1] == op && op in ops;
      if op.Extend? {
        assert op.sidecar.name !in h.Names();
        forall k | k in b.objs || k in b.missed ensures k.name != op.sidecar.name {
          assert k.name == op.sidecar.name ==> k in a.objs || k in a.missed;
        }
      }
    }
  }

  lemma {:induction false} PlanRuns(a: Api, g: Group, ops: seq<ProtocolOp>, disk: map<string, string>, st: Standing)
    requires At(a, g, disk, st) && Plan(ops, st) && AllSuited(a, g, ops, disk)
    ensures var e := PerformAll(a, g, ops, disk);
            e.err.None? && e.group.self.state == StateDestroyed && Kept(a, g, e.api, e.group)
    decreases |ops|
  {
    if ops != [] {
      var op := ops[0];
      assert op in ops;
      Leads(a, g, op, disk, st);
      StepNames(a, g, op, disk);
      var e := Perform(a, g, op, disk);
      RestSuited(a, g, ops, disk, e.api, e.group);
      PlanRuns(e.api, e.group, ops[1..], disk, After(op, st));
      var f := PerformAll(e.api, e.group, ops[1..], disk);
      KeptThen(a, g, e.api, e.group, f.api, f.group);
    }
  }

  /** Where an instance stands that has never been started: a stopped one is a clone, and nothing
      of it has been deployed. */
  ghost function Beginning(g: Group): Standing {
    Standing(g.self.state, false, g.self.state == StateStopped)
  }

  lemma FreshStart(a: Api, g: Group, disk: map<string, string>)
    requires a.FaultFree() && Newborn(g) && !g.self.isSidecar && Readable(g, disk) && NewTo(a, g.Names())
    ensures At(a, g, disk, Beginning(g))
  {
    MemberNames(g, g.self.name);
    assert MemberAccounted(a, g.self, true, g.self.state);
    forall i | 0 <= i < |g.sidecars| ensures MemberAccounted(a, g.sidecars[i], false, g.self.state) {
      MemberNames(g, g.sidecars[i].name);
    }
  }

  /** The protocol conserves the cluster. Take a new instance or a clone, none of whose names
      occurs in the cluster, and any plan of the protocol: SetImage, Commit, Start (Stop Start)*
      Destroy, with the network cut off and reconnected while started, and with anything added to
      the configuration, sidecars included, whenever that is allowed, as long as SetImage and
      Commit follow on what was added while stopped. When no call fails, every operation succeeds
      and the cluster ends as it began. */
  lemma ProtocolConserves(a: Api, g: Group, ops: seq<ProtocolOp>, disk: map<string, string>)
    requires a.FaultFree() && Newborn(g) && !g.self.isSidecar && Readable(g, disk) && NewTo(a, g.Names())
    requires Plan(ops, Beginning(g)) && AllSuited(a, g, ops, disk)
    ensures var e := PerformAll(a, g, ops, disk);
            e.err.None? && e.group.self.state == StateDestroyed && e.api.objs == a.objs
  {
    FreshStart(a, g, disk);
    PlanRuns(a, g, ops, disk, Beginning(g));
    var e := PerformAll(a, g, ops, disk);
    forall k: Key ensures k in e.api.objs <==> k in a.objs {
      if k.name in e.group.Names() {
        if k in e.api.objs { LeftOver(e.api, e.group, k); }
      }
    }
    forall k: Key | k in a.objs ensures e.api.objs[k] == a.objs[k] {
      assert k.name !in e.group.Names();
    }
  }

  lemma LeftOver(a: Api, g: Group, k: Key)
    requires Accounted(a, g) && g.self.state == StateDestroyed && k in a.objs && k.name in g.Names()
    ensures k in a.missed
  {
    MemberNames(g, k.name);
    assert k == Key(k.kind, k.name);
    assert MemberAccounted(a, g.self, true, StateDestroyed);
    assert forall i | 0 <= i < |g.sidecars| :: MemberAccounted(a, g.sidecars[i], false, StateDestroyed);
  }
}
