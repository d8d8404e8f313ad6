/** Runs that do not end as they should: a network policy left behind, and an instance that can
    never be destroyed. */
module RunFindings {

  import opened Wrappers
  import opened PodSpec
  import opened Cluster
  import opened Lifecycle
  import opened Runs
  import opened Worlds
  import opened Stuck
  import opened Lookups
  import opened Progress

  // ---------------------------------------------------------------- one plain instance

  const PLAIN := Member("a", StateNone, false, "", [], [], map[], [], [], [], [], [], [], [], false)

  function At(s: State, files: seq<File>): Group {
    Group(PLAIN.(state := s, image := if s == StateNone || s == StatePreparing then "" else "i", files := files), [])
  }

  const ROOT := World(map[], {}, [])

  function One(objs: map<Key, Object>, missed: set<Key>, g: Group): World { World(objs, missed, [g]) }

  const ACCOUNT := Key(ServiceAccount, "a")
  const REPLICAS := Key(ReplicaSet, "a")
  const POLICY := Key(NetworkPolicy, "a")

  function PodOf(g: Group): map<Key, Object> { map[ACCOUNT := Bare, REPLICAS := Template(g.Pod())] }

  lemma RunMore(w: World, acts: seq<Action>, act: Action)
    ensures Run(w, acts + [act]) == Step(Run(w, acts), act)
  {
    assert (acts + [act])[..|acts|] == acts;
  }

  lemma Joins()
    ensures Step(ROOT, Join(At(StateNone, []))) == One(map[], {}, At(StateNone, []))
  {
    assert ROOT.Names() == {};
  }

  /** The disk holds the file that is added later. */
  const DISK: map<string, string> := map["s" := "x"]

  function Does(op: Op): Action { Act(0, op, [], DISK) }

  lemma Commits()
    ensures Step(One(map[], {}, At(StateNone, [])), Does(OpSetImage)) == One(map[], {}, At(StatePreparing, []))
    ensures Step(One(map[], {}, At(StatePreparing, [])), Does(OpCommit("i"))) == One(map[], {}, At(StateCommitted, []))
  {
  }

  lemma Starts()
    ensures Step(One(map[], {}, At(StateCommitted, [])), Does(OpStart)) ==
            One(PodOf(At(StateCommitted, [])), {}, At(StateStarted, []))
  {
    var g := At(StateCommitted, []);
    var a := Api(map[], [], {});
    assert DeployCommitted(a, g, DISK) == Effect(a, g, None);
    assert DeployPod(a, g) == Reply(Api(PodOf(g), [], {}), true);
    assert g.WithState(StateStarted) == At(StateStarted, []);
  }

  const TO_START: seq<Action> := [Join(At(StateNone, [])), Does(OpSetImage), Does(OpCommit("i")), Does(OpStart)]

  lemma Started()
    ensures Run(ROOT, TO_START) == One(PodOf(At(StateCommitted, [])), {}, At(StateStarted, []))
  {
    var a0, a1, a2, a3 := TO_START[0], TO_START[1], TO_START[2], TO_START[3];
    RunMore(ROOT, [], a0);
    RunMore(ROOT, [a0], a1);
    RunMore(ROOT, [a0, a1], a2);
    RunMore(ROOT, [a0, a1, a2], a3);
    assert [] + [a0] == [a0] && [a0] + [a1] == [a0, a1] && [a0, a1] + [a2] == [a0, a1, a2]
        && [a0, a1, a2] + [a3] == TO_START;
    Joins();
    Commits();
    Starts();
  }

  // ---------------------------------------------------------------- a policy left behind

  /** Destroy, with the three calls on the pod working and the lookup of the policy failing. */
  const LOSES: Action := Act(0, OpDestroy, [Works, Works, Works, Refused], DISK)

  lemma CutsOff()
    ensures var objs := PodOf(At(StateCommitted, []));
            Step(One(objs, {}, At(StateStarted, [])), Does(OpDisable)) == One(objs[POLICY := Bare], {},
                At(StateStarted, []))
  {
  }

  lemma LosesPolicy(objs: map<Key, Object>)
    requires objs == PodOf(At(StateCommitted, []))
    ensures Step(One(objs[POLICY := Bare], {}, At(StateStarted, [])), LOSES) ==
            One(map[POLICY := Bare], {POLICY}, At(StateDestroyed, []))
  {
    var g := At(StateStarted, []);
    PodGoes(objs);
    PolicyMissed();
    assert g.WithState(StateDestroyed) == At(StateDestroyed, []);
  }

  lemma PodGoes(objs: map<Key, Object>)
    requires objs == PodOf(At(StateCommitted, []))
    ensures DestroyPod(Api(objs[POLICY := Bare], LOSES.script, {}), At(StateStarted, []).self) ==
            Reply(Api(map[POLICY := Bare], [Refused], {}), true)
  {
    var a := Api(objs[POLICY := Bare], LOSES.script, {});
    assert a.Popped().script == [Works, Works, Refused] && a.Popped().Popped().script == [Works, Refused];
    assert objs[POLICY := Bare] - {REPLICAS} == map[ACCOUNT := Bare, POLICY := Bare];
    assert a.DeleteIfPresent(REPLICAS) ==
           Reply(Api(map[ACCOUNT := Bare, POLICY := Bare], [Works, Refused], {}), true);
    assert map[ACCOUNT := Bare, POLICY := Bare] - {ACCOUNT} == map[POLICY := Bare];
  }

  lemma PolicyMissed()
    ensures DestroyResources(Api(map[POLICY := Bare], [Refused], {}), At(StateStarted, []).self) ==
            Reply(Api(map[POLICY := Bare], [], {POLICY}), true)
  {
  }

  const LEAVING: seq<Action> := TO_START + [Does(OpDisable)] + [LOSES]

  lemma PolicyRun()
    ensures Run(ROOT, LEAVING) == One(map[POLICY := Bare], {POLICY}, At(StateDestroyed, []))
  {
    Started();
    RunMore(ROOT, TO_START, Does(OpDisable));
    RunMore(ROOT, TO_START + [Does(OpDisable)], LOSES);
    CutsOff();
    LosesPolicy(PodOf(At(StateCommitted, [])));
  }

  /** Start, Disable, Destroy: the lookup takes the failure for absence, Destroy succeeds, and
      the policy stays. */
  lemma PolicyLeftBehind()
    ensures forall act | act in LEAVING :: Fresh(map[], act) && !act.Rename?
    ensures Run(ROOT, LEAVING) == One(map[POLICY := Bare], {POLICY}, At(StateDestroyed, []))
    ensures Run(ROOT, LEAVING).objs != map[]
  {
    PolicyRun();
    assert POLICY in Run(ROOT, LEAVING).objs;
  }

  // ---------------------------------------------------------------- a file added to a stopped instance

  const FILE := File("s", ["etc", "f"], "0:0", "644")

  lemma Stops()
    ensures Step(One(PodOf(At(StateCommitted, [])), {}, At(StateStarted, [])), Does(OpStop)) == One(map[], {},
            At(StateStopped, []))
  {
    var g, a := At(StateStarted, []), Api(PodOf(At(StateCommitted, [])), [], {});
    assert DestroyPod(a, g.self) == Reply(Api(map[], [], {}), true);
    assert g.WithState(StateStopped) == At(StateStopped, []);
  }

  lemma AddsFile()
    ensures Step(One(map[], {}, At(StateStopped, [])), Does(OpConfigure(At(StateStopped, [FILE])))) ==
            One(map[], {}, At(StateStopped, [FILE]))
  {
    assert MemberGrown(At(StateStopped, []).self, At(StateStopped, [FILE]).self);
    assert Grown(At(StateStopped, []), At(StateStopped, [FILE]));
  }

  lemma StartsAgain()
    ensures Step(One(map[], {}, At(StateStopped, [FILE])), Does(OpStart)) ==
            One(PodOf(At(StateStopped, [FILE])), {}, At(StateStarted, [FILE]))
  {
    var g := At(StateStopped, [FILE]);
    var a := Api(map[], [], {});
    assert DeployPod(a, g) == Reply(Api(PodOf(g), [], {}), true);
    assert g.WithState(StateStarted) == At(StateStarted, [FILE]);
  }

  lemma DestroyFails()
    ensures Step(One(PodOf(At(StateStopped, [FILE])), {}, At(StateStarted, [FILE])), Does(OpDestroy)) ==
            One(map[], {}, At(StateStarted, [FILE]))
  {
    var g, a := At(StateStarted, [FILE]), Api(PodOf(At(StateStopped, [FILE])), [], {});
    var pod := DestroyPod(a, g.self);
    assert pod == Reply(Api(map[], [], {}), true);
    assert DestroyResources(pod.api, g.self) == Reply(Api(map[], [], {}), false);
  }

  const FILE_RUN: seq<Action> :=
    TO_START + [Does(OpStop)] + [Does(OpConfigure(At(StateStopped, [FILE])))] + [Does(OpStart)] + [Does(OpDestroy)]

  lemma FileRun()
    ensures Run(ROOT, FILE_RUN) == One(map[], {}, At(StateStarted, [FILE]))
  {
    var b0 := TO_START + [Does(OpStop)];
    var b1 := b0 + [Does(OpConfigure(At(StateStopped, [FILE])))];
    Started();
    RunMore(ROOT, TO_START, Does(OpStop));
    RunMore(ROOT, b0, Does(OpConfigure(At(StateStopped, [FILE]))));
    RunMore(ROOT, b1, Does(OpStart));
    RunMore(ROOT, b1 + [Does(OpStart)], Does(OpDestroy));
    Stops();
    AddsFile();
    StartsAgain();
    DestroyFails();
  }

  lemma FileRunStuck()
    ensures Invariant(map[], Run(ROOT, FILE_RUN))
    ensures var w := Run(ROOT, FILE_RUN);
            |w.groups| == 1 && IsStuck(w.Api([]), w.groups[0]) && w.groups[0].self.state == StateStarted
  {
    FileRun();
    WithoutRenaming(ROOT, FILE_RUN);
    Reachable(map[], FILE_RUN);
  }

  lemma FileNotFiled()
    ensures !Filed(Api(PodOf(At(StateStopped, [FILE])), [], {}), At(StateStarted, [FILE]))
  {
  }

  /** A file is added while stopped and the instance is started without SetImage and Commit, so
      no ConfigMap is deployed: not a single call fails, Destroy does, and because it has deleted
      the service account by then no later operation will ever end the instance. */
  lemma FileAddedWhileStopped(more: seq<Action>)
    requires AllInTime(Run(ROOT, FILE_RUN), more) && forall act | act in more :: Fresh(map[], act)
    ensures !Filed(Api(PodOf(At(StateStopped, [FILE])), [], {}), At(StateStarted, [FILE]))
    ensures var w := Run(Run(ROOT, FILE_RUN), more);
            |w.groups| >= 1 && w.groups[0].self.state == StateStarted
  {
    FileNotFiled();
    FileRunStuck();
    StuckForever(map[], Run(ROOT, FILE_RUN), more, 0);
  }

  // ---------------------------------------------------------------- a started instance takes another name

  /** SetName works in every state: of a started instance it makes Destroy fail, and everything
      that was deployed stays in the cluster under the old name. */
  lemma RenamedWhileStarted()
    ensures Run(ROOT, TO_START + [Rename(0, 0, "b")] + [Does(OpDestroy)]) ==
            One(PodOf(At(StateCommitted, [])), {}, Renamed(At(StateStarted, []), 0, "b"))
    ensures !InTime(Run(ROOT, TO_START), Rename(0, 0, "b"))
  {
    Started();
    RunMore(ROOT, TO_START, Rename(0, 0, "b"));
    RunMore(ROOT, TO_START + [Rename(0, 0, "b")], Does(OpDestroy));
    var w, g := Run(ROOT, TO_START), Renamed(At(StateStarted, []), 0, "b");
    assert w.groups[0].Members() == [At(StateStarted, []).self];
    MemberNames(w.groups[0], "b");
    assert w.Names() == w.groups[0].Names();
    assert ACCOUNT in w.objs;
    assert Key(ServiceAccount, "b") !in w.objs && Key(ReplicaSet, "b") !in w.objs;
  }
}
