/** The Kubernetes API as the program's client wrappers use it. Every call consumes one entry
    of a script of outcomes, so a statement about all scripts is about all patterns of
    failure. */
module Cluster {

  import opened PodSpec

  datatype Kind =
    | ReplicaSet | ServiceAccount | Role | RoleBinding | Service | VolumeClaim | ConfigMap | NetworkPolicy | DaemonSet

  datatype Key = Key(kind: Kind, name: string)

  datatype Object =
    | Bare
    | Template(config: PodConfig)
    | Ports(tcp: seq<int>, udp: seq<int>)
    | Size(total: nat)
    | Rules(rules: seq<string>)
    | Entries(data: map<string, string>)
    | InitImages(images: seq<(string, string)>)

  /** A call works; or is refused without effect; or takes effect while its reply is lost. */
  datatype Outcome = Works | Refused | Lost

  /** The objects, the outcomes of the calls to come (an exhausted script means that all
      work), and the network policies that a failed lookup has passed over as absent. */
  datatype Api = Api(objs: map<Key, Object>, script: seq<Outcome>, missed: set<Key>)
  {
    /** No call of this script fails. */
    predicate FaultFree() { forall i | 0 <= i < |script| :: script[i] == Works }

    function Next(): (o: Outcome)
      ensures FaultFree() ==> o == Works
    {
      if script == [] then Works else script[0]
    }

    function Popped(): (a: Api)
      ensures FaultFree() ==> a.FaultFree()
      ensures a.objs == objs && a.missed == missed
    {
      if script == [] then this else this.(script := script[1..])
    }

    /** Create fails on an existing object. */
    function Create(k: Key, o: Object): Reply {
      if Next().Refused? || k in objs then Reply(Popped(), false)
      else Reply(Popped().(objs := objs[k := o]), Next().Works?)
    }

    /** Delete fails on an absent object. */
    function Delete(k: Key): Reply {
      if Next().Refused? || k !in objs then Reply(Popped(), false)
      else Reply(Popped().(objs := objs - {k}), Next().Works?)
    }

    /** A lookup that tolerates absence, then Delete: PVCs, services and ReplicaSets. */
    function DeleteIfPresent(k: Key): Reply {
      if !Next().Works? then Reply(Popped(), false)
      else if k !in objs then Reply(Popped(), true)
      else Popped().Delete(k)
    }

    /** A lookup that does not tolerate absence, then Delete: ConfigMaps. */
    function DeleteExisting(k: Key): Reply {
      if !Next().Works? || k !in objs then Reply(Popped(), false) else Popped().Delete(k)
    }

    /** Update, and Create if the reply says that the object does not exist: ConfigMaps. */
    function CreateOrUpdate(k: Key, o: Object): Reply {
      if Next().Refused? then Reply(Popped(), false)
      else if k in objs then Reply(Popped().(objs := objs[k := o]), Next().Works?)
      else if Next().Works? then Popped().Create(k, o)
      else Reply(Popped(), false)
    }

    /** Update fails on an absent object. */
    function Update(k: Key, o: Object): Reply {
      if Next().Refused? || k !in objs then Reply(Popped(), false)
      else Reply(Popped().(objs := objs[k := o]), Next().Works?)
    }

    /** The API server creates a service that is updated without existing. */
    function Put(k: Key, o: Object): Reply {
      if Next().Refused? then Reply(Popped(), false)
      else Reply(Popped().(objs := objs[k := o]), Next().Works?)
    }

    /** Existence checks that take every failure for absence. */
    function Exists(k: Key): Reply { Reply(Popped(), Next().Works? && k in objs) }

    function PolicyExists(k: Key): Reply {
      Reply(if k in objs && !Next().Works? then Popped().(missed := missed + {k}) else Popped(),
            Next().Works? && k in objs)
    }

    /** Whether GetService returns a non-nil pointer; the real client does so even when the
        service does not exist or the lookup fails, so this says nothing about existence. */
    function ServicePointer(): Reply { Reply(Popped(), !Next().Refused?) }

    /** A call outside the kinds modelled here. */
    function Other(): Reply { Reply(Popped(), Next().Works?) }
  }

  datatype Reply = Reply(api: Api, ok: bool)

  /** The client object that every instance shares. */
  class Client {
    var api: Api

    constructor (objs: map<Key, Object>, script: seq<Outcome>)
      ensures api == Api(objs, script, {})
    {
      api := Api(objs, script, {});
    }

    method Create(k: Key, o: Object) returns (ok: bool)
      modifies this
      ensures Reply(api, ok) == old(api).Create(k, o)
    {
      var r := api.Create(k, o);
      api, ok := r.api, r.ok;
    }

    method Delete(k: Key) returns (ok: bool)
      modifies this
      ensures Reply(api, ok) == old(api).Delete(k)
    {
      var r := api.Delete(k);
      api, ok := r.api, r.ok;
    }

    method DeleteIfPresent(k: Key) returns (ok: bool)
      modifies this
      ensures Reply(api, ok) == old(api).DeleteIfPresent(k)
    {
      var found := api.Next().Works?;
      var present := k in api.objs;
      api := api.Popped();
      if !found { return false; }
      if !present { return true; }
      ok := Delete(k);
    }

    method DeleteExisting(k: Key) returns (ok: bool)
      modifies this
      ensures Reply(api, ok) == old(api).DeleteExisting(k)
    {
      var found := api.Next().Works? && k in api.objs;
      api := api.Popped();
      if !found { return false; }
      ok := Delete(k);
    }

    method CreateOrUpdate(k: Key, o: Object) returns (ok: bool)
      modifies this
      ensures Reply(api, ok) == old(api).CreateOrUpdate(k, o)
    {
      var outcome := api.Next();
      var present := k in api.objs;
      api := api.Popped();
      if outcome.Refused? { return false; }
      if present {
        api := api.(objs := api.objs[k := o]);
        return outcome.Works?;
      }
      if outcome.Lost? { return false; }
      ok := Create(k, o);
    }

    method Put(k: Key, o: Object) returns (ok: bool)
      modifies this
      ensures Reply(api, ok) == old(api).Put(k, o)
    {
      var r := api.Put(k, o);
      api, ok := r.api, r.ok;
    }

    method Exists(k: Key) returns (ok: bool)
      modifies this
      ensures Reply(api, ok) == old(api).Exists(k)
    {
      var r := api.Exists(k);
      api, ok := r.api, r.ok;
    }

    method PolicyExists(k: Key) returns (ok: bool)
      modifies this
      ensures Reply(api, ok) == old(api).PolicyExists(k)
    {
      var r := api.PolicyExists(k);
      api, ok := r.api, r.ok;
    }

    method Update(k: Key, o: Object) returns (ok: bool)
      modifies this
      ensures Reply(api, ok) == old(api).Update(k, o)
    {
      var r := api.Update(k, o);
      api, ok := r.api, r.ok;
    }

    /** A lookup that tells absence from failure. */
    method Get(k: Key) returns (ok: bool, found: bool)
      modifies this
      ensures Reply(api, ok) == old(api).Other() && (ok ==> (found <==> k in old(api).objs))
    {
      found := k in api.objs;
      var r := api.Other();
      api, ok := r.api, r.ok;
    }

    method ServicePointer() returns (ok: bool)
      modifies this
      ensures Reply(api, ok) == old(api).ServicePointer()
    {
      var r := api.ServicePointer();
      api, ok := r.api, r.ok;
    }

    method Other() returns (ok: bool)
      modifies this
      ensures Reply(api, ok) == old(api).Other()
    {
      var r := api.Other();
      api, ok := r.api, r.ok;
    }
  }

  // ---------------------------------------------------------------- what a sequence of calls changes

  /** From a to b only objects with one of the given names have changed, and lookups have
      passed over network policies with one of these names only. */
  ghost predicate Only(a: Api, b: Api, names: set<string>) {
    && (forall k: Key | k.name !in names :: k in a.objs <==> k in b.objs)
    && (forall k: Key | k.name !in names && k in a.objs && k in b.objs :: a.objs[k] == b.objs[k])
    && a.missed <= b.missed
    && forall k | k in b.missed && k !in a.missed :: k.kind == NetworkPolicy && k.name in names
  }

  /** From a to b no object has appeared except the given ones. */
  ghost predicate Adds(a: Api, b: Api, keys: set<Key>) {
    forall k | k in b.objs :: k in a.objs || k in keys
  }

  /** What deploying does: objects of the given names change, the given objects may appear. */
  ghost predicate Grows(a: Api, b: Api, names: set<string>, keys: set<Key>) {
    Only(a, b, names) && Adds(a, b, keys)
  }

  /** What destroying does: objects of the given names change, none appears, and only policies
      that existed can be missed. */
  ghost predicate Cuts(a: Api, b: Api, names: set<string>) {
    Grows(a, b, names, {}) && forall k | k in b.missed && k !in a.missed :: k in a.objs
  }

  lemma GrowsThen(a: Api, b: Api, c: Api, names: set<string>, keys: set<Key>, names1: set<string>, keys1: set<Key>)
    requires Grows(a, b, names, keys) && Grows(b, c, names1, keys1)
    ensures Grows(a, c, names + names1, keys + keys1)
  {
  }

  lemma GrowsWider(a: Api, b: Api, names: set<string>, keys: set<Key>, names1: set<string>, keys1: set<Key>)
    requires Grows(a, b, names, keys) && names <= names1 && keys <= keys1
    ensures Grows(a, b, names1, keys1)
  {
  }

  lemma CutsThen(a: Api, b: Api, c: Api, names: set<string>)
    requires Cuts(a, b, names) && Cuts(b, c, names)
    ensures Cuts(a, c, names)
  {
  }

  lemma CreateGrows(a: Api, k: Key, o: Object)
    ensures Grows(a, a.Create(k, o).api, {k.name}, {k})
  {
  }

  lemma DeleteCuts(a: Api, k: Key)
    ensures var r := a.Delete(k);
            Cuts(a, r.api, {k.name}) && (r.ok ==> k !in r.api.objs)
  {
  }

  lemma DeleteIfPresentCuts(a: Api, k: Key)
    ensures var r := a.DeleteIfPresent(k);
            Cuts(a, r.api, {k.name}) && (r.ok ==> k !in r.api.objs)
  {
  }

  lemma DeleteExistingCuts(a: Api, k: Key)
    ensures var r := a.DeleteExisting(k);
            Cuts(a, r.api, {k.name}) && (r.ok ==> k !in r.api.objs)
  {
  }

  lemma DeleteIfPresentWorks(a: Api, k: Key)
    requires a.FaultFree()
    ensures var r := a.DeleteIfPresent(k);
            r.ok && r.api.FaultFree() && r.api.objs == a.objs - {k}
  {
  }

  lemma DeleteExistingWorks(a: Api, k: Key)
    requires a.FaultFree()
    ensures var r := a.DeleteExisting(k);
            (r.ok <==> k in a.objs) && r.api.FaultFree() && r.api.objs == a.objs - {k}
  {
  }

  lemma DeleteWorks(a: Api, k: Key)
    requires a.FaultFree()
    ensures var r := a.Delete(k);
            (r.ok <==> k in a.objs) && r.api.FaultFree() && r.api.objs == a.objs - {k}
  {
  }
}
