/** What all instances of one system have in common: the registry of names, the builder
    factories they point to, and which instance is whose sidecar. Instances and factories are
    known only by their identity here. */
module Ledgers {

  import opened Wrappers

  predicate Distinct<T(==)>(s: seq<T>) { forall k, l | 0 <= k < l < |s| :: s[k] != s[l] }

  /** What matters about one instance. */
  datatype Entry<I, F> = Entry(name: string, preparing: bool, factory: Option<F>, sidecars: seq<I>)

  /** `registry` is the program's; the rest is bookkeeping: who holds which name, the names that
      other objects hold, whose sidecar an instance is, and a rank that grows from sidecar to owner. */
  datatype Ledger<I(==), F(==)> = Ledger(
    entries: map<I, Entry<I, F>>, registry: set<string>,
    holder: map<string, I>, others: set<string>, owner: map<I, I>, rank: map<I, nat>)
  {
    ghost predicate NamesOk() {
      && registry == holder.Keys + others && holder.Keys !! others
      && (forall i | i in entries :: entries[i].name in holder && holder[entries[i].name] == i)
      && forall n | n in holder :: n != "" && holder[n] in entries && entries[holder[n]].name == n
    }

    /** A factory that may still be changed belongs to one instance. */
    ghost predicate FactoriesOk() {
      && (forall i | i in entries && entries[i].preparing :: entries[i].factory.Some?)
      && forall i, j | i in entries && j in entries && i != j
          && entries[i].preparing :: entries[i].factory != entries[j].factory
    }

    /** The sidecars rank below r and have the given owner. */
    ghost predicate Below(sidecars: seq<I>, i: I, r: nat) {
      Distinct(sidecars) && forall s | s in sidecars :: s in rank && rank[s] < r && s in owner && owner[s] == i
    }

    /** Sidecars belong to one instance and rank below it. */
    ghost predicate ForestOk() {
      rank.Keys == entries.Keys && owner.Keys <= entries.Keys
          && forall i | i in entries :: Below(entries[i].sidecars, i, rank[i])
    }

    ghost predicate Ok() { NamesOk() && FactoriesOk() && ForestOk() }

    // -------------------------------------------------------------- steps

    /** An object that is no instance takes a name. */
    ghost function Take(n: string): Ledger<I, F> { this.(registry := registry + {n}, others := others + {n}) }

    ghost function Rename(i: I, n: string): Ledger<I, F> {
      if i !in entries then this
      else
        var e := entries[i];
        this.(entries := entries[i := e.(name := n)], registry := (registry - {e.name}) + {n},
            holder := (holder - {e.name})[n := i])
    }

    /** A new instance arrives, with the sidecars it owns. */
    ghost function Join(i: I, e: Entry<I, F>, r: nat): Ledger<I, F> {
      this.(entries := entries[i := e], registry := registry + {e.name}, holder := holder[e.name := i],
            owner := owner + (map s | s in e.sidecars :: i), rank := rank[i := r])
    }

    ghost predicate MayJoin(i: I, e: Entry<I, F>, r: nat) {
      && i !in entries && !e.preparing
      && Distinct(e.sidecars) && (forall s | s in e.sidecars :: s !in owner && s in rank && rank[s] < r)
      && forall j | j in entries && entries[j].preparing :: entries[j].factory != e.factory
    }

    /** SetImage installs a factory that no instance has. */
    ghost function Prepare(i: I, f: F): Ledger<I, F> {
      if i !in entries then this else this.(entries := entries[i := entries[i].(preparing := true, factory := Some(f))])
    }

    /** i is in any state but preparing from now on. */
    ghost function Settle(i: I): Ledger<I, F> {
      if i !in entries then this else this.(entries := entries[i := entries[i].(preparing := false)])
    }

    /** s becomes the last sidecar of i; everybody else moves up. */
    ghost function Attach(i: I, s: I): Ledger<I, F> {
      if i !in entries then this
      else
        this.(entries := entries[i := entries[i].(sidecars := entries[i].sidecars + [s])], owner := owner[s := i],
            rank := (map j | j in rank :: rank[j] + 1)[s := 0])
    }
  }

  /** From a to b nobody has joined and no sidecar has changed hands. */
  ghost predicate SameFamily<I, F>(a: Ledger<I, F>, b: Ledger<I, F>) {
    b.owner == a.owner && b.rank == a.rank && b.entries.Keys == a.entries.Keys
  }

  /** From a to b new instances have joined; of the old ones, only those given have got an owner. */
  ghost predicate JoinedWith<I, F>(a: Ledger<I, F>, b: Ledger<I, F>, sidecars: seq<I>) {
    && a.entries.Keys <= b.entries.Keys
    && (forall s | s in b.owner :: s in a.owner || s !in a.entries || s in sidecars)
    && forall i | i in a.rank :: i in b.rank && b.rank[i] == a.rank[i]
  }

  ghost predicate Joined<I, F>(a: Ledger<I, F>, b: Ledger<I, F>) { JoinedWith(a, b, []) }

  /** From a to b, whoever was nobody's sidecar is still there and still nobody's. */
  ghost predicate RootsStay<I, F>(a: Ledger<I, F>, b: Ledger<I, F>) {
    forall i | i in a.entries && i !in a.owner :: i in b.entries && i !in b.owner
  }

  lemma AttachedRoots<I, F>(a: Ledger<I, F>, b: Ledger<I, F>, i: I, s: I)
    requires Joined(a, b) && s !in a.entries && i in b.entries
    ensures RootsStay(a, b.Attach(i, s))
  {
  }

  lemma JoinedThen<I, F>(a: Ledger<I, F>, b: Ledger<I, F>, c: Ledger<I, F>, sidecars: seq<I>)
    requires Joined(a, b) && JoinedWith(b, c, sidecars) && forall s | s in sidecars :: s !in a.entries
    ensures Joined(a, c)
  {
  }

  /** The registry is exactly the set of names given out; instances have pairwise distinct
      names, and share none with other objects. */
  lemma RegistryInjective<I, F>(l: Ledger<I, F>)
    requires l.NamesOk()
    ensures l.registry == (set i | i in l.entries :: l.entries[i].name) + l.others
    ensures forall i, j | i in l.entries && j in l.entries && i != j :: l.entries[i].name != l.entries[j].name
    ensures forall i | i in l.entries :: l.entries[i].name !in l.others
  {
    var names := set i | i in l.entries :: l.entries[i].name;
    forall n | n in l.holder ensures n in names { assert l.entries[l.holder[n]].name == n; }
    assert names == l.holder.Keys;
  }

  // ---------------------------------------------------------------- every step keeps the ledger in order

  lemma TakeOk<I, F>(l: Ledger<I, F>, n: string)
    requires l.Ok() && n !in l.registry
    ensures l.Take(n).Ok()
  {
  }

  lemma RenameNames<I, F>(l: Ledger<I, F>, i: I, n: string)
    requires l.NamesOk() && i in l.entries && n !in l.registry && n != ""
    ensures l.Rename(i, n).NamesOk()
  {
  }

  lemma RenameFactories<I, F>(l: Ledger<I, F>, i: I, n: string)
    requires l.FactoriesOk() && i in l.entries
    ensures l.Rename(i, n).FactoriesOk()
  {
  }

  lemma RenameForest<I, F>(l: Ledger<I, F>, i: I, n: string)
    requires l.ForestOk() && i in l.entries
    ensures l.Rename(i, n).ForestOk()
  {
  }

  lemma RenameOk<I, F>(l: Ledger<I, F>, i: I, n: string)
    requires l.Ok() && i in l.entries && n !in l.registry && n != ""
    ensures l.Rename(i, n).Ok()
  {
    RenameNames(l, i, n);
    RenameFactories(l, i, n);
    RenameForest(l, i, n);
  }

  lemma JoinNames<I, F>(l: Ledger<I, F>, i: I, e: Entry<I, F>, r: nat)
    requires l.NamesOk() && l.MayJoin(i, e, r) && e.name !in l.registry && e.name != ""
    ensures l.Join(i, e, r).NamesOk()
  {
  }

  lemma JoinFactories<I, F>(l: Ledger<I, F>, i: I, e: Entry<I, F>, r: nat)
    requires l.FactoriesOk() && l.MayJoin(i, e, r) && e.name !in l.registry && e.name != ""
    ensures l.Join(i, e, r).FactoriesOk()
  {
  }

  lemma JoinForest<I, F>(l: Ledger<I, F>, i: I, e: Entry<I, F>, r: nat)
    requires l.ForestOk() && l.MayJoin(i, e, r) && e.name !in l.registry && e.name != ""
    ensures l.Join(i, e, r).ForestOk()
  {
    var m := l.Join(i, e, r);
    forall j | j in m.entries ensures m.Below(m.entries[j].sidecars, j, m.rank[j]) {
      if j != i { assert l.Below(l.entries[j].sidecars, j, l.rank[j]); }
    }
  }

  lemma JoinOk<I, F>(l: Ledger<I, F>, i: I, e: Entry<I, F>, r: nat)
    requires l.Ok() && l.MayJoin(i, e, r) && e.name !in l.registry && e.name != ""
    ensures l.Join(i, e, r).Ok()
  {
    JoinNames(l, i, e, r);
    JoinFactories(l, i, e, r);
    JoinForest(l, i, e, r);
  }

  /** A newcomer has no owner yet, and nothing changes for the others. */
  lemma Newcomer<I, F>(l: Ledger<I, F>, i: I, e: Entry<I, F>, r: nat)
    requires l.ForestOk() && l.MayJoin(i, e, r)
    ensures var m := l.Join(i, e, r);
            JoinedWith(l, m, e.sidecars) && i in m.entries && i !in m.owner && i in m.rank && m.rank[i] == r
  {
  }

  lemma PrepareNames<I, F>(l: Ledger<I, F>, i: I, f: F)
    requires l.NamesOk() && i in l.entries
    ensures l.Prepare(i, f).NamesOk()
  {
  }

  lemma PrepareFactories<I, F>(l: Ledger<I, F>, i: I, f: F)
    requires l.FactoriesOk() && i in l.entries && forall j | j in l.entries :: l.entries[j].factory != Some(f)
    ensures l.Prepare(i, f).FactoriesOk()
  {
  }

  lemma PrepareForest<I, F>(l: Ledger<I, F>, i: I, f: F)
    requires l.ForestOk() && i in l.entries
    ensures l.Prepare(i, f).ForestOk()
  {
  }

  lemma PrepareOk<I, F>(l: Ledger<I, F>, i: I, f: F)
    requires l.Ok() && i in l.entries && forall j | j in l.entries :: l.entries[j].factory != Some(f)
    ensures l.Prepare(i, f).Ok()
  {
    PrepareNames(l, i, f);
    PrepareFactories(l, i, f);
    PrepareForest(l, i, f);
  }

  lemma AttachNames<I, F>(l: Ledger<I, F>, i: I, s: I)
    requires l.NamesOk() && l.rank.Keys == l.entries.Keys && i in l.entries && s in l.entries
    ensures l.Attach(i, s).NamesOk()
  {
  }

  lemma AttachFactories<I, F>(l: Ledger<I, F>, i: I, s: I)
    requires l.FactoriesOk() && l.rank.Keys == l.entries.Keys && i in l.entries && s in l.entries
    ensures l.Attach(i, s).FactoriesOk()
  {
  }

  lemma AttachBelow<I, F>(l: Ledger<I, F>, i: I, s: I, j: I)
    requires l.ForestOk() && i in l.entries && s in l.entries && i != s && s !in l.owner && l.entries[s].sidecars == []
    requires j in l.entries
    ensures var m := l.Attach(i, s); m.Below(m.entries[j].sidecars, j, m.rank[j])
  {
    assert l.Below(l.entries[j].sidecars, j, l.rank[j]);
  }

  lemma AttachForest<I, F>(l: Ledger<I, F>, i: I, s: I)
    requires l.ForestOk() && i in l.entries && s in l.entries && i != s && s !in l.owner && l.entries[s].sidecars == []
    ensures l.Attach(i, s).ForestOk()
  {
    forall j | j in l.entries
      ensures var m := l.Attach(i, s); m.Below(m.entries[j].sidecars, j, m.rank[j])
    {
      AttachBelow(l, i, s, j);
    }
  }

  lemma AttachOk<I, F>(l: Ledger<I, F>, i: I, s: I)
    requires l.Ok() && i in l.entries && s in l.entries && i != s && s !in l.owner && l.entries[s].sidecars == []
    ensures l.Attach(i, s).Ok()
  {
    AttachNames(l, i, s);
    AttachFactories(l, i, s);
    AttachForest(l, i, s);
  }

  lemma SettleNames<I, F>(l: Ledger<I, F>, i: I)
    requires l.NamesOk() && i in l.entries
    ensures l.Settle(i).NamesOk()
  {
  }

  lemma SettleForest<I, F>(l: Ledger<I, F>, i: I)
    requires l.ForestOk() && i in l.entries
    ensures l.Settle(i).ForestOk()
  {
  }

  lemma SettleOk<I, F>(l: Ledger<I, F>, i: I)
    requires l.Ok() && i in l.entries
    ensures l.Settle(i).Ok()
  {
    SettleNames(l, i);
    SettleForest(l, i);
  }
}
