/** The check that the cluster serves the Traefik API: a loop over the discovered resources
    that deletes, in place, from the slice it is ranging over. */
module Traefik {

  /** The list with its first occurrence of x removed, if there is one. */
  function RemoveFirst(list: seq<string>, x: string): seq<string> {
    if list == [] then []
    else if list[0] == x then list[1..]
    else [list[0]] + RemoveFirst(list[1..], x)
  }

  /** What is still required after the given resources were discovered, one after another. */
  function Missing(required: seq<string>, found: seq<string>): seq<string>
    decreases |found|
  {
    if found == [] then required
    else Missing(RemoveFirst(required, found[0]), found[1..])
  }

  lemma {:induction false} RemoveFirstAt(list: seq<string>, x: string, i: nat)
    requires i < |list| && list[i] == x && x !in list[..i]
    ensures RemoveFirst(list, x) == list[..i] + list[i + 1..]
  {
    if i > 0 {
      assert list[0] in list[..i];
      assert list[1..][..i - 1] == list[..i][1..];
      RemoveFirstAt(list[1..], x, i - 1);
    }
  }

  lemma {:induction false} RemoveFirstAbsent(list: seq<string>, x: string)
    requires x !in list
    ensures RemoveFirst(list, x) == list
  {
    if list != [] { RemoveFirstAbsent(list[1..], x); }
  }

  lemma {:induction false} RemoveFirstMultiset(list: seq<string>, x: string)
    ensures multiset(RemoveFirst(list, x)) == multiset(list) - multiset{x}
  {
    if list != [] {
      assert list == [list[0]] + list[1..];
      if list[0] != x { RemoveFirstMultiset(list[1..], x); }
    }
  }

  lemma {:induction false} MissingMultiset(required: seq<string>, found: seq<string>)
    ensures multiset(Missing(required, found)) == multiset(required) - multiset(found)
    decreases |found|
  {
    if found != [] {
      assert found == [found[0]] + found[1..];
      RemoveFirstMultiset(required, found[0]);
      MissingMultiset(RemoveFirst(required, found[0]), found[1..]);
    }
  }

  lemma {:induction false} MissingStep(required: seq<string>, found: seq<string>, k: nat)
    requires k < |found|
    ensures Missing(required, found[..k + 1]) == RemoveFirst(Missing(required, found[..k]), found[k])
    decreases |found|
  {
    if k == 0 {
      assert found[..1] == [found[0]];
    } else {
      assert found[..k + 1][1..] == found[1..][..k] && found[..k][1..] == found[1..][..k - 1];
      MissingStep(RemoveFirst(required, found[0]), found[1..], k - 1);
    }
  }

  /** Nothing is missing exactly when each required name was discovered at least as often as
      it is required. */
  lemma NothingMissing(required: seq<string>, found: seq<string>)
    ensures Missing(required, found) == [] <==> multiset(required) <= multiset(found)
  {
    MissingMultiset(required, found);
    var m := Missing(required, found);
    if multiset(required) <= multiset(found) {
      assert multiset(m) == multiset{};
      assert |m| == |multiset(m)|;
    }
    if m == [] {
      forall x ensures multiset(required)[x] <= multiset(found)[x] {
        assert multiset(m)[x] == 0;
      }
    }
  }

  predicate NoDuplicates(list: seq<string>) {
    forall i, j :: 0 <= i < j < |list| ==> list[i] != list[j]
  }

  lemma {:induction false} CountOfDistinct(list: seq<string>, x: string)
    requires NoDuplicates(list) && x in list
    ensures multiset(list)[x] == 1
  {
    assert list == [list[0]] + list[1..];
    if list[0] != x { CountOfDistinct(list[1..], x); }
  }

  /** For a duplicate-free list of requirements, repetitions and order of the discovered
      resources do not matter. */
  lemma DistinctRequirements(required: seq<string>, found: seq<string>)
    requires NoDuplicates(required)
    ensures Missing(required, found) == [] <==> forall r | r in required :: r in found
  {
    NothingMissing(required, found);
    if multiset(required) <= multiset(found) {
      forall r | r in required ensures r in found { assert r in multiset(found); }
    }
    if forall r | r in required :: r in found {
      forall r ensures multiset(required)[r] <= multiset(found)[r] {
        if r in required {
          CountOfDistinct(required, r);
          assert r in multiset(found);
        } else {
          assert r !in multiset(required);
        }
      }
    }
  }

  /** append(s[:i], s[i+1:]...): the later elements move down by one, in place. */
  method CutOut(s: array<string>, n: nat, i: nat)
    requires i < n <= s.Length
    modifies s
    ensures s[..n - 1] == old(s[..i]) + old(s[i + 1..n])
  {
    ghost var before := s[..];
    for j := i to n - 1
      invariant s[..j] == before[..i] + before[i + 1..j + 1] && s[j..] == before[j..]
    {
      s[j] := s[j + 1];
    }
  }

  /** The loop over an arbitrary list of requirements. The slice being shrunk is the array
      together with a length; deleting position i shifts the tail left in the array that the
      inner loop is still ranging over. */
  method AllDiscovered(found: seq<string>, required: array<string>) returns (ok: bool)
    modifies required
    ensures ok <==> multiset(old(required[..])) <= multiset(found)
  {
    var n: nat := required.Length;
    ghost var all := required[..];
    for k := 0 to |found|
      invariant n <= required.Length
      invariant required[..n] == Missing(all, found[..k])
    {
      ghost var before := required[..n];
      var i := 0;
      var ranged := n;
      while i < ranged
        invariant i <= ranged == n
        invariant required[..n] == before
        invariant found[k] !in before[..i]
      {
        if found[k] == required[i] {
          CutOut(required, n, i);
          n := n - 1;
          RemoveFirstAt(before, found[k], i);
          break;
        }
        i := i + 1;
      }
      if i == ranged {
        RemoveFirstAbsent(before, found[k]);
      }
      MissingStep(all, found, k);
    }
    assert found[..|found|] == found;
    NothingMissing(all, found);
    ok := n == 0;
  }

  const REQUIRED: seq<string> := ["middlewares", "ingressroutes"]

  /** The check itself; None stands for a failed discovery request. */
  method IsTraefikAPIAvailable(discovered: seq<string>, failed: bool) returns (ok: bool)
    ensures ok <==> !failed && "middlewares" in discovered && "ingressroutes" in discovered
  {
    if failed { return false; }
    var required := new string[2](i requires 0 <= i < 2 => REQUIRED[i]);
    assert required[..] == REQUIRED;
    ok := AllDiscovered(discovered, required);
    NothingMissing(REQUIRED, discovered);
    assert "middlewares"[0] != "ingressroutes"[0];
    assert NoDuplicates(REQUIRED);
    DistinctRequirements(REQUIRED, discovered);
    assert REQUIRED[0] in REQUIRED && REQUIRED[1] in REQUIRED;
  }
}
