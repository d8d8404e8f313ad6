/** The preloader: a list of images kept in a slice, and the DaemonSet that pulls them. A slice
    is a backing array and a length; removing works in place, in a loop over the header that the
    slice had before. */
module Preloader {

  import opened Wrappers
  import opened Text
  import opened Cluster
  import I = Instances

  predicate NoDup(s: seq<string>) { forall i, j | 0 <= i < j < |s| :: s[i] != s[j] }

  /** The list without x, in order. */
  function Without(s: seq<string>, x: string): seq<string> {
    if s == [] then [] else Without(s[..|s| - 1], x) + if s[|s| - 1] == x then [] else [s[|s| - 1]]
  }

  lemma {:induction false} WithoutAbsent(s: seq<string>, x: string)
    requires x !in s
    ensures Without(s, x) == s
  {
    if s != [] {
      WithoutAbsent(s[..|s| - 1], x);
      assert s == s[..|s| - 1] + [s[|s| - 1]];
    }
  }

  lemma {:induction false} WithoutAt(s: seq<string>, x: string, i: nat)
    requires NoDup(s) && i < |s| && s[i] == x
    ensures Without(s, x) == s[..i] + s[i + 1..]
    decreases |s|
  {
    var front := s[..|s| - 1];
    if i == |s| - 1 {
      WithoutAbsent(front, x);
    } else {
      WithoutAt(front, x, i);
      assert s[i + 1..] == front[i + 1..] + [s[|s| - 1]];
    }
  }

  /** Removing takes out exactly the one image, keeps the order, and leaves no duplicates. */
  lemma {:induction false} WithoutIs(s: seq<string>, x: string)
    requires NoDup(s)
    ensures NoDup(Without(s, x)) && forall y :: y in Without(s, x) <==> y in s && y != x
    ensures |Without(s, x)| == |s| - if x in s then 1 else 0
    ensures forall i | 0 <= i < |s| && s[i] == x :: Without(s, x) == s[..i] + s[i + 1..]
    ensures x !in s ==> Without(s, x) == s
  {
    if x in s {
      var i :| 0 <= i < |s| && s[i] == x;
      WithoutAt(s, x, i);
      var r := s[..i] + s[i + 1..];
      assert forall k | 0 <= k < |s| && s[k] == x :: k == i;
      forall y ensures y in r <==> y in s && y != x {
        if y in s && y != x {
          var k :| 0 <= k < |s| && s[k] == y;
          assert y == if k < i then r[k] else r[k - 1];
        }
      }
    } else {
      WithoutAbsent(s, x);
    }
  }

  // ---------------------------------------------------------------- the DaemonSet

  function ContainerName(i: nat): string { "image" + Decimal(i) + "-preloader" }

  function Containers(images: seq<string>): seq<(string, string)> {
    seq(|images|, i requires 0 <= i < |images| => (ContainerName(i), images[i]))
  }

  /** The init containers of the DaemonSet have distinct names, one for each image in order. */
  lemma ContainersDistinct(images: seq<string>, i: nat, j: nat)
    requires i < j < |images|
    ensures Containers(images)[i] == ("image" + Decimal(i) + "-preloader", images[i])
    ensures Containers(images)[i].0 != Containers(images)[j].0
  {
    if ContainerName(i) == ContainerName(j) {
      var a, b := Decimal(i), Decimal(j);
      assert ContainerName(i)[5..] == a + "-preloader" && ContainerName(j)[5..] == b + "-preloader";
      assert |a| == |b|;
      assert a == (a + "-preloader")[..|a|] && b == (b + "-preloader")[..|b|];
      DecimalInjective(i, j);
    }
  }

  /** preloadImages. */
  function Preload(a: Api, k: Key, images: seq<string>): Reply {
    if images == [] then a.Delete(k)
    else
      var got := a.Other();
      if !got.ok then got
      else if k in a.objs then got.api.Update(k, InitImages(Containers(images)))
      else got.api.Create(k, InitImages(Containers(images)))
  }

  /** The DaemonSet holds exactly the images in order, or does not exist when there are none. */
  predicate InSync(a: Api, k: Key, images: seq<string>) {
    if images == [] then k !in a.objs else k in a.objs && a.objs[k] == InitImages(Containers(images))
  }

  /** Preloading that succeeds brings the DaemonSet in line and changes nothing else; without
      failing calls it succeeds, except that deleting an absent DaemonSet is an error. */
  lemma PreloadSyncs(a: Api, k: Key, images: seq<string>)
    ensures var r := Preload(a, k, images);
            && (r.ok ==> InSync(r.api, k, images))
            && Only(a, r.api, {k.name}) && (forall l: Key | l != k :: l in a.objs <==> l in r.api.objs)
    ensures a.FaultFree() ==> (Preload(a, k, images).ok <==> images != [] || k in a.objs)
  {
  }

  // ---------------------------------------------------------------- runs

  datatype Change = Add(image: string) | Remove(image: string) | Clear

  function Listed(images: seq<string>, c: Change): seq<string> {
    match c
    case Add(x) => if x in images then images else images + [x]
    case Remove(x) => Without(images, x)
    case Clear => []
  }

  /** Adding an image that is listed makes no call; every other change preloads the new list. */
  function Changed(a: Api, k: Key, images: seq<string>, c: Change): Reply {
    if c.Add? && c.image in images then Reply(a, true) else Preload(a, k, Listed(images, c))
  }

  function ListedAll(images: seq<string>, cs: seq<Change>): seq<string>
    decreases |cs|
  {
    if cs == [] then images else ListedAll(Listed(images, cs[0]), cs[1..])
  }

  function ChangedAll(a: Api, k: Key, images: seq<string>, cs: seq<Change>): Reply
    decreases |cs|
  {
    if cs == [] then Reply(a, true)
    else
      var r := Changed(a, k, images, cs[0]);
      if !r.ok then r else ChangedAll(r.api, k, Listed(images, cs[0]), cs[1..])
  }

  lemma ListedNoDup(images: seq<string>, c: Change)
    requires NoDup(images)
    ensures NoDup(Listed(images, c))
  {
    if c.Remove? { WithoutIs(images, c.image); }
  }

  /** However the list is changed, it never holds an image twice, and as long as the changes
      succeed the DaemonSet follows the list. */
  lemma {:induction false} PreloaderRun(a: Api, k: Key, images: seq<string>, cs: seq<Change>)
    requires NoDup(images) && InSync(a, k, images)
    ensures NoDup(ListedAll(images, cs))
    ensures ChangedAll(a, k, images, cs).ok ==> InSync(ChangedAll(a, k, images, cs).api, k, ListedAll(images, cs))
    decreases |cs|
  {
    if cs != [] {
      ListedNoDup(images, cs[0]);
      var r := Changed(a, k, images, cs[0]);
      PreloadSyncs(a, k, Listed(images, cs[0]));
      if r.ok {
        PreloaderRun(r.api, k, Listed(images, cs[0]), cs[1..]);
      } else {
        StaysNoDup(Listed(images, cs[0]), cs[1..]);
      }
    }
  }

  lemma {:induction false} StaysNoDup(images: seq<string>, cs: seq<Change>)
    requires NoDup(images)
    ensures NoDup(ListedAll(images, cs))
    decreases |cs|
  {
    if cs != [] {
      ListedNoDup(images, cs[0]);
      StaysNoDup(Listed(images, cs[0]), cs[1..]);
    }
  }

  class Preloader {
    const sys: I.SystemDependencies
    const name: string
    var data: array<string>
    var len: nat

    predicate Valid()
      reads this, data
    {
      len <= data.Length && NoDup(data[..len])
    }

    function Images(): seq<string>
      requires Valid()
      reads this, data
    {
      data[..len]
    }

    function DaemonKey(): Key { Key(DaemonSet, name) }

    constructor (sys: I.SystemDependencies, name: string)
      ensures this.sys == sys && this.name == name && Valid() && Images() == [] && fresh(data)
    {
      this.sys, this.name := sys, name;
      data, len := new string[0], 0;
    }

    /** A new preloader takes a name that no instance and no other preloader has. */
    static method New(sys: I.SystemDependencies, wanted: string) returns (p: Preloader?)
      requires sys.Valid()
      modifies sys`instancesMap, sys`ledger
      ensures sys.Valid() && (p == null <==> I.FreeName(wanted, old(sys.instancesMap)).None?)
      ensures p == null ==> sys.ledger == old(sys.ledger)
      ensures p != null ==> fresh(p) && p.Valid() && p.Images() == [] && p.sys == sys
      ensures p != null ==>
              I.FreeName(wanted, old(sys.instancesMap)) == Some(p.name)
              && sys.ledger == old(sys.ledger).Take(p.name)
    {
      p := null;
      var reserved := sys.ReserveName(wanted);
      if reserved.Some? { p := new Preloader(sys, reserved.value); }
    }

    method PreloadImages() returns (ok: bool)
      requires Valid()
      modifies sys.client
      ensures Reply(sys.client.api, ok) == Preload(old(sys.client.api), DaemonKey(), Images())
    {
      if len == 0 {
        ok := sys.client.Delete(DaemonKey());
        return;
      }
      var containers: seq<(string, string)> := [];
      for i := 0 to len
        invariant containers == Containers(Images())[..i] && sys.client.api == old(sys.client.api)
      {
        containers := containers + [(ContainerName(i), data[i])];
      }
      assert containers == Containers(Images());
      var found: bool;
      ok, found := sys.client.Get(DaemonKey());
      if !ok { return; }
      if found {
        ok := sys.client.Update(DaemonKey(), InitImages(containers));
      } else {
        ok := sys.client.Create(DaemonKey(), InitImages(containers));
      }
    }

    method Contains(image: string) returns (found: bool)
      requires Valid()
      ensures found <==> image in Images()
    {
      for i := 0 to len
        invariant image !in data[..i]
      {
        if data[i] == image { return true; }
      }
      found := false;
    }

    /** append of one element: in place if the array has room, else into a larger one. */
    method Append(image: string)
      requires Valid() && image !in Images()
      modifies this`data, this`len, data
      ensures Valid() && Images() == old(Images()) + [image] && (data == old(data) || fresh(data))
    {
      ghost var before := data[..len];
      if len == data.Length {
        var more := new string[2 * len + 1];
        for i := 0 to len
          invariant data == old(data) && len == old(len) == data.Length
          invariant more[..i] == data[..i] && data[..len] == before
        {
          more[i] := data[i];
        }
        data := more;
      }
      data[len] := image;
      len := len + 1;
      assert data[..len] == before + [image];
    }

    /** An image that is in the list already is not added again, and nothing is called. */
    method AddImage(image: string) returns (ok: bool)
      requires Valid()
      modifies this`data, this`len, data, sys.client
      ensures Valid() && Images() == Listed(old(Images()), Add(image))
      ensures image in old(Images()) ==> ok && sys.client.api == old(sys.client.api)
      ensures ok && image !in old(Images()) ==> InSync(sys.client.api, DaemonKey(), Images())
      ensures image in Images() && Images() == if image in old(Images()) then old(Images()) else old(Images()) + [image]
      ensures Reply(sys.client.api, ok) == Changed(old(sys.client.api), DaemonKey(), old(Images()), Add(image))
    {
      var found := Contains(image);
      if found { return true; }
      Append(image);
      ok := PreloadImages();
    }

    /** append(s[:i], s[i+1:]...): the later elements move down by one, in place, and what was
        the last one stays where it was. */
    method CutOut(i: nat)
      requires i < len <= data.Length
      modifies this`len, data
      ensures len == old(len) - 1 && data[..len] == old(data[..i] + data[i + 1..len])
              && data[len..] == old(data[len - 1..])
    {
      ghost var before, n := data[..], len;
      for k := i to len - 1
        invariant len == n && data[..k] == before[..i] + before[i + 1..k + 1] && data[k..] == before[k..]
      {
        data[k] := data[k + 1];
      }
      len := len - 1;
    }

    /** The loop ranges over the header the slice had when it began, while the slice shrinks
        under it. Without duplicates it cuts once, never out of bounds, and what it reads behind
        the shortened slice is never the image. */
    method RemoveImage(image: string) returns (ok: bool)
      requires Valid()
      modifies this`len, data, sys.client
      ensures Valid() && Images() == Listed(old(Images()), Remove(image))
      ensures ok ==> InSync(sys.client.api, DaemonKey(), Images())
      ensures image !in Images() && forall x | x in old(Images()) && x != image :: x in Images()
      ensures Reply(sys.client.api, ok) == Changed(old(sys.client.api), DaemonKey(), old(Images()), Remove(image))
    {
      WithoutIs(Images(), image);
      Cut(image);
      ok := PreloadImages();
    }

    method Cut(image: string)
      requires Valid()
      modifies this`len, data
      ensures Valid() && Images() == Without(old(Images()), image)
    {
      ghost var before := data[..len];
      ghost var at: nat := len;
      var n := len;
      for i := 0 to n
        invariant at <= n <= data.Length && |before| == n
        invariant at == n ==> len == n && data[..n] == before && image !in before[..i]
        invariant at < n ==> at < i && before[at] == image && len == n - 1 && data[n - 1] == before[n - 1]
        invariant at < n ==> data[..len] == before[..at] + before[at + 1..]
      {
        if data[i] == image {
          CutOut(i);
          at := i;
        }
      }
      WithoutIs(before, image);
      if at < n { WithoutAt(before, image, at); } else { WithoutAbsent(before, image); }
    }

    /** The list is replaced by a new one, not cut. */
    method EmptyImages() returns (ok: bool)
      requires Valid()
      modifies this`data, this`len, sys.client
      ensures Valid() && Images() == Listed(old(Images()), Clear) == [] && (ok ==> DaemonKey() !in sys.client.api.objs)
      ensures Reply(sys.client.api, ok) == Changed(old(sys.client.api), DaemonKey(), old(Images()), Clear)
    {
      data, len := new string[0], 0;
      ok := PreloadImages();
    }
  }
}
