/** The budget for the files of an instance: what they come to together. */
module Budget {

  import opened Text
  import opened PodSpec
  import opened Lifecycle

  const MAX_TOTAL_FILES_BYTES: nat := 1024 * 1024

  /** The combined size of the files' sources. */
  function FilesSize(files: seq<File>, disk: map<string, string>): nat
    requires forall f | f in files :: f.source in disk
  {
    if files == [] then 0 else FilesSize(files[..|files| - 1], disk) + |disk[files[|files| - 1].source]|
  }

  /** Files are never changed once they are on the disk, so more of them change no size. */
  lemma {:induction false} FilesSizeGrownDisk(files: seq<File>, disk: map<string, string>, more: map<string, string>)
    requires forall f | f in files :: f.source in disk
    requires forall k | k in disk :: k in more && more[k] == disk[k]
    ensures (forall f | f in files :: f.source in more) && FilesSize(files, more) == FilesSize(files, disk)
  {
    if files != [] { FilesSizeGrownDisk(files[..|files| - 1], disk, more); }
  }

  /** One file counts with the length of its source, and lists of files add up. */
  lemma {:induction false} FilesSizeAdds(a: seq<File>, b: seq<File>, disk: map<string, string>)
    requires forall f | f in a + b :: f.source in disk
    ensures (forall f | f in a :: f.source in disk) && (forall f | f in b :: f.source in disk)
    ensures FilesSize([], disk) == 0
    ensures forall f: File | f.source in disk :: FilesSize([f], disk) == |disk[f.source]|
    ensures FilesSize(a + b, disk) == FilesSize(a, disk) + FilesSize(b, disk)
  {
    forall f | f in a || f in b ensures f.source in disk { assert f in a + b; }
    forall f: File | f.source in disk ensures FilesSize([f], disk) == |disk[f.source]| { assert [f][..0] == []; }
    if b == [] {
      assert a + b == a;
    } else {
      assert (a + b)[..|a + b| - 1] == a + b[..|b| - 1];
      FilesSizeAdds(a, b[..|b| - 1], disk);
    }
  }

  /** Two of the files are not larger than all of them. */
  lemma PairWithin(files: seq<File>, disk: map<string, string>, i: nat, j: nat)
    requires i < j < |files| && forall f | f in files :: f.source in disk
    ensures |disk[files[i].source]| + |disk[files[j].source]| <= FilesSize(files, disk)
  {
    var a, b := files[..j], files[j..];
    assert files == a + b && a == a[..i] + a[i..] && a[i..] == [a[i]] + a[i + 1..] && b == [b[0]] + b[1..];
    FilesSizeAdds(a, b, disk);
    FilesSizeAdds(a[..i], a[i..], disk);
    FilesSizeAdds([a[i]], a[i + 1..], disk);
    FilesSizeAdds([b[0]], b[1..], disk);
  }

  // ---------------------------------------------------------------- the ConfigMap

  /** The combined length of all values. */
  ghost function DataSize(data: map<string, string>): nat
    decreases |data|
  {
    if data == map[] then 0 else var k :| k in data; |data[k]| + DataSize(data - {k})
  }

  /** Whichever entry is counted first. */
  lemma {:induction false} DataSizeWithout(data: map<string, string>, k: string)
    requires k in data
    ensures DataSize(data) == |data[k]| + DataSize(data - {k})
    decreases |data|
  {
    var first :| first in data && DataSize(data) == |data[first]| + DataSize(data - {first});
    if first != k {
      DataSizeWithout(data - {first}, k);
      DataSizeWithout(data - {k}, first);
      assert data - {first} - {k} == data - {k} - {first};
    }
  }

  /** The entries of the ConfigMap are together as large as the files. */
  lemma {:induction false} FileDataSize(files: seq<File>, disk: map<string, string>)
    requires forall f | f in files :: f.source in disk
    ensures DataSize(FileData(files, disk)) == FilesSize(files, disk)
  {
    if files != [] {
      var n, front := |files| - 1, files[..|files| - 1];
      var data := FileData(files, disk);
      FileDataSize(front, disk);
      FileDataKeys(front, disk);
      NewNumeral(n);
      assert data - {Decimal(n)} == FileData(front, disk);
      DataSizeWithout(data, Decimal(n));
    }
  }
}
