/**
 The reduction of a recursive directory listing to the list of local file
 paths to upload (index.ts:89-98). The listing itself is an input: the walk
 that produces it, and its order, are the file system's business.
 */
module Collect {

  /** One entry of `readdir(dir, { recursive: true, withFileTypes: true })`. */
  datatype Dirent = Dirent(isFile: bool, parentPath: string, name: string)

  /**
   The path of an entry (index.ts:92-94): its parent path, a '/', then its name;
   just the name when the parent path is empty (falsy).
   */
  function EntryPath(d: Dirent): (p: string)
    ensures d.parentPath == "" ==> p == d.name
    ensures d.parentPath != "" ==>
              && |p| == |d.parentPath| + 1 + |d.name|
              && p[..|d.parentPath|] == d.parentPath
              && p[|d.parentPath|] == '/'
              && p[|d.parentPath| + 1..] == d.name
  {
    if d.parentPath != "" then d.parentPath + "/" + d.name else d.name
  }

  /**
   When names hold no '/', different entries never share a path: the path
   determines both the parent path and the name.
   */
  lemma EntryPathInjective(d1: Dirent, d2: Dirent)
    requires '/' !in d1.name && '/' !in d2.name
    requires EntryPath(d1) == EntryPath(d2)
    ensures d1.parentPath == d2.parentPath && d1.name == d2.name
  {
  }

  /**
   The positions of the regular-file entries, in enumeration order: only file
   entries, strictly increasing, and every file entry present.
   */
  function FileIndices(es: seq<Dirent>): (ix: seq<nat>)
    ensures forall k :: 0 <= k < |ix| ==> ix[k] < |es| && es[ix[k]].isFile
    ensures forall k, l :: 0 <= k < l < |ix| ==> ix[k] < ix[l]
    ensures forall i :: 0 <= i < |es| && es[i].isFile ==> i in ix
  {
    if es == [] then []
    else
      var n := |es| - 1;
      var init := FileIndices(es[..n]);
      assert forall k :: 0 <= k < |init| ==> es[..n][init[k]] == es[init[k]];
      if es[n].isFile then init + [n] else init
  }

  /**
   The collected paths, as the reducer builds them step by step: each entry
   either appends its path to what the earlier entries gave, or nothing.
   */
  function FilePaths(es: seq<Dirent>): (paths: seq<string>)
    ensures |paths| <= |es|
  {
    if es == [] then []
    else
      var n := |es| - 1;
      FilePaths(es[..n]) + (if es[n].isFile then [EntryPath(es[n])] else [])
  }

  /**
   The collected list is exactly the path of each regular-file entry, in
   enumeration order.
   */
  lemma {:induction false} FilePathsAreFileEntries(es: seq<Dirent>)
    ensures |FilePaths(es)| == |FileIndices(es)|
    ensures forall k :: 0 <= k < |FilePaths(es)| ==> FilePaths(es)[k] == EntryPath(es[FileIndices(es)[k]])
  {
    if es != [] {
      var n := |es| - 1;
      var init := es[..n];
      FilePathsAreFileEntries(init);
      var ps, ix := FilePaths(init), FileIndices(init);
      assert FilePaths(es) == ps + (if es[n].isFile then [EntryPath(es[n])] else []);
      assert FileIndices(es) == ix + (if es[n].isFile then [n] else []);
      forall k | 0 <= k < |ps|
        ensures FilePaths(es)[k] == EntryPath(es[FileIndices(es)[k]])
      {
        assert FilePaths(es)[k] == ps[k] == EntryPath(init[ix[k]]);
        assert FileIndices(es)[k] == ix[k];
      }
    }
  }

  /** The number of regular-file entries, counted from the front. */
  function CountFiles(es: seq<Dirent>): nat
  {
    if es == [] then 0 else (if es[0].isFile then 1 else 0) + CountFiles(es[1..])
  }

  lemma {:induction false} CountFilesSnoc(es: seq<Dirent>, d: Dirent)
    ensures CountFiles(es + [d]) == CountFiles(es) + (if d.isFile then 1 else 0)
  {
    if es != [] {
      assert (es + [d])[1..] == es[1..] + [d];
      CountFilesSnoc(es[1..], d);
    }
  }

  /** One path is collected per regular-file entry. */
  lemma {:induction false} FilePathsCount(es: seq<Dirent>)
    ensures |FilePaths(es)| == CountFiles(es)
  {
    if es != [] {
      var n := |es| - 1;
      FilePathsCount(es[..n]);
      CountFilesSnoc(es[..n], es[n]);
      assert es[..n] + [es[n]] == es;
    }
  }

  /** The reduction distributes over concatenated listings. */
  lemma {:induction false} FilePathsAppend(a: seq<Dirent>, b: seq<Dirent>)
    ensures FilePaths(a + b) == FilePaths(a) + FilePaths(b)
  {
    if b == [] {
      assert a + b == a;
    } else {
      var n := |b| - 1;
      FilePathsAppend(a, b[..n]);
      assert (a + b)[..|a + b| - 1] == a + b[..n];
      assert (a + b)[|a + b| - 1] == b[n];
    }
  }

  /** A non-file entry contributes nothing, wherever it stands in the listing. */
  lemma NonFileIgnored(a: seq<Dirent>, d: Dirent, b: seq<Dirent>)
    requires !d.isFile
    ensures FilePaths(a + [d] + b) == FilePaths(a + b)
  {
    FilePathsAppend(a + [d], b);
    FilePathsAppend(a, [d]);
    FilePathsAppend(a, b);
    assert [d][..0] == [];
  }

  /**
   The `reduce` at index.ts:89-98: an accumulator that starts empty and gets
   the path of every regular-file entry pushed onto it.
   */
  method CollectFiles(entries: seq<Dirent>) returns (acc: seq<string>)
    ensures acc == FilePaths(entries)
  {
    acc := [];
    for i := 0 to |entries|
      invariant acc == FilePaths(entries[..i])
    {
      var dirent := entries[i];
      assert entries[..i + 1][..i] == entries[..i];
      if dirent.isFile {
        acc := acc + [if dirent.parentPath != "" then dirent.parentPath + "/" + dirent.name else dirent.name];
      }
    }
    assert entries[..|entries|] == entries;
  }
}
