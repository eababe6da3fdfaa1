/**
 * The file selection of push_all_datasets_to_datafed: of the directory
 * entries (os.listdir, here a parameter) it keeps those ending in ".h5",
 * each joined to the root directory, in listing order.
 */
module Ingest {
  import opened PyStrings

  const H5Suffix := ".h5"

  /** posixpath.join(root, name) for two parts. */
  function PathJoin(root: string, name: string): (p: string)
    ensures EndsWith(p, name)
  {
    if StartsWith(name, "/") then
      assert name[|name| - |name|..] == name;
      name
    else if root == [] || EndsWith(root, "/") then
      ConcatFrame(root, [], name);
      assert root + [] + name == root + name;
      root + name
    else
      ConcatFrame(root + "/", [], name);
      assert root + "/" + [] + name == root + "/" + name;
      root + "/" + name
  }

  /** The .h5 entries of a listing, each joined to the root, in listing order. */
  function H5Paths(root: string, entries: seq<string>): seq<string> {
    if entries == [] then []
    else
      var last := entries[|entries| - 1];
      H5Paths(root, entries[..|entries| - 1]) + (if EndsWith(last, H5Suffix) then [PathJoin(root, last)] else [])
  }

  /** The loop that fills h5_file_paths. */
  method H5FilePaths(root: string, allFiles: seq<string>) returns (paths: seq<string>)
    ensures paths == H5Paths(root, allFiles)
  {
    paths := [];
    for i := 0 to |allFiles|
      invariant paths == H5Paths(root, allFiles[..i])
    {
      var item := allFiles[i];
      assert allFiles[..i + 1][..i] == allFiles[..i];
      if EndsWith(item, H5Suffix) {
        paths := paths + [PathJoin(root, item)];
      }
    }
    assert allFiles[..|allFiles|] == allFiles;
  }

  /** The entries that the filter keeps, in order. */
  function H5Names(entries: seq<string>): seq<string> {
    if entries == [] then []
    else
      var last := entries[|entries| - 1];
      H5Names(entries[..|entries| - 1]) + (if EndsWith(last, H5Suffix) then [last] else [])
  }

  /** An entry is kept exactly when it is listed and ends in ".h5". */
  lemma {:induction false} H5NamesMembers(entries: seq<string>)
    ensures forall n :: n in H5Names(entries) <==> n in entries && EndsWith(n, H5Suffix)
  {
    if entries != [] {
      var init := entries[..|entries| - 1];
      H5NamesMembers(init);
      assert entries == init + [entries[|entries| - 1]];
    }
  }

  /** The paths are the kept entries, each joined to the root, position by position. */
  lemma {:induction false} H5PathsAreJoinedNames(root: string, entries: seq<string>)
    ensures |H5Paths(root, entries)| == |H5Names(entries)|
    ensures forall k :: 0 <= k < |H5Names(entries)| ==> H5Paths(root, entries)[k] == PathJoin(root, H5Names(entries)[k])
  {
    if entries != [] {
      H5PathsAreJoinedNames(root, entries[..|entries| - 1]);
    }
  }

  /** Every selected path ends in ".h5", and no more paths than entries are selected. */
  lemma H5PathsEndInH5(root: string, entries: seq<string>)
    ensures |H5Paths(root, entries)| <= |entries|
    ensures forall k :: 0 <= k < |H5Paths(root, entries)| ==> EndsWith(H5Paths(root, entries)[k], H5Suffix)
  {
    H5PathsAreJoinedNames(root, entries);
    H5NamesMembers(entries);
    H5NamesLength(entries);
    forall k | 0 <= k < |H5Paths(root, entries)| ensures EndsWith(H5Paths(root, entries)[k], H5Suffix) {
      var n := H5Names(entries)[k];
      assert n in H5Names(entries);
      var p := PathJoin(root, n);
      assert p[|p| - |n|..] == n;
      assert p[|p| - |H5Suffix|..] == n[|n| - |H5Suffix|..];
    }
  }

  lemma {:induction false} H5NamesLength(entries: seq<string>)
    ensures |H5Names(entries)| <= |entries|
  {
    if entries != [] {
      H5NamesLength(entries[..|entries| - 1]);
    }
  }

  /** Joining to a root that ends in "/" just appends the name. */
  lemma JoinUnderDirectory(root: string, name: string)
    requires EndsWith(root, "/") && !StartsWith(name, "/")
    ensures PathJoin(root, name) == root + name
  {
  }
}
