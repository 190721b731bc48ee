/** The sorted file lists of workspace snapshots: what preparing a write does to the list, what the
    kernel insists it did, and the diff bridge built between two snapshots. Path names enter only
    through equality and byte order, so a path is its rank in that order; a file's content stands for
    its digest and length. */
module WorkspaceFiles {
  import opened Common

  type Path = int

  datatype File = File(path: Path, content: int)

  /** Snapshots list their files strictly ascending by path. */
  predicate Sorted(files: seq<File>) {
    forall i, j :: 0 <= i < j < |files| ==> files[i].path < files[j].path
  }

  function Lookup(files: seq<File>, path: Path): (found: Option<File>)
    ensures found.Some? ==> found.value in files && found.value.path == path
    ensures found.None? ==> forall f :: f in files ==> f.path != path
  {
    if files == [] then None
    else if files[0].path == path then Some(files[0])
    else Lookup(files[1..], path)
  }

  // ---------------------------------------------------------------- writing one file

  /** Position of the first file with this path. */
  function Position(files: seq<File>, path: Path): (k: int)
    ensures 0 <= k <= |files|
    ensures k < |files| ==> files[k].path == path
    ensures forall i :: 0 <= i < k ==> files[i].path != path
  {
    if files == [] || files[0].path == path then 0 else 1 + Position(files[1..], path)
  }

  function InsertByPath(file: File, files: seq<File>): seq<File> {
    if files == [] || file.path < files[0].path then [file] + files
    else [files[0]] + InsertByPath(file, files[1..])
  }

  /** A stable sort by path. */
  function SortByPath(files: seq<File>): seq<File> {
    if files == [] then [] else InsertByPath(files[|files| - 1], SortByPath(files[..|files| - 1]))
  }

  /** How a write is prepared: replace the file in place, or append it and sort the list. */
  function WrittenFiles(files: seq<File>, file: File): seq<File> {
    var k := Position(files, file.path);
    if k < |files| then files[k := file] else SortByPath(files + [file])
  }

  /** A binary search between two positions: where the path is, or where it would be inserted. */
  function Bisect(files: seq<File>, path: Path, low: int, high: int): (k: int)
    requires 0 <= low <= high <= |files|
    ensures low <= k <= high
    decreases high - low
  {
    if low == high then low
    else
      var middle := low + (high - low) / 2;
      if files[middle].path == path then middle
      else if files[middle].path < path then Bisect(files, path, middle + 1, high)
      else Bisect(files, path, low, middle)
  }

  function SearchPoint(files: seq<File>, path: Path): int { Bisect(files, path, 0, |files|) }

  /** The first position whose path is not below the one sought. */
  function FirstNotBelow(files: seq<File>, path: Path): (k: int)
    ensures 0 <= k <= |files|
    ensures k < |files| ==> files[k].path >= path
    ensures forall i :: 0 <= i < k ==> files[i].path < path
  {
    if files == [] || files[0].path >= path then 0 else 1 + FirstNotBelow(files[1..], path)
  }

  lemma {:induction false} BisectionFindsIt(files: seq<File>, path: Path, low: int, high: int)
    requires Sorted(files) && 0 <= low <= high <= |files|
    requires forall i :: 0 <= i < low ==> files[i].path < path
    requires forall i :: high <= i < |files| ==> files[i].path > path
    ensures Bisect(files, path, low, high) == FirstNotBelow(files, path)
    decreases high - low
  {
    if low < high {
      var middle := low + (high - low) / 2;
      if files[middle].path < path { BisectionFindsIt(files, path, middle + 1, high); }
      else if files[middle].path > path { BisectionFindsIt(files, path, low, middle); }
    }
  }

  /** On a sorted list the binary search ends where a scan from the front would. */
  lemma SearchIsAScan(files: seq<File>, path: Path)
    requires Sorted(files)
    ensures SearchPoint(files, path) == FirstNotBelow(files, path)
  {
    BisectionFindsIt(files, path, 0, |files|);
  }

  /** What the kernel requires the list after the write to be. */
  function ExactAfterFiles(files: seq<File>, file: File): seq<File> {
    var k := SearchPoint(files, file.path);
    if k < |files| && files[k].path == file.path then files[k := file]
    else files[..k] + [file] + files[k..]
  }

  lemma SortedRest(files: seq<File>)
    requires Sorted(files) && files != []
    ensures Sorted(files[1..]) && forall f :: f in files[1..] ==> files[0].path < f.path
  {
  }

  lemma SortedCons(file: File, files: seq<File>)
    requires Sorted(files) && forall f :: f in files ==> file.path < f.path
    ensures Sorted([file] + files)
  {
    forall i, j | 0 <= i < j < |[file] + files|
      ensures ([file] + files)[i].path < ([file] + files)[j].path
    {
      assert ([file] + files)[j] == files[j - 1];
      if i > 0 { assert ([file] + files)[i] == files[i - 1]; } else { assert files[j - 1] in files; }
    }
  }

  lemma {:induction false} InsertionKeepsSorted(file: File, files: seq<File>)
    requires Sorted(files) && forall f :: f in files ==> f.path != file.path
    ensures Sorted(InsertByPath(file, files))
    ensures forall f :: f in InsertByPath(file, files) <==> f == file || f in files
  {
    if files == [] {
    } else if file.path < files[0].path {
      forall f | f in files ensures file.path < f.path { SortedRest(files); }
      SortedCons(file, files);
    } else {
      SortedRest(files);
      InsertionKeepsSorted(file, files[1..]);
      assert files == [files[0]] + files[1..];
      SortedCons(files[0], InsertByPath(file, files[1..]));
    }
  }

  lemma {:induction false} SortOfSorted(files: seq<File>)
    requires Sorted(files)
    ensures SortByPath(files) == files
  {
    if files != [] {
      var front, last := files[..|files| - 1], files[|files| - 1];
      SortOfSorted(front);
      InsertLast(last, front);
      assert files == front + [last];
    }
  }

  lemma {:induction false} InsertLast(file: File, files: seq<File>)
    requires forall f :: f in files ==> f.path < file.path
    ensures InsertByPath(file, files) == files + [file]
  {
    if files != [] {
      InsertLast(file, files[1..]);
      assert files == [files[0]] + files[1..];
      assert [files[0]] + (files[1..] + [file]) == files + [file];
    }
  }

  lemma {:induction false} InsertIsAtTheScan(file: File, files: seq<File>)
    requires Sorted(files) && forall f :: f in files ==> f.path != file.path
    ensures var k := FirstNotBelow(files, file.path);
            InsertByPath(file, files) == files[..k] + [file] + files[k..]
  {
    if files == [] {
    } else if file.path < files[0].path {
      assert files[..0] + [file] + files[0..] == [file] + files;
    } else {
      SortedRest(files);
      InsertIsAtTheScan(file, files[1..]);
      InsertedBehind(file, files, FirstNotBelow(files[1..], file.path));
    }
  }

  lemma InsertedBehind(file: File, files: seq<File>, k: int)
    requires files != [] && 0 <= k <= |files| - 1
    ensures [files[0]] + (files[1..][..k] + [file] + files[1..][k..]) == files[..k + 1] + [file] + files[k + 1..]
  {
    var rest := files[1..];
    assert files[..k + 1] == [files[0]] + rest[..k] && files[k + 1..] == rest[k..];
    ConcatAssociates([files[0]], rest[..k], [file] + rest[k..]);
    ConcatAssociates(rest[..k], [file], rest[k..]);
    ConcatAssociates([files[0]] + rest[..k], [file], rest[k..]);
  }

  lemma InsertIsExact(file: File, files: seq<File>)
    requires Sorted(files) && forall f :: f in files ==> f.path != file.path
    ensures InsertByPath(file, files) == ExactAfterFiles(files, file)
  {
    InsertIsAtTheScan(file, files);
    SearchIsAScan(files, file.path);
    hide InsertByPath, Sorted, SearchPoint;
  }

  lemma {:induction false} ScanFindsPosition(files: seq<File>, path: Path)
    requires Sorted(files)
    ensures (exists f :: f in files && f.path == path)
        ==> FirstNotBelow(files, path) == Position(files, path) < |files|
  {
    if files != [] && files[0].path < path {
      SortedRest(files);
      ScanFindsPosition(files[1..], path);
      assert files == [files[0]] + files[1..];
    } else if files != [] && files[0].path > path {
      forall f | f in files ensures f.path > path { SortedRest(files); }
    }
  }

  lemma SearchFindsPosition(files: seq<File>, path: Path)
    requires Sorted(files)
    ensures (exists f :: f in files && f.path == path)
        ==> SearchPoint(files, path) == Position(files, path) < |files|
    ensures SearchPoint(files, path) < |files| && files[SearchPoint(files, path)].path == path
        ==> exists f :: f in files && f.path == path
  {
    ScanFindsPosition(files, path);
    SearchIsAScan(files, path);
    hide Sorted, SearchPoint, FirstNotBelow, Position;
    if SearchPoint(files, path) < |files| { assert files[SearchPoint(files, path)] in files; }
  }

  /** The list prepare_write builds is exactly the list the kernel recomputes by binary search. */
  lemma PreparedListIsExact(files: seq<File>, file: File)
    requires Sorted(files)
    ensures WrittenFiles(files, file) == ExactAfterFiles(files, file)
  {
    SearchFindsPosition(files, file.path);
    var k := Position(files, file.path);
    if k < |files| {
      assert files[k] in files;
    } else {
      assert (files + [file])[..|files|] == files;
      SortOfSorted(files);
      forall f | f in files ensures f.path != file.path {}
      InsertIsExact(file, files);
    }
  }

  /** Preparing a write keeps the list sorted and unique, and changes only its own path. */
  lemma WriteKeepsListAndOtherPaths(files: seq<File>, file: File, path: Path)
    requires Sorted(files)
    ensures Sorted(WrittenFiles(files, file))
    ensures Lookup(WrittenFiles(files, file), path)
         == if path == file.path then Some(file) else Lookup(files, path)
  {
    var k := Position(files, file.path);
    var after := WrittenFiles(files, file);
    if k < |files| {
      assert Sorted(after);
      assert forall f :: f in after ==> f == file || f in files;
      assert after[k] == file;
      if path != file.path && Lookup(files, path).Some? {
        var f := Lookup(files, path).value;
        var i :| 0 <= i < |files| && files[i] == f;
        assert after[i] == f;
      }
    } else {
      assert (files + [file])[..|files|] == files;
      SortOfSorted(files);
      InsertionKeepsSorted(file, files);
      assert file in after;
      if path != file.path && Lookup(files, path).Some? {
        assert Lookup(files, path).value in after;
      }
    }
    LookupInSorted(after, path);
    LookupInSorted(files, path);
  }

  /** In a sorted list a path names at most one file. */
  lemma LookupInSorted(files: seq<File>, path: Path)
    requires Sorted(files)
    ensures forall f :: f in files && f.path == path ==> Lookup(files, path) == Some(f)
  {
  }

  /** A sorted list is determined by what it holds at each path. */
  lemma {:induction false} SortedListsAreExtensional(a: seq<File>, b: seq<File>)
    requires Sorted(a) && Sorted(b)
    requires forall path :: Lookup(a, path) == Lookup(b, path)
    ensures a == b
  {
    if a != [] { assert Lookup(a, a[0].path).Some?; }
    if b != [] { assert Lookup(b, b[0].path).Some?; }
    if a != [] && b != [] {
      SortedRest(a);
      SortedRest(b);
      assert Lookup(a, a[0].path) == Some(a[0]);
      assert Lookup(b, b[0].path) == Some(b[0]);
      assert a[0].path == b[0].path;
      forall path ensures Lookup(a[1..], path) == Lookup(b[1..], path) {
        assert Lookup(a, path) == Lookup(b, path);
        if path == a[0].path {
          assert Lookup(a[1..], path).None?;
          assert Lookup(b[1..], path).None?;
        }
      }
      SortedListsAreExtensional(a[1..], b[1..]);
      assert a == [a[0]] + a[1..] && b == [b[0]] + b[1..];
    }
  }

  // ---------------------------------------------------------------- the diff bridge

  predicate Ascending(paths: seq<Path>) {
    forall i, j :: 0 <= i < j < |paths| ==> paths[i] < paths[j]
  }

  /** The keys of both lists in order, kept where the two lists differ. */
  function ChangedPaths(before: seq<File>, after: seq<File>): seq<Path>
    decreases |before| + |after|
  {
    if before == [] && after == [] then []
    else if after == [] || (before != [] && before[0].path < after[0].path) then
      [before[0].path] + ChangedPaths(before[1..], after)
    else if before == [] || after[0].path < before[0].path then
      [after[0].path] + ChangedPaths(before, after[1..])
    else
      (if before[0] == after[0] then [] else [before[0].path]) + ChangedPaths(before[1..], after[1..])
  }

  lemma {:induction false} ChangedPathsAreAbove(before: seq<File>, after: seq<File>, floor: Path)
    requires forall f :: f in before ==> floor < f.path
    requires forall f :: f in after ==> floor < f.path
    ensures forall p :: p in ChangedPaths(before, after) ==> floor < p
    decreases |before| + |after|
  {
    if before == [] && after == [] {
    } else if after == [] || (before != [] && before[0].path < after[0].path) {
      ChangedPathsAreAbove(before[1..], after, floor);
    } else if before == [] || after[0].path < before[0].path {
      ChangedPathsAreAbove(before, after[1..], floor);
    } else {
      ChangedPathsAreAbove(before[1..], after[1..], floor);
    }
  }

  lemma AscendingCons(path: Path, paths: seq<Path>)
    requires Ascending(paths) && forall p :: p in paths ==> path < p
    ensures Ascending([path] + paths)
  {
    forall i, j | 0 <= i < j < |[path] + paths|
      ensures ([path] + paths)[i] < ([path] + paths)[j]
    {
      assert ([path] + paths)[j] == paths[j - 1];
      if i > 0 { assert ([path] + paths)[i] == paths[i - 1]; } else { assert paths[j - 1] in paths; }
    }
  }

  lemma LookupAbove(files: seq<File>, path: Path)
    requires Sorted(files) && (files == [] || path < files[0].path)
    ensures Lookup(files, path) == None
  {
    forall f | f in files ensures f.path != path { if files != [] { SortedRest(files); } }
  }

  /** The bridge's changed paths: strictly ascending, and exactly the paths that differ. */
  lemma {:induction false} ChangedPathsAreTheDifference(before: seq<File>, after: seq<File>, path: Path)
    requires Sorted(before) && Sorted(after)
    ensures Ascending(ChangedPaths(before, after))
    ensures path in ChangedPaths(before, after) <==> Lookup(before, path) != Lookup(after, path)
    decreases |before| + |after|
  {
    if before == [] && after == [] {
    } else if after == [] || (before != [] && before[0].path < after[0].path) {
      SortedRest(before);
      ChangedPathsAreTheDifference(before[1..], after, path);
      if after != [] { AllAbove(after, before[0].path); }
      ChangedPathsAreAbove(before[1..], after, before[0].path);
      AscendingCons(before[0].path, ChangedPaths(before[1..], after));
      LookupAbove(after, before[0].path);
      LookupAbove(before[1..], before[0].path);
    } else if before == [] || after[0].path < before[0].path {
      SortedRest(after);
      ChangedPathsAreTheDifference(before, after[1..], path);
      if before != [] { AllAbove(before, after[0].path); }
      ChangedPathsAreAbove(before, after[1..], after[0].path);
      AscendingCons(after[0].path, ChangedPaths(before, after[1..]));
      LookupAbove(before, after[0].path);
      LookupAbove(after[1..], after[0].path);
    } else {
      SortedRest(before);
      SortedRest(after);
      ChangedPathsAreTheDifference(before[1..], after[1..], path);
      ChangedPathsAreAbove(before[1..], after[1..], before[0].path);
      var rest := ChangedPaths(before[1..], after[1..]);
      if before[0] == after[0] {
        assert ChangedPaths(before, after) == rest;
      } else {
        AscendingCons(before[0].path, rest);
      }
      LookupAbove(before[1..], before[0].path);
      LookupAbove(after[1..], after[0].path);
    }
  }

  lemma AllAbove(files: seq<File>, floor: Path)
    requires Sorted(files) && files != [] && floor < files[0].path
    ensures forall f :: f in files ==> floor < f.path
  {
    SortedRest(files);
    assert files == [files[0]] + files[1..];
  }

  datatype Bridge = Bridge(
    changed: seq<Path>,
    beforeFiles: seq<Option<File>>,
    afterFiles: seq<Option<File>>)

  function Identities(files: seq<File>, paths: seq<Path>): (found: seq<Option<File>>)
    ensures |found| == |paths|
    ensures forall i :: 0 <= i < |paths| ==> found[i] == Lookup(files, paths[i])
  {
    seq(|paths|, i requires 0 <= i < |paths| => Lookup(files, paths[i]))
  }

  function BuildBridge(before: seq<File>, after: seq<File>): Bridge {
    var changed := ChangedPaths(before, after);
    Bridge(changed, Identities(before, changed), Identities(after, changed))
  }

  /** The shape the kernel validates: ascending paths, no path left without an after file, no path
      listed whose file did not change. */
  predicate ValidBridge(b: Bridge) {
    && |b.beforeFiles| == |b.changed| == |b.afterFiles|
    && (forall i :: 0 <= i < |b.changed| - 1 ==> b.changed[i] < b.changed[i + 1])
    && (forall i :: 0 <= i < |b.changed| ==>
          && b.afterFiles[i].Some? && b.afterFiles[i].value.path == b.changed[i]
          && (b.beforeFiles[i].Some? ==> b.beforeFiles[i].value.path == b.changed[i])
          && b.beforeFiles[i] != b.afterFiles[i])
  }

  /** A bridge is valid exactly when no file of the initial snapshot disappeared. */
  lemma BridgeValidIffNothingDeleted(before: seq<File>, after: seq<File>)
    requires Sorted(before) && Sorted(after)
    ensures ValidBridge(BuildBridge(before, after))
        <==> forall f :: f in before ==> Lookup(after, f.path).Some?
  {
    var b := BuildBridge(before, after);
    forall path ensures path in b.changed <==> Lookup(before, path) != Lookup(after, path) {
      ChangedPathsAreTheDifference(before, after, path);
    }
    ChangedPathsAreTheDifference(before, after, 0);
    if ValidBridge(b) {
      forall f | f in before ensures Lookup(after, f.path).Some? {
        LookupInSorted(before, f.path);
        if f.path in b.changed {
          var i :| 0 <= i < |b.changed| && b.changed[i] == f.path;
          assert b.afterFiles[i].Some?;
        }
      }
    }
    if forall f :: f in before ==> Lookup(after, f.path).Some? {
      forall i | 0 <= i < |b.changed|
        ensures b.afterFiles[i].Some? && b.beforeFiles[i] != b.afterFiles[i]
      {
        assert b.changed[i] in b.changed;
        if b.beforeFiles[i].Some? { assert b.beforeFiles[i].value in before; }
      }
    }
  }

  function Without(files: seq<File>, path: Path): seq<File> {
    if files == [] then []
    else (if files[0].path == path then [] else [files[0]]) + Without(files[1..], path)
  }

  /** One path's identity replaced: its file removed, and the after file put in when there is one. */
  function Patched(files: seq<File>, path: Path, file: Option<File>): seq<File> {
    var rest := Without(files, path);
    if file.Some? then InsertByPath(file.value, rest) else rest
  }

  function PatchedAll(files: seq<File>, paths: seq<Path>, after: seq<Option<File>>): seq<File>
    requires |paths| == |after|
    decreases |paths|
  {
    if paths == [] then files
    else PatchedAll(Patched(files, paths[0], after[0]), paths[1..], after[1..])
  }

  lemma {:induction false} WithoutKeepsSorted(files: seq<File>, path: Path)
    requires Sorted(files)
    ensures Sorted(Without(files, path))
    ensures forall f :: f in Without(files, path) <==> f in files && f.path != path
  {
    if files != [] {
      SortedRest(files);
      WithoutKeepsSorted(files[1..], path);
      assert files == [files[0]] + files[1..];
      if files[0].path != path { SortedCons(files[0], Without(files[1..], path)); }
    }
  }

  lemma PatchReplacesOnePath(files: seq<File>, path: Path, file: Option<File>, query: Path)
    requires Sorted(files) && (file.Some? ==> file.value.path == path)
    ensures Sorted(Patched(files, path, file))
    ensures Lookup(Patched(files, path, file), query)
         == if query == path then file else Lookup(files, query)
  {
    WithoutKeepsSorted(files, path);
    var rest := Without(files, path);
    if file.Some? { InsertionKeepsSorted(file.value, rest); }
    var after := Patched(files, path, file);
    assert forall f :: f in after <==> (file == Some(f) || (f in files && f.path != path));
    LookupInSorted(after, query);
    LookupInSorted(files, query);
    if query == path && file.Some? { assert file.value in after; }
    if query != path && Lookup(files, query).Some? { assert Lookup(files, query).value in after; }
  }

  lemma {:induction false} PatchesReplaceTheirPaths(files: seq<File>, paths: seq<Path>, target: seq<File>, query: Path)
    requires Sorted(files) && Ascending(paths)
    ensures Sorted(PatchedAll(files, paths, Identities(target, paths)))
    ensures Lookup(PatchedAll(files, paths, Identities(target, paths)), query)
         == if query in paths then Lookup(target, query) else Lookup(files, query)
    decreases |paths|
  {
    if paths != [] {
      var step := Patched(files, paths[0], Lookup(target, paths[0]));
      PatchReplacesOnePath(files, paths[0], Lookup(target, paths[0]), query);
      assert Identities(target, paths)[1..] == Identities(target, paths[1..]);
      PatchesReplaceTheirPaths(step, paths[1..], target, query);
      assert paths == [paths[0]] + paths[1..];
    }
  }

  /** Replacing the changed paths' before identities by their after identities turns the initial
      snapshot's list into the current one. */
  lemma BridgeReproducesTheAfterList(before: seq<File>, after: seq<File>)
    requires Sorted(before) && Sorted(after)
    ensures var b := BuildBridge(before, after);
            PatchedAll(before, b.changed, b.afterFiles) == after
  {
    var b := BuildBridge(before, after);
    ChangedPathsAreTheDifference(before, after, 0);
    var patched := PatchedAll(before, b.changed, b.afterFiles);
    PatchesReplaceTheirPaths(before, b.changed, after, 0);
    forall path ensures Lookup(patched, path) == Lookup(after, path) {
      PatchesReplaceTheirPaths(before, b.changed, after, path);
      ChangedPathsAreTheDifference(before, after, path);
    }
    SortedListsAreExtensional(patched, after);
  }
}
