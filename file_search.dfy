/** `find_file_locations` of `src/agent/tools.py`: every place below the
    working directory where a file of the given name is listed, found by a
    top-down `os.walk` that prunes a fixed set of directory names. */
module FileSearch {
  import opened FileTree

  /** Directory names `find_file_locations` never descends into. */
  const IgnoreDirs: seq<string> := [".git", "node_modules", "venv", "__pycache__", ".idea"]

  predicate Ignored(name: string) {
    name in IgnoreDirs
  }

  /** `p` is a path whose last component is `name`. */
  predicate EndsWithName(p: string, name: string) {
    |p| > |name| && p[|p| - |name|..] == name && p[|p| - |name| - 1] == '/'
  }

  /** The paths `find_file_locations` collects while `os.walk` visits the
      directory `e` at `path`, top-down, in listing order. A directory whose
      listing fails is skipped silently, as `os.walk` does without an
      `onerror` handler. */
  function WalkDir(e: Entry, path: string, filename: string): (r: seq<string>)
    ensures !(e.Dir? && e.access.Readable?) ==> r == []
    decreases e, 2
  {
    if e.File? || !e.access.Readable? then []
    else Here(e, path, filename) + WalkSubdirs(e, |e.children|, path, filename)
  }

  /** The `files` list `os.walk` yields for a directory: the names of the
      entries that are not directories, in listing order. */
  function FileNames(children: seq<Entry>): (r: seq<string>)
    ensures forall name :: name in r <==> File(name) in children
  {
    if children == [] then []
    else
      (if children[0].File? then [children[0].name] else []) + FileNames(children[1..])
  }

  /** The match in the listing of `e` itself: `filename in files`. */
  function Here(e: Entry, path: string, filename: string): seq<string>
    requires e.Dir?
  {
    if filename in FileNames(e.children) then [JoinPath(path, filename)] else []
  }

  /** The paths found below the first `k` children of `e`. */
  function WalkSubdirs(e: Entry, k: nat, path: string, filename: string): seq<string>
    requires e.Dir? && k <= |e.children|
    decreases e, 1, k
  {
    if k == 0 then [] else WalkSubdirs(e, k - 1, path, filename) + WalkChild(e, k - 1, path, filename)
  }

  /** The paths found below the `j`-th child of `e`: none unless it is a
      directory whose name is not in `IgnoreDirs` (the pruning of `dirs`). */
  function WalkChild(e: Entry, j: nat, path: string, filename: string): seq<string>
    requires e.Dir? && j < |e.children|
    decreases e, 0
  {
    var c := e.children[j];
    if c.Dir? && !Ignored(c.name) then WalkDir(c, JoinPath(path, c.name), filename) else []
  }

  /** Where a file named `filename` is, independently of the walk: in the
      listing of the readable directory `e` itself, or below one of its
      subdirectories. */
  predicate Locates(e: Entry, path: string, filename: string, location: string)
    decreases e, 2
  {
    && e.Dir? && e.access.Readable?
    && ((filename in FileNames(e.children) && location == JoinPath(path, filename))
        || LocatedAmong(e, |e.children|, path, filename, location))
  }

  /** One of the first `k` children of `e` locates the file. */
  predicate LocatedAmong(e: Entry, k: nat, path: string, filename: string, location: string)
    requires e.Dir? && k <= |e.children|
    decreases e, 1, k
  {
    k > 0 && (LocatedAmong(e, k - 1, path, filename, location) || LocatedBelow(e, k - 1, path, filename, location))
  }

  /** The `j`-th child of `e` is a directory outside `IgnoreDirs` that
      locates the file. */
  predicate LocatedBelow(e: Entry, j: nat, path: string, filename: string, location: string)
    requires e.Dir? && j < |e.children|
    decreases e, 0
  {
    var c := e.children[j];
    c.Dir? && !Ignored(c.name) && Locates(c, JoinPath(path, c.name), filename, location)
  }

  /** The walk finds exactly the locations of the file. */
  lemma {:induction false} WalkDirFindsExactlyLocations(e: Entry, path: string, filename: string, location: string)
    ensures location in WalkDir(e, path, filename) <==> Locates(e, path, filename, location)
    decreases e, 2
  {
    if e.Dir? && e.access.Readable? {
      WalkSubdirsFindsLocations(e, |e.children|, path, filename, location);
    }
  }

  lemma {:induction false} WalkSubdirsFindsLocations(e: Entry, k: nat, path: string, filename: string, location: string)
    requires e.Dir? && k <= |e.children|
    ensures location in WalkSubdirs(e, k, path, filename) <==> LocatedAmong(e, k, path, filename, location)
    decreases e, 1, k
  {
    if k > 0 {
      WalkSubdirsFindsLocations(e, k - 1, path, filename, location);
      var c := e.children[k - 1];
      if c.Dir? && !Ignored(c.name) {
        WalkDirFindsExactlyLocations(c, JoinPath(path, c.name), filename, location);
      }
    }
  }

  /** A location of the file ends in `/` and the file name. */
  lemma {:induction false} LocationEndsWithName(e: Entry, path: string, filename: string, location: string)
    requires Locates(e, path, filename, location)
    ensures EndsWithName(location, filename)
    decreases e, 2
  {
    if !(filename in FileNames(e.children) && location == JoinPath(path, filename)) {
      LocatedAmongEndsWithName(e, |e.children|, path, filename, location);
    }
  }

  lemma {:induction false} LocatedAmongEndsWithName(e: Entry, k: nat, path: string, filename: string, location: string)
    requires e.Dir? && k <= |e.children|
    requires LocatedAmong(e, k, path, filename, location)
    ensures EndsWithName(location, filename)
    decreases e, 1, k
  {
    if LocatedAmong(e, k - 1, path, filename, location) {
      LocatedAmongEndsWithName(e, k - 1, path, filename, location);
    } else {
      var c := e.children[k - 1];
      LocationEndsWithName(c, JoinPath(path, c.name), filename, location);
    }
  }

  /** Every path `find_file_locations` returns ends in `/` and the file name. */
  lemma FoundPathsEndWithName(root: Entry, cwd: string, filename: string)
    ensures forall p :: p in WalkDir(root, cwd, filename) ==> EndsWithName(p, filename)
  {
    forall p | p in WalkDir(root, cwd, filename) ensures EndsWithName(p, filename) {
      WalkDirFindsExactlyLocations(root, cwd, filename, p);
      LocationEndsWithName(root, cwd, filename, p);
    }
  }

  /** `find_file_locations(filename)` run in the working directory `cwd`. */
  method FindFileLocationsIn(root: Entry, cwd: string, filename: string) returns (found: seq<string>)
    ensures found == WalkDir(root, cwd, filename)
  {
    found := Walk(root, cwd, filename, []);
  }

  /** The walk of the directory `e` at `path`: the loop body of
      `find_file_locations` for `e`, then the walks of its subdirectories
      in order, appending to `found`. */
  method Walk(e: Entry, path: string, filename: string, found: seq<string>) returns (found': seq<string>)
    ensures found' == found + WalkDir(e, path, filename)
    decreases e, 2
  {
    found' := found;
    if e.Dir? && e.access.Readable? {
      if filename in FileNames(e.children) {
        found' := found' + [JoinPath(path, filename)];
      }
      assert found' == found + Here(e, path, filename);
      found' := VisitSubdirs(e, path, filename, found');
      assert found' == found + WalkDir(e, path, filename) by {
        var here, below := Here(e, path, filename), WalkSubdirs(e, |e.children|, path, filename);
        assert (found + here) + below == found + (here + below);
      }
    }
  }

  /** The descent into the subdirectories of `e`, in listing order. */
  method VisitSubdirs(e: Entry, path: string, filename: string, found: seq<string>) returns (found': seq<string>)
    requires e.Dir?
    ensures found' == found + WalkSubdirs(e, |e.children|, path, filename)
    decreases e, 1
  {
    found' := found;
    var i := 0;
    while i < |e.children|
      invariant 0 <= i <= |e.children|
      invariant found' == found + WalkSubdirs(e, i, path, filename)
    {
      found' := VisitChild(e, i, path, filename, found');
      WalkSubdirsStep(e, i, path, filename, found);
      i := i + 1;
    }
  }

  /** Visiting one more subdirectory appends its walk to what the earlier
      ones found. */
  lemma WalkSubdirsStep(e: Entry, i: nat, path: string, filename: string, found: seq<string>)
    requires e.Dir? && i < |e.children|
    ensures found + WalkSubdirs(e, i + 1, path, filename)
      == (found + WalkSubdirs(e, i, path, filename)) + WalkChild(e, i, path, filename)
  {
    var done, child := WalkSubdirs(e, i, path, filename), WalkChild(e, i, path, filename);
    assert WalkSubdirs(e, i + 1, path, filename) == done + child;
    assert found + (done + child) == (found + done) + child;
  }

  /** The walk below the `i`-th child of `e`, skipped for a file or an
      ignored directory. */
  method VisitChild(e: Entry, i: nat, path: string, filename: string, found: seq<string>) returns (found': seq<string>)
    requires e.Dir? && i < |e.children|
    ensures found' == found + WalkChild(e, i, path, filename)
    decreases e, 0
  {
    var c := e.children[i];
    if c.Dir? && !Ignored(c.name) {
      found' := Walk(c, JoinPath(path, c.name), filename, found);
    } else {
      found' := found;
    }
  }
}
