/**
 * FindFile of Program.cs: the search for `<assembly>.dll` below the current
 * directory. The filesystem is a finite tree of directories, each listing
 * its files and its subdirectories in a fixed enumeration order.
 *
 * Although FindFile iterates over the subdirectories, its loop body returns
 * on the first iteration: either the first file Directory.GetFiles reports
 * in the first subdirectory, or the result of searching inside that first
 * subdirectory. So only the chain of first subdirectories is examined, the
 * files directly in the starting directory never are, and several matches
 * in one directory give the first of them.
 */
module Locator {
  import opened Wrappers
  import opened Logging

  /**
   * A directory: the names of the files directly in it and its
   * subdirectories, each in enumeration order. A real directory never
   * lists one name twice; a listing with repeated names stands for the
   * several entries a single pattern can match on a real filesystem,
   * through wildcards or case-insensitive matching.
   */
  datatype Dir = Dir(files: seq<string>, subdirs: seq<Dir>)

  /**
   * A file found by the search: the subdirectory indices leading from the
   * starting directory to the file's directory, and the file's position in
   * that directory's listing.
   */
  datatype FilePath = FilePath(route: seq<nat>, entry: nat)

  /** The file name searched for: `<assembly>.dll`. */
  function FileName(assembly: string): (name: string)
  {
    assembly + ".dll"
  }

  /** The route that takes the first subdirectory `depth` times. */
  function Zeros(depth: nat): (route: seq<nat>)
    ensures |route| == depth
  {
    if depth == 0 then [] else [0] + Zeros(depth - 1)
  }

  /** The directory reached from dir along route, if every index on it exists. */
  function Descend(dir: Dir, route: seq<nat>): (reached: Option<Dir>)
  {
    if route == [] then Some(dir)
    else if route[0] < |dir.subdirs| then Descend(dir.subdirs[route[0]], route[1..])
    else None
  }

  /** Entry `entry` of d's listing is the first one named `name`. */
  predicate FirstListed(d: Dir, entry: nat, name: string)
  {
    entry < |d.files| && d.files[entry] == name && forall i :: 0 <= i < entry ==> d.files[i] != name
  }

  /** p leads from dir to the first entry named `name` in its directory's listing. */
  predicate Locates(dir: Dir, p: FilePath, name: string)
  {
    Descend(dir, p.route).Some? && FirstListed(Descend(dir, p.route).value, p.entry, name)
  }

  /** The directory at `depth` steps down the first-subdirectory chain exists and lists `name`. */
  predicate ListsAt(dir: Dir, depth: nat, name: string)
  {
    Descend(dir, Zeros(depth)).Some? && name in Descend(dir, Zeros(depth)).value.files
  }

  /**
   * Directory.GetFiles(d, name) for a pattern without wildcards: the entries
   * of d's listing equal to `name`, in listing order.
   */
  function MatchingEntries(files: seq<string>, name: string): (r: seq<nat>)
    ensures forall k :: 0 <= k < |r| ==> r[k] < |files| && files[r[k]] == name
    ensures forall i :: 0 <= i < |files| && files[i] == name ==> i in r
    ensures forall k, l :: 0 <= k < l < |r| ==> r[k] < r[l]
  {
    if files == [] then []
    else
      var rest := MatchingEntries(files[..|files| - 1], name);
      if files[|files| - 1] == name then rest + [|files| - 1] else rest
  }

  /** The first entry GetFiles reports is the first one in the listing with that name; there is none exactly when no entry has it. */
  lemma FirstMatchingEntry(d: Dir, name: string)
    ensures |MatchingEntries(d.files, name)| == 0 <==> name !in d.files
    ensures |MatchingEntries(d.files, name)| > 0 ==> FirstListed(d, MatchingEntries(d.files, name)[0], name)
  {
  }

  /**
   * FindFile(directory, assembly). None stands for the exception "Could not
   * find the assembly". A result always lies at depth one or more, on the
   * first-subdirectory chain, and is the first entry named `<assembly>.dll`
   * in its directory's listing.
   */
  function FindFile(dir: Dir, assembly: string): (r: Option<FilePath>)
    ensures r.Some? ==> |r.value.route| >= 1 && r.value.route == Zeros(|r.value.route|)
    ensures r.Some? ==> Locates(dir, r.value, FileName(assembly))
    decreases dir
  {
    if |dir.subdirs| == 0 then None
    else
      var d := dir.subdirs[0];
      var found := MatchingEntries(d.files, FileName(assembly));
      if |found| > 0 then
        FirstMatchingEntry(d, FileName(assembly));
        assert Descend(dir, [0]) == Some(d);
        Some(FilePath([0], found[0]))
      else
        match FindFile(d, assembly)
        case None => None
        case Some(p) =>
          assert Descend(dir, [0] + p.route) == Descend(d, p.route) by {
            assert ([0] + p.route)[1..] == p.route;
          }
          Some(FilePath([0] + p.route, p.entry))
  }

  /**
   * The messages FindFile hands to Log, for a search started in the
   * directory at route `at`: "Looking for" on entry, then "Found n files"
   * for each subdirectory listed, and no other kind.
   */
  function FindFileMessages(dir: Dir, assembly: string, at: seq<nat>): (messages: seq<Message>)
    ensures |messages| >= 1 && messages[0] == LookingFor(assembly, at)
    ensures forall m :: m in messages ==> m.LookingFor? || m.FoundFiles?
    decreases dir
  {
    [LookingFor(assembly, at)] +
    if |dir.subdirs| == 0 then []
    else
      var found := MatchingEntries(dir.subdirs[0].files, FileName(assembly));
      [FoundFiles(|found|)] +
      if |found| > 0 then [] else FindFileMessages(dir.subdirs[0], assembly, at + [0])
  }

  /** Number of steps down the first-subdirectory chain before a directory without subdirectories. */
  function ChainLength(dir: Dir): (length: nat)
    decreases dir
  {
    if |dir.subdirs| == 0 then 0 else 1 + ChainLength(dir.subdirs[0])
  }

  /** One step down the chain: the first subdirectory's subtree seen from its parent. */
  lemma DescendFirst(dir: Dir, depth: nat)
    requires |dir.subdirs| > 0
    ensures Descend(dir, Zeros(depth + 1)) == Descend(dir.subdirs[0], Zeros(depth))
  {
  }

  /** If a directory on the chain lists the file, the search succeeds, at that depth or shallower. */
  lemma {:induction false} FindFileComplete(dir: Dir, assembly: string, depth: nat)
    requires depth >= 1 && ListsAt(dir, depth, FileName(assembly))
    ensures FindFile(dir, assembly).Some?
    ensures |FindFile(dir, assembly).value.route| <= depth
    decreases depth
  {
    assert |dir.subdirs| > 0;
    var d := dir.subdirs[0];
    DescendFirst(dir, depth - 1);
    FirstMatchingEntry(d, FileName(assembly));
    if |MatchingEntries(d.files, FileName(assembly))| == 0 {
      assert depth > 1;
      FindFileComplete(d, assembly, depth - 1);
    }
  }

  /** No directory on the chain above the one the search returns lists the file. */
  lemma {:induction false} FindFileShallowest(dir: Dir, assembly: string, depth: nat)
    requires FindFile(dir, assembly).Some?
    requires 1 <= depth < |FindFile(dir, assembly).value.route|
    ensures !ListsAt(dir, depth, FileName(assembly))
    decreases dir
  {
    var d := dir.subdirs[0];
    DescendFirst(dir, depth - 1);
    FirstMatchingEntry(d, FileName(assembly));
    assert |MatchingEntries(d.files, FileName(assembly))| == 0;
    if depth > 1 {
      FindFileShallowest(d, assembly, depth - 1);
    }
  }

  /**
   * The whole behaviour of FindFile against the first-subdirectory chain:
   * it fails exactly when no directory on the chain below the start lists
   * `<assembly>.dll`, and otherwise returns the first entry so named in the
   * shallowest such directory.
   */
  lemma FindFileSpec(dir: Dir, assembly: string)
    ensures FindFile(dir, assembly).None? <==> forall depth: nat :: depth >= 1 ==> !ListsAt(dir, depth, FileName(assembly))
    ensures FindFile(dir, assembly).Some? ==>
      var p := FindFile(dir, assembly).value;
      && p.route == Zeros(|p.route|)
      && ListsAt(dir, |p.route|, FileName(assembly))
      && Locates(dir, p, FileName(assembly))
      && forall depth: nat :: 1 <= depth < |p.route| ==> !ListsAt(dir, depth, FileName(assembly))
  {
    var name := FileName(assembly);
    var r := FindFile(dir, assembly);
    if r.Some? {
      var p := r.value;
      assert ListsAt(dir, |p.route|, name) by {
        var d := Descend(dir, p.route).value;
        assert d.files[p.entry] == name;
      }
      forall depth: nat | 1 <= depth < |p.route| ensures !ListsAt(dir, depth, name) {
        FindFileShallowest(dir, assembly, depth);
      }
    } else {
      forall depth: nat | depth >= 1 ensures !ListsAt(dir, depth, name) {
        if ListsAt(dir, depth, name) {
          FindFileComplete(dir, assembly, depth);
        }
      }
    }
  }

  /** The files directly in the starting directory play no part in the search. */
  lemma StartFilesIgnored(files1: seq<string>, files2: seq<string>, subdirs: seq<Dir>, assembly: string)
    ensures FindFile(Dir(files1, subdirs), assembly) == FindFile(Dir(files2, subdirs), assembly)
  {
  }

  /** A directory without subdirectories gives "Could not find the assembly", whatever files it holds. */
  lemma NoSubdirectoriesNotFound(dir: Dir, assembly: string)
    requires dir.subdirs == []
    ensures FindFile(dir, assembly).None?
    ensures FindFileMessages(dir, assembly, []) == [LookingFor(assembly, [])]
  {
  }

  /** Subdirectories after the first are never looked at, even when they hold the file. */
  lemma LaterSiblingsIgnored(files: seq<string>, first: Dir, rest1: seq<Dir>, rest2: seq<Dir>, assembly: string)
    ensures FindFile(Dir(files, [first] + rest1), assembly) == FindFile(Dir(files, [first] + rest2), assembly)
  {
  }

  /** A match in the first subdirectory is returned at once, as its first matching entry, however many there are. */
  lemma FirstSubdirectoryMatch(dir: Dir, assembly: string)
    requires |dir.subdirs| > 0 && FileName(assembly) in dir.subdirs[0].files
    ensures FindFile(dir, assembly).Some?
    ensures FindFile(dir, assembly).value.route == [0]
    ensures FirstListed(dir.subdirs[0], FindFile(dir, assembly).value.entry, FileName(assembly))
  {
  }

  /** Without a match in the first subdirectory, the result is that of searching inside it, one level deeper. */
  lemma FirstSubdirectoryNoMatch(dir: Dir, assembly: string)
    requires |dir.subdirs| > 0 && FileName(assembly) !in dir.subdirs[0].files
    ensures FindFile(dir.subdirs[0], assembly).None? ==> FindFile(dir, assembly).None?
    ensures FindFile(dir.subdirs[0], assembly).Some? ==>
      var p := FindFile(dir.subdirs[0], assembly).value;
      FindFile(dir, assembly) == Some(FilePath([0] + p.route, p.entry))
  {
  }

  /** A tree with the only `Lib.dll` in the second subdirectory: the search fails although the file is there. */
  lemma SiblingMatchMissed()
    ensures Descend(Dir([], [Dir([], []), Dir(["Lib.dll"], [])]), [1]) == Some(Dir(["Lib.dll"], []))
    ensures FindFile(Dir([], [Dir([], []), Dir(["Lib.dll"], [])]), "Lib").None?
  {
  }

  /**
   * FindFile logs "Looking for" on entry to each directory it searches and
   * "Found n files" after listing that directory's first subdirectory: two
   * messages per level down to the match, and one more for the last
   * directory when the chain ends without one.
   */
  lemma {:induction false} FindFileMessagesCount(dir: Dir, assembly: string, at: seq<nat>)
    ensures FindFile(dir, assembly).Some? ==>
      |FindFileMessages(dir, assembly, at)| == 2 * |FindFile(dir, assembly).value.route|
    ensures FindFile(dir, assembly).None? ==>
      |FindFileMessages(dir, assembly, at)| == 2 * ChainLength(dir) + 1
    decreases dir
  {
    if |dir.subdirs| > 0 {
      var d := dir.subdirs[0];
      if |MatchingEntries(d.files, FileName(assembly))| == 0 {
        FindFileMessagesCount(d, assembly, at + [0]);
      }
    }
  }
}
