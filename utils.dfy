/**
 * `find_experiment_root_dir`: look for `fuga.yml` in the working directory
 * and then in its ancestors. Because `depth` grows by `max_depth` per step,
 * the loop stops after the parent at the latest.
 */
module Utils {
  import Paths

  /** What `os.listdir` sees: the names in each existing directory. */
  type FileSystem = map<string, set<string>>

  const Marker := "fuga.yml"

  /** `max_depth`'s default. */
  const DefaultMaxDepth := 4

  /** The result of a search: a directory, the "not a fuga experiment" exception, or `listdir` raising on a missing directory. */
  datatype Search = Found(dir: string) | NotFound | ListingFailed(dir: string)

  /** Inspect `dirs` in order and stop at the first that holds the marker or cannot be listed. */
  function FirstWithMarker(fs: FileSystem, dirs: seq<string>): (r: Search)
    ensures r.Found? ==> r.dir in dirs && r.dir in fs && Marker in fs[r.dir]
    ensures r.ListingFailed? ==> r.dir in dirs && r.dir !in fs
    ensures r.NotFound? <==> forall d :: d in dirs ==> d in fs && Marker !in fs[d]
    decreases |dirs|
  {
    if dirs == [] then NotFound
    else if dirs[0] !in fs then ListingFailed(dirs[0])
    else if Marker in fs[dirs[0]] then Found(dirs[0])
    else
      var r := FirstWithMarker(fs, dirs[1..]);
      assert forall d :: d in dirs ==> d == dirs[0] || d in dirs[1..];
      r
  }

  /** The directories the loop can reach: the cwd, and its parent when `max_depth >= 1`. */
  function Candidates(cwd: string, maxDepth: int): (dirs: seq<string>)
    ensures 1 <= |dirs| <= 2 && dirs[0] == cwd
  {
    if maxDepth >= 1 then [cwd, Paths.Dirname(cwd)] else [cwd]
  }

  /** The `while True` loop; `inspected` lists the directories given to `os.listdir`, in order. */
  method FindExperimentRootDir(fs: FileSystem, cwd: string, maxDepth: int) returns (r: Search, inspected: seq<string>)
    ensures r == FirstWithMarker(fs, Candidates(cwd, maxDepth))
    ensures inspected != [] && inspected <= Candidates(cwd, maxDepth)
    ensures r.NotFound? ==> inspected == Candidates(cwd, maxDepth)
    ensures r.Found? || r.ListingFailed? ==> r.dir == inspected[|inspected| - 1]
  {
    var cur := cwd;
    var depth := 0;
    inspected := [];
    while true
      invariant depth == 0 || (depth == maxDepth && maxDepth >= 1)
      invariant cur == (if depth == 0 then cwd else Paths.Dirname(cwd))
      invariant inspected == (if depth == 0 then [] else [cwd])
      invariant FirstWithMarker(fs, Candidates(cwd, maxDepth)) ==
        FirstWithMarker(fs, if depth == 0 then Candidates(cwd, maxDepth) else [Paths.Dirname(cwd)])
      decreases if depth == 0 then 1 else 0
    {
      inspected := inspected + [cur];
      if cur !in fs {
        return ListingFailed(cur), inspected;
      }
      if Marker in fs[cur] {
        return Found(cur), inspected;
      }
      if depth >= maxDepth {
        return NotFound, inspected;
      }
      depth := depth + maxDepth;
      cur := Paths.Dirname(cur);
    }
  }

  /** A directory found is the cwd or its parent, and so a prefix of the cwd. */
  lemma FoundIsCwdOrParent(fs: FileSystem, cwd: string, maxDepth: int)
    ensures var r := FirstWithMarker(fs, Candidates(cwd, maxDepth));
      r.Found? ==> (r.dir == cwd || (maxDepth >= 1 && r.dir == Paths.Dirname(cwd))) && r.dir <= cwd
  {
    Paths.DirnameIsPrefix(cwd);
  }

  /** A marker in the cwd is found there, whatever the depth. */
  lemma MarkerInCwdFound(fs: FileSystem, cwd: string, maxDepth: int)
    requires cwd in fs && Marker in fs[cwd]
    ensures FirstWithMarker(fs, Candidates(cwd, maxDepth)) == Found(cwd)
  {
  }

  /** With `max_depth <= 0` only the cwd is looked at: a marker in the parent is not found. */
  lemma NonPositiveDepthOnlyCwd(fs: FileSystem, cwd: string, maxDepth: int)
    requires maxDepth <= 0
    requires cwd in fs && Marker !in fs[cwd]
    ensures FirstWithMarker(fs, Candidates(cwd, maxDepth)) == NotFound
  {
  }

  /** However large `max_depth` is, a marker only in the grandparent is never found. */
  lemma GrandparentNeverInspected(fs: FileSystem, cwd: string, maxDepth: int)
    requires cwd in fs && Marker !in fs[cwd]
    requires Paths.Dirname(cwd) in fs && Marker !in fs[Paths.Dirname(cwd)]
    ensures FirstWithMarker(fs, Candidates(cwd, maxDepth)) == NotFound
  {
  }
}
