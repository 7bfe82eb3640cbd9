/**
 * `fuga operator new`: its own copy of the experiment-root search, in which
 * `cur` is never moved to the parent, and the directory and context it hands
 * to cookiecutter.
 */
module PodOperatorCli {
  import opened Wrappers
  import Paths
  import Utils

  /** The directories the loop lists: the cwd, twice when `max_depth >= 1`. */
  function Candidates(cwd: string, maxDepth: int): (dirs: seq<string>)
    ensures 1 <= |dirs| <= 2 && forall k :: 0 <= k < |dirs| ==> dirs[k] == cwd
  {
    if maxDepth >= 1 then [cwd, cwd] else [cwd]
  }

  /** `PodOperatorNewCommand.find_experiment_root_dir` */
  method FindExperimentRootDir(fs: Utils.FileSystem, cwd: string, maxDepth: int) returns (r: Utils.Search, inspected: seq<string>)
    ensures r == Utils.FirstWithMarker(fs, Candidates(cwd, maxDepth))
    ensures inspected != [] && inspected <= Candidates(cwd, maxDepth)
    ensures r.NotFound? ==> inspected == Candidates(cwd, maxDepth)
  {
    var cur := cwd;
    var depth := 0;
    inspected := [];
    while true
      invariant depth == 0 || (depth == maxDepth && maxDepth >= 1)
      invariant cur == cwd
      invariant inspected == (if depth == 0 then [] else [cwd])
      invariant Utils.FirstWithMarker(fs, Candidates(cwd, maxDepth)) ==
        Utils.FirstWithMarker(fs, if depth == 0 then Candidates(cwd, maxDepth) else [cwd])
      decreases if depth == 0 then 1 else 0
    {
      inspected := inspected + [cur];
      if cur !in fs {
        return Utils.ListingFailed(cur), inspected;
      }
      if Utils.Marker in fs[cur] {
        return Utils.Found(cur), inspected;
      }
      if depth >= maxDepth {
        return Utils.NotFound, inspected;
      }
      depth := depth + maxDepth;
    }
  }

  /** Only the cwd is ever listed: the search yields the cwd, the exception, or the listing error, decided by the cwd alone. */
  lemma OnlyCwdDecides(fs: Utils.FileSystem, cwd: string, maxDepth: int)
    ensures Utils.FirstWithMarker(fs, Candidates(cwd, maxDepth)) ==
      (if cwd !in fs then Utils.ListingFailed(cwd)
       else if Utils.Marker in fs[cwd] then Utils.Found(cwd)
       else Utils.NotFound)
  {
  }

  /** The arguments of the cookiecutter call that matter here. */
  datatype CookiecutterCall = CookiecutterCall(template: string, outputDir: string, extraContext: map<string, string>)

  /** The command either reaches cookiecutter or ends in the search's exception. */
  datatype NewOutcome = Calls(call: CookiecutterCall) | SearchFails(search: Utils.Search)

  /**
   * `PodOperatorNewCommand.run`: a non-empty `output_dir` is used as is
   * (and no search happens); otherwise `<root>/operators`.
   */
  method Run(fs: Utils.FileSystem, cwd: string, operatorName: string, template: string,
             outputDir: Option<string>, extraContext: Option<map<string, string>>) returns (r: NewOutcome)
    ensures r.Calls? ==> r.call.extraContext == map["operator_name" := operatorName] && r.call.template == template
    ensures outputDir.Some? && outputDir.value != "" ==> r.Calls? && r.call.outputDir == outputDir.value
    ensures outputDir.None? || outputDir.value == "" ==>
      var s := Utils.FirstWithMarker(fs, Candidates(cwd, Utils.DefaultMaxDepth));
      if s.Found? then r.Calls? && r.call.outputDir == Paths.Join(cwd, "operators") else r == SearchFails(s)
  {
    var dir: string;
    if outputDir.Some? && outputDir.value != "" {
      dir := outputDir.value;
    } else {
      var s, _ := FindExperimentRootDir(fs, cwd, Utils.DefaultMaxDepth);
      if !s.Found? {
        return SearchFails(s);
      }
      dir := Paths.Join(s.dir, "operators");
    }
    var context := map["operator_name" := operatorName];
    return Calls(CookiecutterCall(template, dir, context));
  }
}
