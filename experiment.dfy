/**
 * `fuga experiment new` (what it hands to cookiecutter) and
 * `fuga experiment deploy`: check the Composer environment, split its DAG
 * folder URL into bucket and prefix, plan one upload per experiment file
 * under `py/`, `sql/` and `pod_operators/`, confirm, then upload in plan order.
 */
module ExperimentCli {
  import opened Wrappers
  import Paths
  import Urls
  import Prompt
  import Composer

  // ---------------------------------------------------------------------
  // experiment new

  /** The arguments of the cookiecutter call that matter here. */
  datatype CookiecutterCall = CookiecutterCall(template: string, outputDir: string, extraContext: map<string, string>)

  /** `ExperimentNewCommand.run`: the output directory defaults to the cwd; the passed context is replaced. */
  function NewExperimentCall(experimentName: string, template: string, outputDir: Option<string>,
                             extraContext: Option<map<string, string>>, cwd: string): (c: CookiecutterCall)
    ensures c.extraContext.Keys == {"experiment_name"} && c.extraContext["experiment_name"] == experimentName
    ensures outputDir.Some? && outputDir.value != "" ==> c.outputDir == outputDir.value
    ensures outputDir.None? || outputDir.value == "" ==> c.outputDir == cwd
    ensures c.template == template
  {
    var dir := if outputDir.Some? && outputDir.value != "" then outputDir.value else cwd;
    CookiecutterCall(template, dir, map["experiment_name" := experimentName])
  }

  /** Whatever context the caller passes, the call is the same. */
  lemma NewExperimentIgnoresExtraContext(experimentName: string, template: string, outputDir: Option<string>,
                                         x1: Option<map<string, string>>, x2: Option<map<string, string>>, cwd: string)
    ensures NewExperimentCall(experimentName, template, outputDir, x1, cwd) == NewExperimentCall(experimentName, template, outputDir, x2, cwd)
  {
  }

  // ---------------------------------------------------------------------
  // The ignore rule

  // `re.match('.*/.git/.*', p)` matches at index `i`: newline-free text up
  // to `i`, then `/`, one character other than a newline (the unescaped
  // `.`), then `git/`; the trailing `.*` accepts the empty rest.
  predicate GitSegmentAt(p: string, i: nat)
    requires i + 6 <= |p|
  {
    '\n' !in p[..i] && p[i] == '/' && p[i + 1] != '\n' && GitAt(p, i + 2)
  }

  predicate GitAt(p: string, k: nat)
    requires k + 4 <= |p|
  {
    p[k..k + 4] == "git/"
  }

  /** `_is_ignored(p)` with the single default pattern. */
  predicate IsIgnored(p: string)
  {
    exists i :: 0 <= i && i + 6 <= |p| && GitSegmentAt(p, i)
  }

  /** Anything inside a `.git` directory is ignored. */
  lemma GitDirectoryIgnored(root: string, rest: string)
    requires '\n' !in root
    ensures IsIgnored(root + "/.git/" + rest)
  {
    var p := root + "/.git/" + rest;
    assert p[..|root|] == root;
    assert GitAt(p, |root| + 2);
    assert GitSegmentAt(p, |root|);
  }

  /** The `.` before `git` is not escaped, so a directory such as `xgit` is ignored too. */
  lemma AnyCharacterBeforeGitIgnored(root: string, c: char, rest: string)
    requires '\n' !in root && c != '\n'
    ensures IsIgnored(root + "/" + [c] + "git/" + rest)
  {
    var p := root + "/" + [c] + "git/" + rest;
    assert p[..|root|] == root;
    assert p[|root| + 2..|root| + 6] == "git/";
    assert GitSegmentAt(p, |root|);
  }

  /** A path without `git/` anywhere is never ignored. */
  lemma WithoutGitNotIgnored(p: string)
    requires forall k :: 0 <= k && k + 4 <= |p| ==> !GitAt(p, k)
    ensures !IsIgnored(p)
  {
    forall i | 0 <= i && i + 6 <= |p|
      ensures !GitSegmentAt(p, i)
    {
      assert !GitAt(p, i + 2);
    }
  }

  /** `.` does not match a newline, so a newline before the segment defeats the pattern. */
  lemma NewlineBeforeGitNotIgnored()
    ensures !IsIgnored("a\n/.git/")
  {
    var p := "a\n/.git/";
    forall i | 0 <= i && i + 6 <= |p|
      ensures !GitSegmentAt(p, i)
    {
      if i == 2 {
        assert p[..i][1] == '\n';
      }
    }
  }

  // ---------------------------------------------------------------------
  // The upload plan

  const Targets: seq<string> := ["py", "sql", "pod_operators"]

  // `os.path.join(root, target, '**/*')`
  function GlobPattern(root: string, target: string): string
  {
    Paths.Join(Paths.Join(root, target), "**/*")
  }

  /** Python's `s[k:]`. */
  function SliceFrom(s: string, k: nat): (r: string)
    ensures k <= |s| ==> s == s[..k] + r
    ensures k >= |s| ==> r == []
  {
    if k <= |s| then s[k..] else []
  }

  /** `os.path.join(prefix, experiment_name, local_path[len(root) + 1:])` */
  function RemotePath(prefix: string, experimentName: string, root: string, local: string): string
  {
    Paths.Join(Paths.Join(prefix, experimentName), SliceFrom(local, |root| + 1))
  }

  /** A file below the root lands under `<prefix>/<experiment>/` with its path relative to the root. */
  lemma RemotePathShape(prefix: string, experimentName: string, root: string, relative: string)
    requires prefix != [] && prefix[|prefix| - 1] != '/'
    requires experimentName != [] && experimentName[0] != '/' && experimentName[|experimentName| - 1] != '/'
    requires relative == [] || relative[0] != '/'
    ensures RemotePath(prefix, experimentName, root, root + "/" + relative) == prefix + "/" + experimentName + "/" + relative
  {
    var local := root + "/" + relative;
    assert local[|root| + 1..] == relative;
    Paths.JoinPlain(prefix, experimentName);
    var dir := prefix + "/" + experimentName;
    assert dir[|dir| - 1] == experimentName[|experimentName| - 1];
    Paths.JoinPlain(dir, relative);
  }

  /** The pairs one target contributes, from the files its glob yields in order. */
  function TargetPairs(files: seq<string>, prefix: string, experimentName: string, root: string): seq<(string, string)>
    decreases |files|
  {
    if files == [] then []
    else
      var front := TargetPairs(files[..|files| - 1], prefix, experimentName, root);
      var local := files[|files| - 1];
      if IsIgnored(local) then front else front + [(local, RemotePath(prefix, experimentName, root, local))]
  }

  /** The plan for the given targets, target by target. */
  function Plan(targets: seq<string>, glob: string -> seq<string>, root: string, experimentName: string, prefix: string): seq<(string, string)>
    decreases |targets|
  {
    if targets == [] then []
    else
      Plan(targets[..|targets| - 1], glob, root, experimentName, prefix) +
      TargetPairs(glob(GlobPattern(root, targets[|targets| - 1])), prefix, experimentName, root)
  }

  /** The inner loop of the pair building: one target's files, in glob order. */
  method AppendTargetPairs(pairs: seq<(string, string)>, files: seq<string>, prefix: string, experimentName: string, root: string)
    returns (extended: seq<(string, string)>)
    ensures extended == pairs + TargetPairs(files, prefix, experimentName, root)
  {
    extended := pairs;
    var j := 0;
    while j < |files|
      invariant 0 <= j <= |files|
      invariant extended == pairs + TargetPairs(files[..j], prefix, experimentName, root)
    {
      var local := files[j];
      assert files[..j + 1][..j] == files[..j];
      if !IsIgnored(local) {
        extended := extended + [(local, RemotePath(prefix, experimentName, root, local))];
      }
      j := j + 1;
    }
    assert files[..|files|] == files;
  }

  /** The outer loop of the pair building, over `py`, `sql`, `pod_operators`. */
  method BuildPairs(root: string, experimentName: string, prefix: string, glob: string -> seq<string>) returns (pairs: seq<(string, string)>)
    ensures pairs == Plan(Targets, glob, root, experimentName, prefix)
  {
    pairs := [];
    var t := 0;
    while t < |Targets|
      invariant 0 <= t <= |Targets|
      invariant pairs == Plan(Targets[..t], glob, root, experimentName, prefix)
    {
      var files := glob(GlobPattern(root, Targets[t]));
      pairs := AppendTargetPairs(pairs, files, prefix, experimentName, root);
      ghost var done := Targets[..t + 1];
      assert done[..|done| - 1] == Targets[..t] && done[|done| - 1] == Targets[t];
      t := t + 1;
    }
    assert Targets[..|Targets|] == Targets;
  }

  /** Filtering works file by file, so listing order is kept. */
  lemma {:induction false} TargetPairsAppend(a: seq<string>, b: seq<string>, prefix: string, experimentName: string, root: string)
    ensures TargetPairs(a + b, prefix, experimentName, root) == TargetPairs(a, prefix, experimentName, root) + TargetPairs(b, prefix, experimentName, root)
    decreases |b|
  {
    if b == [] {
      assert a + b == a;
    } else {
      var b' := b[..|b| - 1];
      assert (a + b)[..|a + b| - 1] == a + b';
      TargetPairsAppend(a, b', prefix, experimentName, root);
    }
  }

  /** Every pair is a listed, non-ignored file and its remote path. */
  lemma {:induction false} TargetPairsSound(files: seq<string>, prefix: string, experimentName: string, root: string)
    ensures forall pr :: pr in TargetPairs(files, prefix, experimentName, root) ==>
      pr.0 in files && !IsIgnored(pr.0) && pr.1 == RemotePath(prefix, experimentName, root, pr.0)
    ensures forall f :: f in files && !IsIgnored(f) ==> (f, RemotePath(prefix, experimentName, root, f)) in TargetPairs(files, prefix, experimentName, root)
    decreases |files|
  {
    if files != [] {
      var front := files[..|files| - 1];
      TargetPairsSound(front, prefix, experimentName, root);
      assert files == front + [files[|files| - 1]];
    }
  }

  /** The plan for `py`, `sql`, `pod_operators` is the three groups in that order. */
  lemma PlanGroupsByTarget(glob: string -> seq<string>, root: string, experimentName: string, prefix: string)
    ensures Plan(Targets, glob, root, experimentName, prefix) ==
      TargetPairs(glob(GlobPattern(root, "py")), prefix, experimentName, root) +
      TargetPairs(glob(GlobPattern(root, "sql")), prefix, experimentName, root) +
      TargetPairs(glob(GlobPattern(root, "pod_operators")), prefix, experimentName, root)
  {
    var py := TargetPairs(glob(GlobPattern(root, "py")), prefix, experimentName, root);
    var sql := TargetPairs(glob(GlobPattern(root, "sql")), prefix, experimentName, root);
    var pod := TargetPairs(glob(GlobPattern(root, "pod_operators")), prefix, experimentName, root);
    var t1: seq<string> := ["py"];
    var t2: seq<string> := ["py", "sql"];
    assert t1[..|t1| - 1] == [] && t1[|t1| - 1] == "py";
    assert Plan(t1, glob, root, experimentName, prefix) == py;
    assert t2[..|t2| - 1] == t1 && t2[|t2| - 1] == "sql";
    assert Plan(t2, glob, root, experimentName, prefix) == py + sql;
    assert Targets[..|Targets| - 1] == t2 && Targets[|Targets| - 1] == "pod_operators";
  }

  /** Nothing ignored is planned, and every non-ignored file of every target is. */
  lemma {:induction false} PlanSoundAndComplete(targets: seq<string>, glob: string -> seq<string>, root: string, experimentName: string, prefix: string)
    ensures forall pr :: pr in Plan(targets, glob, root, experimentName, prefix) ==>
      !IsIgnored(pr.0) && pr.1 == RemotePath(prefix, experimentName, root, pr.0)
    ensures forall t, f :: t in targets && f in glob(GlobPattern(root, t)) && !IsIgnored(f) ==>
      (f, RemotePath(prefix, experimentName, root, f)) in Plan(targets, glob, root, experimentName, prefix)
    decreases |targets|
  {
    if targets != [] {
      var front := targets[..|targets| - 1];
      var last := targets[|targets| - 1];
      PlanSoundAndComplete(front, glob, root, experimentName, prefix);
      TargetPairsSound(glob(GlobPattern(root, last)), prefix, experimentName, root);
      assert forall t :: t in targets ==> t in front || t == last;
    }
  }

  // ---------------------------------------------------------------------
  // experiment deploy

  /** A GCS bucket as the upload loop sees it. */
  class GcsBucket {
    const name: string
    /** Each `upload_from_filename`, as (local file, object key), in order. */
    var uploads: seq<(string, string)>

    constructor (name: string)
      ensures this.name == name && uploads == []
    {
      this.name := name;
      uploads := [];
    }

    /** `bucket.blob(key).upload_from_filename(local)` */
    method Upload(local: string, key: string)
      modifies this
      ensures uploads == old(uploads) + [(local, key)]
    {
      uploads := uploads + [(local, key)];
    }
  }

  /** The exceptions raised before anything is uploaded; they name the environment by its short name. */
  datatype DeployError = NotRunning(name: string, state: string) | MissingDagGcsPrefix(name: string) | InvalidPrefixUrl

  /** Where the DAG files go: the bucket and the object prefix, or why deploying is refused. */
  function DeployTarget(environment: Composer.EnvironmentResource): (r: Result<(string, string), DeployError>)
    ensures r.Failure? && r.error.NotRunning? <==> environment.state != "RUNNING"
    ensures r.Failure? && r.error.MissingDagGcsPrefix? <==>
      environment.state == "RUNNING" && ("dagGcsPrefix" !in environment.config || environment.config["dagGcsPrefix"] == "")
    ensures r.Failure? && r.error.NotRunning? ==>
      r.error == NotRunning(Paths.Basename(environment.name), environment.state)
    ensures r.Failure? && r.error.MissingDagGcsPrefix? ==> r.error.name == Paths.Basename(environment.name)
    ensures r.Success? ==>
      (Urls.UrlParse(environment.config["dagGcsPrefix"]).Success? &&
       r.value.0 == Urls.UrlParse(environment.config["dagGcsPrefix"]).value.netloc &&
       r.value.1 == Urls.DropFirst(Urls.UrlParse(environment.config["dagGcsPrefix"]).value.path))
  {
    if environment.state != "RUNNING" then Failure(NotRunning(Paths.Basename(environment.name), environment.state))
    else if "dagGcsPrefix" !in environment.config || environment.config["dagGcsPrefix"] == "" then
      Failure(MissingDagGcsPrefix(Paths.Basename(environment.name)))
    else
      match Urls.UrlParse(environment.config["dagGcsPrefix"])
      case Failure(_) => Failure(InvalidPrefixUrl)
      case Success(u) => Success((u.netloc, Urls.DropFirst(u.path)))
  }

  /** A running environment whose prefix is `gs://<bucket>/<prefix>` deploys to that bucket under that prefix. */
  lemma DeployTargetOfGsPrefix(environment: Composer.EnvironmentResource, bucket: string, prefix: string)
    requires environment.state == "RUNNING"
    requires "dagGcsPrefix" in environment.config && environment.config["dagGcsPrefix"] == "gs://" + bucket + "/" + prefix
    requires Urls.Plain(bucket) && '?' !in prefix && '#' !in prefix
    ensures DeployTarget(environment) == Success((bucket, prefix))
  {
    Urls.GsUrl(bucket, prefix);
  }

  datatype Deployment = Deployed(bucketName: string, plan: seq<(string, string)>, rest: seq<string>) | Refused(error: DeployError) | Aborted

  /** What `ExperimentDeployCommand.run` does, given the experiment, its environment, the globs and the answers. */
  function DeploySpec(root: string, experimentName: string, environment: Composer.EnvironmentResource,
                      glob: string -> seq<string>, lines: seq<string>): (r: Deployment)
    ensures r.Refused? <==> DeployTarget(environment).Failure?
    ensures r.Refused? ==> r.error == DeployTarget(environment).error
    ensures r.Deployed? ==> DeployTarget(environment).Success? && r.bucketName == DeployTarget(environment).value.0
    ensures r.Deployed? ==> r.plan == Plan(Targets, glob, root, experimentName, DeployTarget(environment).value.1)
  {
    match DeployTarget(environment)
    case Failure(e) => Refused(e)
    case Success((bucketName, prefix)) =>
      match Prompt.Confirm(lines)
      case EndOfInput => Aborted
      case Answer(yes, rest) =>
        if yes then Deployed(bucketName, Plan(Targets, glob, root, experimentName, prefix), rest) else Aborted
  }

  /**
   * `ExperimentDeployCommand.run`. `bucket` is what `get_bucket` returned
   * for the bucket name taken from the prefix.
   */
  method Deploy(root: string, experimentName: string, environment: Composer.EnvironmentResource,
                glob: string -> seq<string>, bucket: GcsBucket, lines: seq<string>) returns (r: Deployment)
    modifies bucket
    ensures r == DeploySpec(root, experimentName, environment, glob, lines)
    ensures r.Deployed? ==> bucket.uploads == old(bucket.uploads) + r.plan
    ensures !r.Deployed? ==> bucket.uploads == old(bucket.uploads)
  {
    if environment.state != "RUNNING" {
      return Refused(NotRunning(Paths.Basename(environment.name), environment.state));
    }
    if "dagGcsPrefix" !in environment.config || environment.config["dagGcsPrefix"] == "" {
      return Refused(MissingDagGcsPrefix(Paths.Basename(environment.name)));
    }
    var url := Urls.UrlParse(environment.config["dagGcsPrefix"]);
    if url.Failure? {
      return Refused(InvalidPrefixUrl);
    }
    var bucketName := url.value.netloc;
    var prefix := Urls.DropFirst(url.value.path);
    assert DeployTarget(environment) == Success((bucketName, prefix));
    var pairs := BuildPairs(root, experimentName, prefix, glob);
    var answer := Prompt.Confirm(lines);
    if answer.EndOfInput? || !answer.value {
      return Aborted;
    }
    UploadAll(bucket, pairs);
    return Deployed(bucketName, pairs, answer.rest);
  }

  /** The upload loop: one upload per pair, in order. */
  method UploadAll(bucket: GcsBucket, pairs: seq<(string, string)>)
    modifies bucket
    ensures bucket.uploads == old(bucket.uploads) + pairs
  {
    var k := 0;
    while k < |pairs|
      invariant 0 <= k <= |pairs|
      invariant bucket.uploads == old(bucket.uploads) + pairs[..k]
    {
      bucket.Upload(pairs[k].0, pairs[k].1);
      assert pairs[..k + 1] == pairs[..k] + [pairs[k]];
      k := k + 1;
    }
    assert pairs[..|pairs|] == pairs;
  }

  /** Declining the confirmation aborts the deployment. */
  lemma DeclineAborts(root: string, experimentName: string, environment: Composer.EnvironmentResource,
                      glob: string -> seq<string>, lines: seq<string>)
    requires DeployTarget(environment).Success?
    requires lines != [] && lines[0] in {"n", "no", "N", "No", "NO", ""}
    ensures DeploySpec(root, experimentName, environment, glob, lines) == Aborted
  {
  }
}
