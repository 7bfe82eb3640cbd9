/**
 * `fuga environment init`: pick (or create) a GCP project, then a GCS
 * bucket, then a Cloud Composer environment, skipping every stage whose
 * configuration key is already set, and write the freshly chosen keys to
 * the configuration store once all three stages have succeeded.
 *
 * Remote listings and look-ups are inputs (`Cloud`); the user's answers are
 * a transcript of typed lines (see `Prompt`). A run ends in `Ok`, in
 * `Exit(code)` (`sys.exit`, or click's `Abort` at end of input), or in
 * `Crash(fault)` for an exception nobody catches.
 */
module EnvironmentInit {
  import opened Wrappers
  import Strings
  import Prompt
  import Config
  import Composer

  datatype Project = Project(projectId: string, name: string)
  datatype Bucket = Bucket(name: string, location: string)

  /** What an eagerly evaluated API call does: return a value, raise `Forbidden`, or raise some other API error. */
  datatype Remote<T> = Granted(value: T) | Forbidden | OtherApiError

  /**
   * A lazily paged listing: the items it yields, and whether fetching past
   * the last of them raises. The credentials wrapper only wraps the call
   * that builds the iterator, so such an error is never caught.
   */
  datatype Listing<T> = Listing(items: seq<T>, interrupted: bool)

  /** The exceptions that escape `run()`. */
  datatype Fault = AssertionFailed | IndexOutOfRange | NoneHasNoAttribute | UncaughtApiError

  datatype Outcome<+T> = Ok(value: T, rest: seq<string>) | Exit(code: int) | Crash(fault: Fault)

  /** The same failure, at another result type. */
  function Abandon<T, U>(o: Outcome<T>): (r: Outcome<U>)
    requires !o.Ok?
    ensures !r.Ok?
  {
    if o.Exit? then Exit(o.code) else Crash(o.fault)
  }

  /** `_call_api_with_credentials_catch(f, ...)`: `f`'s result unchanged, exit status 1 on `Forbidden`, anything else propagates. */
  function CallWithCredentialsCatch<T>(call: Remote<T>, lines: seq<string>): (r: Outcome<T>)
    ensures r.Ok? <==> call.Granted?
    ensures r.Ok? ==> r.value == call.value && r.rest == lines
    ensures call.Forbidden? <==> r == Exit(1)
    ensures call.OtherApiError? <==> r == Crash(UncaughtApiError)
  {
    match call
    case Granted(v) => Ok(v, lines)
    case Forbidden => Exit(1)
    case OtherApiError => Crash(UncaughtApiError)
  }

  // ---------------------------------------------------------------------
  // Stage 1: the GCP project

  datatype ProjectPick = ListedProject(project: Project) | CreatedProject(project: Project)

  /** The project id offered at creation: `re.sub(r'\s+', '_', name).lower()`. */
  function DefaultProjectId(name: string): (id: string)
    ensures |id| <= |name|
    ensures forall i :: 0 <= i < |id| ==> !Strings.IsSpace(id[i]) && !('A' <= id[i] <= 'Z')
  {
    CollapseShrinks(name);
    Strings.Lower(Strings.CollapseSpaces(name))
  }

  lemma {:induction false} CollapseShrinks(s: string)
    ensures |Strings.CollapseSpaces(s)| <= |s|
    decreases |s|
  {
    if s != [] {
      if Strings.IsSpace(s[0]) {
        CollapseShrinks(Strings.DropSpaces(s[1..]));
      } else {
        CollapseShrinks(s[1..]);
      }
    }
  }

  /** Two words separated by any whitespace run give `<word>_<word>`, lower-cased. */
  lemma DefaultProjectIdOfTwoWords(w1: string, run: string, w2: string)
    requires Strings.NoSpaces(w1) && Strings.NoSpaces(w2)
    requires run != [] && forall i :: 0 <= i < |run| ==> Strings.IsSpace(run[i])
    ensures DefaultProjectId(w1 + run + w2) == Strings.Lower(w1) + "_" + Strings.Lower(w2)
  {
    Strings.CollapseSpacesRun(w1, run, w2);
    Strings.CollapseSpacesKeepsWords(w2);
    var c := w1 + "_" + w2;
    assert Strings.CollapseSpaces(w1 + run + w2) == c;
    assert DefaultProjectId(w1 + run + w2) == Strings.Lower(c);
    Strings.LowerAppend(w1 + "_", w2);
    Strings.LowerAppend(w1, "_");
    assert Strings.Lower("_") == "_";
  }

  /** The creation prompts: a display name, then a project id offered with the derived default. */
  function NewProject(lines: seq<string>): (r: Outcome<ProjectPick>)
    ensures r.Ok? ==> r.value.CreatedProject? && r.value.project.name != []
    ensures !r.Ok? ==> r == Exit(1)
  {
    match Prompt.AskText(lines)
    case EndOfInput => Exit(1)
    case Answer(name, rest) =>
      match Prompt.AskIntOrDefaultText(rest, DefaultProjectId(name))
      case EndOfInput => Exit(1)
      case Answer(id, rest2) => Ok(CreatedProject(Project(id, name)), rest2)
  }

  /** A display name followed by Enter takes the derived id; followed by a typed integer, that integer's decimal form. */
  lemma NewProjectTyped(name: string, k: int, rest: seq<string>)
    requires name != ""
    ensures NewProject([name, ""] + rest) == Ok(CreatedProject(Project(DefaultProjectId(name), name)), rest)
    ensures NewProject([name, Strings.Decimal(k)] + rest) == Ok(CreatedProject(Project(Strings.Decimal(k), name)), rest)
  {
    var enter := [name, ""] + rest;
    assert enter[1..] == [""] + rest && enter[1..][1..] == rest;
    var typed := [name, Strings.Decimal(k)] + rest;
    assert typed[1..] == [Strings.Decimal(k)] + rest && typed[1..][1..] == rest;
    Prompt.AskIntOrDefaultTextTyped(typed[1..], DefaultProjectId(name), k);
  }

  /** `_setup_gcp_project()` */
  function SetupGcpProject(projects: Listing<Project>, lines: seq<string>): (r: Outcome<ProjectPick>)
    ensures r.Ok? && r.value.ListedProject? ==> r.value.project in projects.items
    ensures r == Exit(0) ==> projects.items == [] && !projects.interrupted
    ensures r == Crash(AssertionFailed) ==> projects.items != []
    ensures projects.interrupted <==> r == Crash(UncaughtApiError)
  {
    if projects.interrupted then Crash(UncaughtApiError)
    else if |projects.items| > 0 then
      match Prompt.AskInt(lines, 1)
      case EndOfInput => Exit(1)
      case Answer(choice, rest) =>
        if choice < 0 || choice > |projects.items| then Crash(AssertionFailed)
        else if choice > 0 then Ok(ListedProject(projects.items[choice - 1]), rest)
        else NewProject(rest)
    else
      match Prompt.Confirm(lines)
      case EndOfInput => Exit(1)
      case Answer(yes, rest) => if yes then NewProject(rest) else Exit(0)
  }

  /** Typing `k` in 1..n picks the k-th project; `0` goes to creation; anything else outside 0..n fails the assertion. */
  lemma ProjectMenuChoice(projects: Listing<Project>, lines: seq<string>, k: int)
    requires !projects.interrupted && projects.items != []
    requires lines != [] && lines[0] == Strings.Decimal(k)
    ensures 1 <= k <= |projects.items| ==>
      SetupGcpProject(projects, lines) == Ok(ListedProject(projects.items[k - 1]), lines[1..])
    ensures k == 0 ==> SetupGcpProject(projects, lines) == NewProject(lines[1..])
    ensures (k < 0 || k > |projects.items|) ==> SetupGcpProject(projects, lines) == Crash(AssertionFailed)
  {
    Prompt.AskIntTyped(lines, 1, k);
  }

  /** With no project listed, declining the confirmation exits with status 0. */
  lemma NoProjectsDecline(projects: Listing<Project>, lines: seq<string>)
    requires !projects.interrupted && projects.items == []
    requires lines != [] && Strings.Lower(lines[0]) in {"n", "no", ""}
    ensures SetupGcpProject(projects, lines) == Exit(0)
  {
  }

  // ---------------------------------------------------------------------
  // Stage 2: the GCS bucket

  const PageSize := 10

  /** `_STORAGE_LOCATIONS` */
  const StorageLocations: seq<string> := [
    "northamerica-northeast1", "us-central1", "us-east1", "us-east4", "us-west1",
    "us-west2", "southamerica-east1", "europe-north1", "europe-west1", "europe-west2",
    "europe-west3", "europe-west4", "europe-west6", "asia-east1", "asia-east2",
    "asia-northeast1", "asia-northeast2", "asia-south1", "asia-southeast1", "australia-southeast1"]

  /** Python's `s[i]`: negative indices count from the end; out of range raises `IndexError`. */
  function PyIndex<T>(s: seq<T>, i: int): (r: Option<T>)
    ensures r.Some? <==> -|s| <= i < |s|
    ensures r.Some? ==> r.value in s
    ensures r.Some? && i >= 0 ==> r.value == s[i]
  {
    if 0 <= i < |s| then Some(s[i])
    else if -|s| <= i < 0 then Some(s[|s| + i])
    else None
  }

  /** Location choice `c` in 1..20 is the c-th location; 0 wraps round to the last one; 21 or more, or below -19, raises. */
  lemma LocationChoice(c: int)
    ensures |StorageLocations| == 20
    ensures 1 <= c <= 20 ==> PyIndex(StorageLocations, c - 1) == Some(StorageLocations[c - 1])
    ensures PyIndex(StorageLocations, 0 - 1) == Some("australia-southeast1")
    ensures (c > 20 || c < -19) ==> PyIndex(StorageLocations, c - 1).None?
  {
  }

  datatype BucketPick = ListedBucket(bucket: Bucket) | CreatedBucket(bucket: Bucket, inProject: string)

  /** The creation prompts: a bucket name, then a 1-based location choice. */
  function NewBucket(projectId: string, lines: seq<string>): (r: Outcome<Option<BucketPick>>)
    ensures r.Ok? ==>
      r.value.Some? && r.value.value.CreatedBucket? &&
      r.value.value.bucket.location in StorageLocations && r.value.value.inProject == projectId
    ensures r.Crash? ==> r.fault == IndexOutOfRange
  {
    match Prompt.AskText(lines)
    case EndOfInput => Exit(1)
    case Answer(name, rest) =>
      match Prompt.AskInt(rest, 1)
      case EndOfInput => Exit(1)
      case Answer(choice, rest2) =>
        match PyIndex(StorageLocations, choice - 1)
        case None => Crash(IndexOutOfRange)
        case Some(location) => Ok(Some(CreatedBucket(Bucket(name, location), projectId)), rest2)
  }

  /** A bucket name, then location choice `c` in 1..20, creates the bucket at the c-th location; Enter takes the first; 21 or more raises. */
  lemma NewBucketTyped(projectId: string, name: string, c: int, rest: seq<string>)
    requires name != ""
    ensures 1 <= c <= 20 ==>
      NewBucket(projectId, [name, Strings.Decimal(c)] + rest) ==
      Ok(Some(CreatedBucket(Bucket(name, StorageLocations[c - 1]), projectId)), rest)
    ensures c > 20 ==> NewBucket(projectId, [name, Strings.Decimal(c)] + rest) == Crash(IndexOutOfRange)
    ensures NewBucket(projectId, [name, ""] + rest) ==
      Ok(Some(CreatedBucket(Bucket(name, "northamerica-northeast1"), projectId)), rest)
  {
    var enter := [name, ""] + rest;
    assert enter[1..] == [""] + rest && enter[1..][1..] == rest;
    var typed := [name, Strings.Decimal(c)] + rest;
    assert typed[1..] == [Strings.Decimal(c)] + rest && typed[1..][1..] == rest;
    Prompt.AskIntTyped(typed[1..], 1, c);
    LocationChoice(c);
  }

  /**
   * The bucket chooser, page by page: a full page of ten offers 0 (create),
   * 1..10 (pick) and 11 (next page); a final short page offers 0..n; an
   * empty remainder yields no bucket.
   */
  function ChooseBucket(items: seq<Bucket>, interrupted: bool, projectId: string, lines: seq<string>): Outcome<Option<BucketPick>>
    decreases |items|
  {
    if |items| >= PageSize then
      match Prompt.AskInt(lines, 1)
      case EndOfInput => Exit(1)
      case Answer(choice, rest) =>
        if choice < 0 || choice > PageSize + 1 then Crash(AssertionFailed)
        else if 1 <= choice <= PageSize then Ok(Some(ListedBucket(items[choice - 1])), rest)
        else if choice == PageSize + 1 then ChooseBucket(items[PageSize..], interrupted, projectId, rest)
        else NewBucket(projectId, rest)
    else if interrupted then Crash(UncaughtApiError)
    else if items == [] then Ok(None, lines)
    else
      match Prompt.AskInt(lines, 1)
      case EndOfInput => Exit(1)
      case Answer(choice, rest) =>
        if choice < 0 || choice > |items| then Crash(AssertionFailed)
        else if choice >= 1 then Ok(Some(ListedBucket(items[choice - 1])), rest)
        else NewBucket(projectId, rest)
  }

  /**
   * `_setup_gcs_bucket(project)`: walks the listing one bucket at a time,
   * showing a menu each time the buffer reaches ten and emptying it on
   * "next page"; a final menu covers the remainder.
   */
  method SetupGcsBucket(projectId: string, buckets: Listing<Bucket>, lines: seq<string>) returns (r: Outcome<Option<BucketPick>>)
    ensures r == ChooseBucket(buckets.items, buckets.interrupted, projectId, lines)
  {
    var items := buckets.items;
    var candidates: seq<Bucket> := [];
    var input := lines;
    ghost var start := 0;
    var i := 0;
    while i < |items|
      invariant 0 <= start <= i <= |items|
      invariant candidates == items[start..i]
      invariant |candidates| < PageSize
      invariant ChooseBucket(items, buckets.interrupted, projectId, lines) ==
                ChooseBucket(items[start..], buckets.interrupted, projectId, input)
    {
      assert items[start..i + 1] == items[start..i] + [items[i]];
      candidates := candidates + [items[i]];
      i := i + 1;
      if |candidates| >= PageSize {
        var answer := Prompt.AskInt(input, 1);
        if answer.EndOfInput? {
          return Exit(1);
        }
        var choice := answer.value;
        if !(choice >= 0 && choice <= |candidates| + 1) {
          return Crash(AssertionFailed);
        }
        if choice > 0 && choice <= |candidates| {
          return Ok(Some(ListedBucket(candidates[choice - 1])), answer.rest);
        } else if choice == |candidates| + 1 {
          assert items[start..][PageSize..] == items[i..];
          candidates := [];
          start := i;
          input := answer.rest;
          continue;
        } else {
          r := NewBucket(projectId, answer.rest);
          return;
        }
      }
    }
    if buckets.interrupted {
      return Crash(UncaughtApiError);
    }
    if |candidates| > 0 {
      var answer := Prompt.AskInt(input, 1);
      if answer.EndOfInput? {
        return Exit(1);
      }
      var choice := answer.value;
      if !(choice >= 0 && choice <= |candidates|) {
        return Crash(AssertionFailed);
      }
      if choice > 0 {
        return Ok(Some(ListedBucket(candidates[choice - 1])), answer.rest);
      }
      r := NewBucket(projectId, answer.rest);
      return;
    }
    return Ok(None, input);
  }

  /** On a full page, typing `k` in 1..10 picks the k-th bucket of the page and 11 moves to the next page. */
  lemma BucketPageChoice(items: seq<Bucket>, interrupted: bool, projectId: string, lines: seq<string>, k: int)
    requires |items| >= PageSize
    requires lines != [] && lines[0] == Strings.Decimal(k)
    ensures 1 <= k <= PageSize ==>
      ChooseBucket(items, interrupted, projectId, lines) == Ok(Some(ListedBucket(items[k - 1])), lines[1..])
    ensures k == PageSize + 1 ==>
      ChooseBucket(items, interrupted, projectId, lines) == ChooseBucket(items[PageSize..], interrupted, projectId, lines[1..])
    ensures k == 0 ==> ChooseBucket(items, interrupted, projectId, lines) == NewBucket(projectId, lines[1..])
    ensures (k < 0 || k > PageSize + 1) ==> ChooseBucket(items, interrupted, projectId, lines) == Crash(AssertionFailed)
  {
    Prompt.AskIntTyped(lines, 1, k);
  }

  /** The final short page accepts 0..n only: "next" (n+1) fails the assertion there. */
  lemma BucketRemainderChoice(items: seq<Bucket>, projectId: string, lines: seq<string>, k: int)
    requires 0 < |items| < PageSize
    requires lines != [] && lines[0] == Strings.Decimal(k)
    ensures 1 <= k <= |items| ==>
      ChooseBucket(items, false, projectId, lines) == Ok(Some(ListedBucket(items[k - 1])), lines[1..])
    ensures k == 0 ==> ChooseBucket(items, false, projectId, lines) == NewBucket(projectId, lines[1..])
    ensures (k < 0 || k > |items|) ==> ChooseBucket(items, false, projectId, lines) == Crash(AssertionFailed)
  {
    Prompt.AskIntTyped(lines, 1, k);
  }

  /** No bucket comes back only if the listing ended cleanly on a page boundary (in particular, when it was empty). */
  lemma {:induction false} NoBucketOnlyAtPageBoundary(items: seq<Bucket>, interrupted: bool, projectId: string, lines: seq<string>)
    ensures ChooseBucket(items, interrupted, projectId, lines).Ok? && ChooseBucket(items, interrupted, projectId, lines).value.None? ==>
      |items| % PageSize == 0 && !interrupted
    ensures items == [] && !interrupted ==> ChooseBucket(items, interrupted, projectId, lines) == Ok(None, lines)
    decreases |items|
  {
    if |items| >= PageSize {
      match Prompt.AskInt(lines, 1)
      case EndOfInput =>
      case Answer(choice, rest) =>
        if choice == PageSize + 1 {
          NoBucketOnlyAtPageBoundary(items[PageSize..], interrupted, projectId, rest);
          assert |items| % PageSize == |items[PageSize..]| % PageSize;
        }
    }
  }

  /** A bucket that comes back is one of the listed buckets, or a new one at one of the twenty locations in the chosen project. */
  lemma {:induction false} ChosenBucketIsListedOrCreated(items: seq<Bucket>, interrupted: bool, projectId: string, lines: seq<string>)
    ensures var r := ChooseBucket(items, interrupted, projectId, lines);
      r.Ok? && r.value.Some? ==>
        (r.value.value.ListedBucket? && r.value.value.bucket in items) ||
        (r.value.value.CreatedBucket? && r.value.value.bucket.location in StorageLocations && r.value.value.inProject == projectId)
    decreases |items|
  {
    if |items| >= PageSize {
      match Prompt.AskInt(lines, 1)
      case EndOfInput =>
      case Answer(choice, rest) =>
        if choice == PageSize + 1 {
          ChosenBucketIsListedOrCreated(items[PageSize..], interrupted, projectId, rest);
          var r := ChooseBucket(items[PageSize..], interrupted, projectId, rest);
          if r.Ok? && r.value.Some? && r.value.value.ListedBucket? {
            assert r.value.value.bucket in items[PageSize..];
          }
        }
    }
  }

  // ---------------------------------------------------------------------
  // Stage 3: the Cloud Composer environment

  /**
   * The environment chooser, page by page. There is no creation: a full
   * page offers 1..10 and 11 (next page); a final short page offers 1..n.
   */
  function ChooseEnvironment(items: seq<Composer.EnvironmentResource>, interrupted: bool, lines: seq<string>): Outcome<Option<Composer.EnvironmentResource>>
    decreases |items|
  {
    if |items| >= PageSize then
      match Prompt.AskInt(lines, 1)
      case EndOfInput => Exit(1)
      case Answer(choice, rest) =>
        if choice < 1 || choice > PageSize + 1 then Crash(AssertionFailed)
        else if choice == PageSize + 1 then ChooseEnvironment(items[PageSize..], interrupted, rest)
        else Ok(Some(items[choice - 1]), rest)
    else if interrupted then Crash(UncaughtApiError)
    else if items == [] then Ok(None, lines)
    else
      match Prompt.AskInt(lines, 1)
      case EndOfInput => Exit(1)
      case Answer(choice, rest) =>
        if choice < 1 || choice > |items| then Crash(AssertionFailed)
        else Ok(Some(items[choice - 1]), rest)
  }

  /** `_setup_composer_environment(project, location)`: the listing is the one for that project and location. */
  method SetupComposerEnvironment(
      environments: (string, string) -> Listing<Composer.EnvironmentResource>,
      projectId: string, location: string, lines: seq<string>)
    returns (r: Outcome<Option<Composer.EnvironmentResource>>)
    ensures r == ChooseEnvironment(environments(projectId, location).items, environments(projectId, location).interrupted, lines)
  {
    var listing := environments(projectId, location);
    var items := listing.items;
    var candidates: seq<Composer.EnvironmentResource> := [];
    var input := lines;
    ghost var start := 0;
    var i := 0;
    while i < |items|
      invariant 0 <= start <= i <= |items|
      invariant candidates == items[start..i]
      invariant |candidates| < PageSize
      invariant ChooseEnvironment(items, listing.interrupted, lines) ==
                ChooseEnvironment(items[start..], listing.interrupted, input)
    {
      assert items[start..i + 1] == items[start..i] + [items[i]];
      candidates := candidates + [items[i]];
      i := i + 1;
      if |candidates| >= PageSize {
        var answer := Prompt.AskInt(input, 1);
        if answer.EndOfInput? {
          return Exit(1);
        }
        var choice := answer.value;
        if !(choice >= 1 && choice <= |candidates| + 1) {
          return Crash(AssertionFailed);
        }
        if choice == |candidates| + 1 {
          assert items[start..][PageSize..] == items[i..];
          candidates := [];
          start := i;
          input := answer.rest;
          continue;
        } else {
          return Ok(Some(candidates[choice - 1]), answer.rest);
        }
      }
    }
    if listing.interrupted {
      return Crash(UncaughtApiError);
    }
    if |candidates| > 0 {
      var answer := Prompt.AskInt(input, 1);
      if answer.EndOfInput? {
        return Exit(1);
      }
      var choice := answer.value;
      if !(choice >= 1 && choice <= |candidates|) {
        return Crash(AssertionFailed);
      }
      return Ok(Some(candidates[choice - 1]), answer.rest);
    }
    return Ok(None, input);
  }

  /** Whatever the environment chooser returns was listed. */
  lemma {:induction false} ChosenEnvironmentIsListed(items: seq<Composer.EnvironmentResource>, interrupted: bool, lines: seq<string>)
    ensures var r := ChooseEnvironment(items, interrupted, lines);
      r.Ok? && r.value.Some? ==> r.value.value in items
    decreases |items|
  {
    if |items| >= PageSize {
      match Prompt.AskInt(lines, 1)
      case EndOfInput =>
      case Answer(choice, rest) =>
        if choice == PageSize + 1 {
          ChosenEnvironmentIsListed(items[PageSize..], interrupted, rest);
          var r := ChooseEnvironment(items[PageSize..], interrupted, rest);
          if r.Ok? && r.value.Some? {
            assert r.value.value in items[PageSize..];
          }
        }
    }
  }

  /** Typing `k`: on a full page 1..10 picks and 11 is "next"; on a short final page only 1..n is accepted. */
  lemma EnvironmentMenuChoice(items: seq<Composer.EnvironmentResource>, lines: seq<string>, k: int)
    requires items != []
    requires lines != [] && lines[0] == Strings.Decimal(k)
    ensures |items| >= PageSize && 1 <= k <= PageSize ==>
      ChooseEnvironment(items, false, lines) == Ok(Some(items[k - 1]), lines[1..])
    ensures |items| >= PageSize && k == PageSize + 1 ==>
      ChooseEnvironment(items, false, lines) == ChooseEnvironment(items[PageSize..], false, lines[1..])
    ensures |items| >= PageSize && (k < 1 || k > PageSize + 1) ==>
      ChooseEnvironment(items, false, lines) == Crash(AssertionFailed)
    ensures |items| < PageSize && 1 <= k <= |items| ==>
      ChooseEnvironment(items, false, lines) == Ok(Some(items[k - 1]), lines[1..])
    ensures |items| < PageSize && (k < 1 || k > |items|) ==>
      ChooseEnvironment(items, false, lines) == Crash(AssertionFailed)
  {
    Prompt.AskIntTyped(lines, 1, k);
  }

  // ---------------------------------------------------------------------
  // run()

  /** The remote services, as the calls `run()` makes observe them. */
  datatype Cloud = Cloud(
    projects: Listing<Project>,
    fetchProject: string -> Remote<Project>,
    buckets: Listing<Bucket>,
    getBucket: string -> Remote<Bucket>,
    environments: (string, string) -> Listing<Composer.EnvironmentResource>,
    getEnvironment: string -> Remote<Composer.EnvironmentResource>)

  /** A stage's resource, and whether it was chosen now (rather than fetched by its configured key). */
  datatype Staged<T> = Staged(item: T, chosen: bool)

  datatype Resolved = Resolved(
    project: Project, bucket: Bucket, environment: Composer.EnvironmentResource,
    overrides: seq<(string, string)>)

  /** Python truthiness of a configuration value. */
  predicate Truthy(v: Option<string>)
  {
    v.Some? && v.value != ""
  }

  /** The three configured values `run()` reads: `get_config('gcp_project_id')` and so on. */
  datatype Preset = Preset(projectId: Option<string>, bucketName: Option<string>, environmentPath: Option<string>)

  function PresetOf(s: Config.Settings): Preset
  {
    Preset(s.Get(Config.ProjectKey), s.Get(Config.BucketKey), s.Get(Config.EnvironmentKey))
  }

  function ProjectStage(id: Option<string>, cloud: Cloud, lines: seq<string>): Outcome<Staged<Project>>
  {
    if Truthy(id) then
      var c := CallWithCredentialsCatch(cloud.fetchProject(id.value), lines);
      if c.Ok? then Ok(Staged(c.value, false), c.rest) else Abandon(c)
    else
      var c := SetupGcpProject(cloud.projects, lines);
      if c.Ok? then Ok(Staged(c.value.project, true), c.rest) else Abandon(c)
  }

  function BucketStage(name: Option<string>, cloud: Cloud, project: Project, lines: seq<string>): Outcome<Staged<Bucket>>
  {
    if Truthy(name) then
      var c := CallWithCredentialsCatch(cloud.getBucket(name.value), lines);
      if c.Ok? then Ok(Staged(c.value, false), c.rest) else Abandon(c)
    else
      var c := ChooseBucket(cloud.buckets.items, cloud.buckets.interrupted, project.projectId, lines);
      if !c.Ok? then Abandon(c)
      else if c.value.None? then Crash(NoneHasNoAttribute)
      else Ok(Staged(c.value.value.bucket, true), c.rest)
  }

  function EnvironmentStage(path: Option<string>, cloud: Cloud, project: Project, bucket: Bucket, lines: seq<string>): Outcome<Staged<Composer.EnvironmentResource>>
  {
    if Truthy(path) then
      var c := CallWithCredentialsCatch(cloud.getEnvironment(path.value), lines);
      if c.Ok? then Ok(Staged(c.value, false), c.rest) else Abandon(c)
    else
      var listing := cloud.environments(project.projectId, Strings.Lower(bucket.location));
      var c := ChooseEnvironment(listing.items, listing.interrupted, lines);
      if !c.Ok? then Abandon(c)
      else if c.value.None? then Crash(NoneHasNoAttribute)
      else Ok(Staged(c.value.value, true), c.rest)
  }

  /** `config_overrides`, in insertion order. */
  function Overrides(p: Staged<Project>, b: Staged<Bucket>, e: Staged<Composer.EnvironmentResource>): seq<(string, string)>
  {
    (if p.chosen then [(Config.ProjectKey, p.item.projectId)] else []) +
    (if b.chosen then [(Config.BucketKey, b.item.name)] else []) +
    (if e.chosen then [(Config.EnvironmentKey, e.item.name)] else [])
  }

  /** The three stages in sequence, as `run()` performs them. */
  function RunSpec(s: Preset, cloud: Cloud, lines: seq<string>): Outcome<Resolved>
  {
    var p := ProjectStage(s.projectId, cloud, lines);
    if !p.Ok? then Abandon(p)
    else
      var b := BucketStage(s.bucketName, cloud, p.value.item, p.rest);
      if !b.Ok? then Abandon(b)
      else
        var e := EnvironmentStage(s.environmentPath, cloud, p.value.item, b.value.item, b.rest);
        if !e.Ok? then Abandon(e)
        else Ok(Resolved(p.value.item, b.value.item, e.value.item, Overrides(p.value, b.value, e.value)), e.rest)
  }

  /** The map after writing `kvs` one after another. */
  function Written(m: Config.ConfigMap, kvs: seq<(string, string)>): Config.ConfigMap
    decreases |kvs|
  {
    if kvs == [] then m
    else Written(m, kvs[..|kvs| - 1])[kvs[|kvs| - 1].0 := Some(kvs[|kvs| - 1].1)]
  }

  function KeysOf(kvs: seq<(string, string)>): set<string>
  {
    set kv | kv in kvs :: kv.0
  }

  /** The project stage as `run()` executes it, the step `Run` calls; it computes `ProjectStage`. */
  method ResolveProject(id: Option<string>, cloud: Cloud, lines: seq<string>) returns (r: Outcome<Staged<Project>>)
    ensures r == ProjectStage(id, cloud, lines)
  {
    if Truthy(id) {
      var c := CallWithCredentialsCatch(cloud.fetchProject(id.value), lines);
      if !c.Ok? {
        return Abandon(c);
      }
      return Ok(Staged(c.value, false), c.rest);
    }
    var c := SetupGcpProject(cloud.projects, lines);
    if !c.Ok? {
      return Abandon(c);
    }
    return Ok(Staged(c.value.project, true), c.rest);
  }

  /** The bucket stage as `run()` executes it, paging through `SetupGcsBucket`; it computes `BucketStage`. */
  method ResolveBucket(name: Option<string>, cloud: Cloud, project: Project, lines: seq<string>) returns (r: Outcome<Staged<Bucket>>)
    ensures r == BucketStage(name, cloud, project, lines)
  {
    if Truthy(name) {
      var c := CallWithCredentialsCatch(cloud.getBucket(name.value), lines);
      if !c.Ok? {
        return Abandon(c);
      }
      return Ok(Staged(c.value, false), c.rest);
    }
    var c := SetupGcsBucket(project.projectId, cloud.buckets, lines);
    if !c.Ok? {
      return Abandon(c);
    }
    if c.value.None? {
      // `bucket.name` on `None`
      return Crash(NoneHasNoAttribute);
    }
    return Ok(Staged(c.value.value.bucket, true), c.rest);
  }

  /** The environment stage as `run()` executes it, through `SetupComposerEnvironment`; it computes `EnvironmentStage`. */
  method ResolveEnvironment(path: Option<string>, cloud: Cloud, project: Project, bucket: Bucket, lines: seq<string>)
    returns (r: Outcome<Staged<Composer.EnvironmentResource>>)
    ensures r == EnvironmentStage(path, cloud, project, bucket, lines)
  {
    if Truthy(path) {
      var c := CallWithCredentialsCatch(cloud.getEnvironment(path.value), lines);
      if !c.Ok? {
        return Abandon(c);
      }
      return Ok(Staged(c.value, false), c.rest);
    }
    var c := SetupComposerEnvironment(cloud.environments, project.projectId, Strings.Lower(bucket.location), lines);
    if !c.Ok? {
      return Abandon(c);
    }
    if c.value.None? {
      // `environment.full_path` on `None`
      return Crash(NoneHasNoAttribute);
    }
    return Ok(Staged(c.value.value, true), c.rest);
  }

  /** Writes each pair in turn through `Store.Write`. */
  method WriteAll(store: Config.Store, overrides: seq<(string, string)>)
    modifies store
    ensures store.config == Written(old(store.config), overrides)
    ensures overrides != [] ==> store.file == Config.Holds(store.config)
    ensures overrides == [] ==> store.file == old(store.file)
  {
    var i := 0;
    while i < |overrides|
      invariant 0 <= i <= |overrides|
      invariant store.config == Written(old(store.config), overrides[..i])
      invariant i > 0 ==> store.file == Config.Holds(store.config)
      invariant i == 0 ==> store.file == old(store.file)
    {
      store.Write(overrides[i].0, overrides[i].1);
      assert overrides[..i + 1][..i] == overrides[..i];
      i := i + 1;
    }
    assert overrides[..|overrides|] == overrides;
  }

  /** `run()`: resolve the three stages, then write the freshly chosen keys one by one. */
  method Run(store: Config.Store, env: Config.Env, cloud: Cloud, lines: seq<string>) returns (r: Outcome<Resolved>)
    modifies store
    ensures r == RunSpec(PresetOf(Config.Settings(env, old(store.config))), cloud, lines)
    ensures r.Ok? ==> store.config == Written(old(store.config), r.value.overrides)
    ensures r.Ok? && r.value.overrides != [] ==> store.file == Config.Holds(store.config)
    ensures !(r.Ok? && r.value.overrides != []) ==> store.config == old(store.config) && store.file == old(store.file)
  {
    ghost var preset := PresetOf(Config.Settings(env, store.config));
    var p := ResolveProject(store.Get(env, Config.ProjectKey), cloud, lines);
    if !p.Ok? {
      return Abandon(p);
    }
    var b := ResolveBucket(store.Get(env, Config.BucketKey), cloud, p.value.item, p.rest);
    if !b.Ok? {
      return Abandon(b);
    }
    var e := ResolveEnvironment(store.Get(env, Config.EnvironmentKey), cloud, p.value.item, b.value.item, b.rest);
    if !e.Ok? {
      return Abandon(e);
    }
    var overrides := Overrides(p.value, b.value, e.value);
    assert RunSpec(preset, cloud, lines) == Ok(Resolved(p.value.item, b.value.item, e.value.item, overrides), e.rest);
    WriteAll(store, overrides);
    r := Ok(Resolved(p.value.item, b.value.item, e.value.item, overrides), e.rest);
  }

  // ---------------------------------------------------------------------
  // Properties of run()

  /** A truthily configured key skips its stage; an unconfigured one has its stage run and its key written. */
  lemma RunWritesExactlyTheUnconfiguredKeys(s: Preset, cloud: Cloud, lines: seq<string>)
    requires RunSpec(s, cloud, lines).Ok?
    ensures var res := RunSpec(s, cloud, lines).value;
      KeysOf(res.overrides) ==
        (if Truthy(s.projectId) then {} else {Config.ProjectKey}) +
        (if Truthy(s.bucketName) then {} else {Config.BucketKey}) +
        (if Truthy(s.environmentPath) then {} else {Config.EnvironmentKey})
    ensures var res := RunSpec(s, cloud, lines).value;
      forall kv :: kv in res.overrides ==>
        (kv.0 == Config.ProjectKey ==> kv.1 == res.project.projectId) &&
        (kv.0 == Config.BucketKey ==> kv.1 == res.bucket.name) &&
        (kv.0 == Config.EnvironmentKey ==> kv.1 == res.environment.name)
    ensures DistinctKeys(RunSpec(s, cloud, lines).value.overrides)
  {
    var p := ProjectStage(s.projectId, cloud, lines);
    var b := BucketStage(s.bucketName, cloud, p.value.item, p.rest);
    var e := EnvironmentStage(s.environmentPath, cloud, p.value.item, b.value.item, b.rest);
    var ov := Overrides(p.value, b.value, e.value);
    OverridesKeys(p.value, b.value, e.value);
    OverridesValues(p.value, b.value, e.value);
  }

  lemma OverridesKeys(p: Staged<Project>, b: Staged<Bucket>, e: Staged<Composer.EnvironmentResource>)
    ensures KeysOf(Overrides(p, b, e)) ==
      (if p.chosen then {Config.ProjectKey} else {}) +
      (if b.chosen then {Config.BucketKey} else {}) +
      (if e.chosen then {Config.EnvironmentKey} else {})
  {
    var ov := Overrides(p, b, e);
    var expected := (if p.chosen then {Config.ProjectKey} else {}) +
      (if b.chosen then {Config.BucketKey} else {}) +
      (if e.chosen then {Config.EnvironmentKey} else {});
    forall k | k in expected
      ensures k in KeysOf(ov)
    {
      if k == Config.ProjectKey && p.chosen {
        assert (Config.ProjectKey, p.item.projectId) in ov;
      } else if k == Config.BucketKey && b.chosen {
        assert (Config.BucketKey, b.item.name) in ov;
      } else {
        assert (Config.EnvironmentKey, e.item.name) in ov;
      }
    }
  }

  lemma OverridesValues(p: Staged<Project>, b: Staged<Bucket>, e: Staged<Composer.EnvironmentResource>)
    ensures forall kv :: kv in Overrides(p, b, e) ==>
        (kv.0 == Config.ProjectKey ==> kv.1 == p.item.projectId) &&
        (kv.0 == Config.BucketKey ==> kv.1 == b.item.name) &&
        (kv.0 == Config.EnvironmentKey ==> kv.1 == e.item.name)
    ensures DistinctKeys(Overrides(p, b, e))
  {
    assert Config.ProjectKey != Config.BucketKey && Config.BucketKey != Config.EnvironmentKey
      && Config.ProjectKey != Config.EnvironmentKey;
  }

  /** Configured resources are the ones the look-ups return; chosen ones come from their listings (or were created). */
  lemma RunUsesConfiguredOrListedResources(s: Preset, cloud: Cloud, lines: seq<string>)
    requires RunSpec(s, cloud, lines).Ok?
    ensures var res := RunSpec(s, cloud, lines).value;
      (Truthy(s.projectId) ==> cloud.fetchProject(s.projectId.value) == Granted(res.project)) &&
      (Truthy(s.bucketName) ==> cloud.getBucket(s.bucketName.value) == Granted(res.bucket)) &&
      (Truthy(s.environmentPath) ==> cloud.getEnvironment(s.environmentPath.value) == Granted(res.environment))
    ensures var res := RunSpec(s, cloud, lines).value;
      !Truthy(s.bucketName) ==> res.bucket in cloud.buckets.items || res.bucket.location in StorageLocations
    ensures var res := RunSpec(s, cloud, lines).value;
      !Truthy(s.environmentPath) ==>
        res.environment in cloud.environments(res.project.projectId, Strings.Lower(res.bucket.location)).items
  {
    var p := ProjectStage(s.projectId, cloud, lines);
    var b := BucketStage(s.bucketName, cloud, p.value.item, p.rest);
    ChosenBucketIsListedOrCreated(cloud.buckets.items, cloud.buckets.interrupted, p.value.item.projectId, p.rest);
    var listing := cloud.environments(p.value.item.projectId, Strings.Lower(b.value.item.location));
    ChosenEnvironmentIsListed(listing.items, listing.interrupted, b.rest);
  }

  /** A configured project the credentials may not read ends the run with exit status 1 before any prompt. */
  lemma ForbiddenProjectExits(s: Preset, cloud: Cloud, lines: seq<string>)
    requires Truthy(s.projectId)
    requires cloud.fetchProject(s.projectId.value) == Forbidden
    ensures RunSpec(s, cloud, lines) == Exit(1)
  {
  }

  /** With no bucket configured and none listed, the chooser returns nothing and `bucket.name` raises. */
  lemma EmptyBucketListingCrashes(s: Preset, cloud: Cloud, lines: seq<string>)
    requires ProjectStage(s.projectId, cloud, lines).Ok?
    requires !Truthy(s.bucketName)
    requires cloud.buckets == Listing([], false)
    ensures RunSpec(s, cloud, lines) == Crash(NoneHasNoAttribute)
  {
    var p := ProjectStage(s.projectId, cloud, lines);
    NoBucketOnlyAtPageBoundary([], false, p.value.item.projectId, p.rest);
  }

  predicate DistinctKeys(kvs: seq<(string, string)>)
  {
    forall i, j :: 0 <= i < j < |kvs| ==> kvs[i].0 != kvs[j].0
  }

  /** After writing pairs with distinct keys, each key holds its value and every other key is as before. */
  lemma {:induction false} WrittenLookup(m: Config.ConfigMap, kvs: seq<(string, string)>)
    requires DistinctKeys(kvs)
    ensures forall kv :: kv in kvs ==> kv.0 in Written(m, kvs) && Written(m, kvs)[kv.0] == Some(kv.1)
    ensures forall k :: k !in KeysOf(kvs) ==> (k in Written(m, kvs) <==> k in m)
    ensures forall k :: k !in KeysOf(kvs) && k in m ==> Written(m, kvs)[k] == m[k]
    decreases |kvs|
  {
    if kvs != [] {
      var front := kvs[..|kvs| - 1];
      WrittenLookup(m, front);
      var last := kvs[|kvs| - 1];
      forall kv | kv in front
        ensures kv.0 != last.0
      {
        var i :| 0 <= i < |front| && front[i] == kv;
        assert kvs[i] == kv;
      }
      assert kvs == front + [last];
    }
  }

  /** What `run()` leaves in the configuration map: chosen values under the unconfigured keys, everything else as it was. */
  predicate StoredAs(written: Config.ConfigMap, before: Config.ConfigMap, key: string, configured: Option<string>, chosen: string)
  {
    if Truthy(configured) then (key in written <==> key in before) && (key in before ==> written[key] == before[key])
    else key in written && written[key] == Some(chosen)
  }

  lemma StoredKey(m: Config.ConfigMap, kvs: seq<(string, string)>, key: string, configured: Option<string>, chosen: string)
    requires DistinctKeys(kvs)
    requires key in KeysOf(kvs) <==> !Truthy(configured)
    requires forall kv :: kv in kvs && kv.0 == key ==> kv.1 == chosen
    ensures StoredAs(Written(m, kvs), m, key, configured, chosen)
  {
    WrittenLookup(m, kvs);
    if key in KeysOf(kvs) {
      var kv :| kv in kvs && kv.0 == key;
    }
  }

  lemma RunStoresChoices(m: Config.ConfigMap, s: Preset, cloud: Cloud, lines: seq<string>)
    requires RunSpec(s, cloud, lines).Ok?
    ensures var res := RunSpec(s, cloud, lines).value;
      var written := Written(m, res.overrides);
      StoredAs(written, m, Config.ProjectKey, s.projectId, res.project.projectId) &&
      StoredAs(written, m, Config.BucketKey, s.bucketName, res.bucket.name) &&
      StoredAs(written, m, Config.EnvironmentKey, s.environmentPath, res.environment.name)
  {
    var res := RunSpec(s, cloud, lines).value;
    RunWritesExactlyTheUnconfiguredKeys(s, cloud, lines);
    var keys := KeysOf(res.overrides);
    assert Config.ProjectKey != Config.BucketKey && Config.BucketKey != Config.EnvironmentKey
      && Config.ProjectKey != Config.EnvironmentKey;
    assert Config.ProjectKey in keys <==> !Truthy(s.projectId);
    assert Config.BucketKey in keys <==> !Truthy(s.bucketName);
    assert Config.EnvironmentKey in keys <==> !Truthy(s.environmentPath);
    StoredKey(m, res.overrides, Config.ProjectKey, s.projectId, res.project.projectId);
    StoredKey(m, res.overrides, Config.BucketKey, s.bucketName, res.bucket.name);
    StoredKey(m, res.overrides, Config.EnvironmentKey, s.environmentPath, res.environment.name);
  }
}
